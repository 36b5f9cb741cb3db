/**
 * The test helper's eager bootstrap, step by step against `FileManager`:
 * the free helper functions and the `VcpkgHelper` class. Each method is
 * proved to do exactly what the corresponding function of `HelperSteps`
 * says; the properties of those functions are in `HelperProperties`.
 * The curl and unzip executables are not parameters: their runs are the
 * `Run` oracles.
 */
module Helper {
  import opened Wrappers
  import opened Paths
  import opened FileSystem
  import opened HelperSteps
  import Release

  /** Creates the destination folder (or the destination's parent) when absent and returns it. */
  method CreateFolders(fm: FileManager, destination: FileUrl) returns (r: Result<FileUrl, Failure>)
    modifies fm
    ensures Step(r, fm.entries) == CreateFoldersStep(old(fm.entries), destination)
  {
    var p := FolderOf(destination);
    if !fm.FileExists(p.path) {
      var err := fm.CreateDirectory(p.path);
      if err.Some? {
        return Failure(Io(err.value));
      }
    }
    return Success(p);
  }

  /** Replaces `folder/name` by an empty file; EntryNotFound when that fails. */
  method CreateFile(fm: FileManager, folder: FileUrl, name: string) returns (r: Result<FileUrl, Failure>)
    modifies fm
    ensures Step(r, fm.entries) == CreateFileStep(old(fm.entries), folder, name)
  {
    var f := Appending(folder, name);
    if fm.FileExists(f.path) {
      var err := fm.RemoveItem(f.path);
      assert err.None?;
    }
    var ok := fm.CreateFile(f.path);
    if !ok {
      return Failure(EntryNotFound);
    }
    return Success(f);
  }

  /** Replaces `dest` by a copy of `src`. */
  method Overwrite(fm: FileManager, src: FileUrl, dest: FileUrl) returns (r: Result<(), Failure>)
    modifies fm
    ensures Step(r, fm.entries) == OverwriteStep(old(fm.entries), src, dest)
  {
    if fm.FileExists(dest.path) {
      var err := fm.RemoveItem(dest.path);
      assert err.None?;
    }
    var err := fm.CopyItem(src.path, dest.path);
    if err.Some? {
      return Failure(Io(err.value));
    }
    return Success(());
  }

  /** URLSession download of `remote` to `destination`. */
  method DownloadFile(fm: FileManager, remote: string, destination: FileUrl, session: Session)
    returns (r: Result<(), Failure>)
    modifies fm
    ensures Step(r, fm.entries) == DownloadFileStep(old(fm.entries), remote, destination, session)
  {
    var folder := CreateFolders(fm, destination);
    if folder.Failure? {
      return Failure(folder.error);
    }
    var reply := session.fetch(remote);
    if reply.None? {
      return Failure(Io(TransportError));
    }
    fm.Save(session.temp, reply.value.body);
    if reply.value.status != 200 {
      return Failure(DownloadFailed);
    }
    r := Overwrite(fm, FileUrl(session.temp, false), destination);
  }

  /** curl download of `source` to `destination`; true when curl exits with 0. */
  method DownloadFileWithCurl(fm: FileManager, source: string, destination: FileUrl, run: Run, payload: seq<bv8>)
    returns (r: Result<bool, Failure>)
    modifies fm
    ensures Step(r, fm.entries) == DownloadFileWithCurlStep(old(fm.entries), source, destination, run, payload)
  {
    var outputs := CreateFolders(fm, destination);
    if outputs.Failure? {
      return Failure(outputs.error);
    }
    var logFile := CreateFile(fm, outputs.value, DownloadLog);
    if logFile.Failure? {
      return Failure(logFile.error);
    }
    match run
    case CannotLaunch =>
      return Failure(Io(LaunchFailed));
    case Exited(status) =>
      if status == 0 {
        fm.Write(destination.path, payload);
      }
      return Success(status == 0);
  }

  /** unzip of `source` into `destination`; true when unzip exits with 0. */
  method ExtractWithUnzip(fm: FileManager, source: FileUrl, destination: FileUrl, run: Run, entries: map<string, Node>)
    returns (r: Result<bool, Failure>)
    modifies fm
    ensures Step(r, fm.entries) == ExtractWithUnzipStep(old(fm.entries), source, destination, run, entries)
  {
    var outputs := CreateFolders(fm, destination);
    if outputs.Failure? {
      return Failure(outputs.error);
    }
    var logFile := CreateFile(fm, outputs.value, ExtractLog);
    if logFile.Failure? {
      return Failure(logFile.error);
    }
    match run
    case CannotLaunch =>
      return Failure(Io(LaunchFailed));
    case Exited(status) =>
      if status == 0 {
        fm.Unpack(destination.path, entries);
      }
      return Success(status == 0);
  }

  /** Bootstraps vcpkg (registry and tool) into a workspace folder. */
  class VcpkgHelper {
    const workspace: FileUrl
    const fm: FileManager

    constructor(workspace: FileUrl, fm: FileManager)
      ensures this.workspace == workspace && this.fm == fm
    {
      this.workspace := workspace;
      this.fm := fm;
    }

    /** Downloads the registry archive of `registry` with URLSession and unzips it into the workspace. */
    method InstallUpstream(session: Session, unzip: Run, entries: map<string, Node>,
                           registry: string := DefaultRegistryVersion)
      returns (r: Result<FileUrl, Failure>)
      modifies fm
      ensures Step(r, fm.entries) == InstallUpstreamStep(old(fm.entries), workspace, registry, session, unzip, entries)
    {
      var vcpkgFolderName := RegistryFolderName(registry);
      var vcpkgRoot := Appending(workspace, vcpkgFolderName);
      var zipFile := Appending(workspace, vcpkgFolderName + ".zip");
      var downloaded := DownloadFile(fm, Release.MakeRegistryURL(registry), zipFile, session);
      if downloaded.Failure? {
        return Failure(downloaded.error);
      }
      var extracted := ExtractWithUnzip(fm, zipFile, workspace, unzip, entries);
      if extracted.Failure? {
        return Failure(extracted.error);
      }
      if !extracted.value {
        return Failure(ExtractFailed);
      }
      return Success(vcpkgRoot);
    }

    /** Downloads the registry archive of `registry` with curl and unzips it into the workspace. */
    method InstallUpstreamWithCurl(curl: Run, archive: seq<bv8>, unzip: Run, entries: map<string, Node>,
                                   registry: string := DefaultRegistryVersion)
      returns (r: Result<FileUrl, Failure>)
      modifies fm
      ensures Step(r, fm.entries) == InstallUpstreamWithCurlStep(old(fm.entries), workspace, registry, curl, archive, unzip, entries)
    {
      var vcpkgFolderName := RegistryFolderName(registry);
      var vcpkgRoot := Appending(workspace, vcpkgFolderName);
      var zipFile := Appending(workspace, vcpkgFolderName + ".zip");
      var downloaded := DownloadFileWithCurl(fm, Release.MakeRegistryURL(registry), zipFile, curl, archive);
      if downloaded.Failure? {
        return Failure(downloaded.error);
      }
      if !downloaded.value {
        return Failure(DownloadFailed);
      }
      var extracted := ExtractWithUnzip(fm, zipFile, workspace, unzip, entries);
      if extracted.Failure? {
        return Failure(extracted.error);
      }
      if !extracted.value {
        return Failure(ExtractFailed);
      }
      return Success(vcpkgRoot);
    }

    /** Downloads the vcpkg-tool binary of `tool` with URLSession to `<vcpkgRoot>/vcpkg`. */
    method InstallTool(vcpkgRoot: FileUrl, session: Session, tool: string := DefaultToolVersion)
      returns (r: Result<FileUrl, Failure>)
      modifies fm
      ensures Step(r, fm.entries) == InstallToolStep(old(fm.entries), vcpkgRoot, tool, session)
    {
      var vcpkgTool := Appending(vcpkgRoot, "vcpkg");
      var downloaded := DownloadFile(fm, Release.MakeToolURL(tool), vcpkgTool, session);
      if downloaded.Failure? {
        return Failure(downloaded.error);
      }
      return Success(vcpkgTool);
    }

    /** Downloads the vcpkg-tool binary of `tool` with curl to `<vcpkgRoot>/vcpkg` and makes it executable. */
    method InstallToolWithCurl(vcpkgRoot: FileUrl, curl: Run, binary: seq<bv8>, tool: string := DefaultToolVersion)
      returns (r: Result<FileUrl, Failure>)
      modifies fm
      ensures Step(r, fm.entries) == InstallToolWithCurlStep(old(fm.entries), vcpkgRoot, tool, curl, binary)
    {
      var vcpkgTool := Appending(vcpkgRoot, "vcpkg");
      var downloaded := DownloadFileWithCurl(fm, Release.MakeToolURL(tool), vcpkgTool, curl, binary);
      if downloaded.Failure? {
        return Failure(downloaded.error);
      }
      if !downloaded.value {
        return Failure(DownloadFailed);
      }
      var err := fm.SetMode(vcpkgTool.path, ExecutableMode);
      assert err.None?;
      return Success(vcpkgTool);
    }

    /** Registry, then tool, each checked to exist, then the tool made executable; returns the registry root. */
    method Install(session: Session, unzip: Run, entries: map<string, Node>,
                   registry: string := DefaultRegistryVersion, tool: string := DefaultToolVersion)
      returns (r: Result<FileUrl, Failure>)
      modifies fm
      ensures Step(r, fm.entries) == InstallStep(old(fm.entries), workspace, registry, tool, session, unzip, entries)
    {
      var upstream := InstallUpstream(session, unzip, entries, registry);
      if upstream.Failure? {
        return upstream;
      }
      var vcpkgRoot := upstream.value;
      if !fm.FileExists(vcpkgRoot.path) {
        return Failure(EntryNotFound);
      }
      var installed := InstallTool(vcpkgRoot, session, tool);
      if installed.Failure? {
        return installed;
      }
      var vcpkgTool := installed.value;
      if !fm.FileExists(vcpkgTool.path) {
        return Failure(EntryNotFound);
      }
      var err := fm.SetMode(vcpkgTool.path, ExecutableMode);
      assert err.None?;
      return Success(vcpkgRoot);
    }
  }
}
