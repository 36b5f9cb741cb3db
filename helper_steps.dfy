/**
 * What each step of the test helper's eager bootstrap does to the file
 * system, as functions from the old state to a `Step`: the value returned or
 * the error thrown, and the new state. The network and the curl/unzip
 * processes are oracles supplied by the caller.
 */
module HelperSteps {
  import opened Wrappers
  import opened Paths
  import opened FileSystem
  import Release

  const DefaultRegistryVersion: string := "2025.04.09"
  const DefaultToolVersion: string := "2025-04-16"

  /** POSIX permission bits 0o755. */
  const ExecutableMode: int := 493

  const DownloadLog: string := "download.log"
  const ExtractLog: string := "extract.log"

  /** `VcpkgHelperError`, plus the Foundation errors the helper lets propagate. */
  datatype Failure = DownloadFailed | ExtractFailed | EntryNotFound | Io(cause: IoError)

  /** The outcome of a step: a result or thrown error, and the file system afterwards. */
  datatype Step<T> = Step(result: Result<T, Failure>, fs: Fs)

  /** An HTTP response: its status code and the body that was saved. */
  datatype Reply = Reply(status: int, body: seq<bv8>)

  /**
   * URLSession: the reply each URL yields (None when the transfer throws)
   * and the temporary file it saves a download into.
   */
  datatype Session = Session(fetch: string -> Option<Reply>, temp: string)

  /** An external process run: it could not be launched, or it exited with a status. */
  datatype Run = CannotLaunch | Exited(status: int)

  /** The folder the registry archive of `tag` unpacks to. */
  function RegistryFolderName(tag: string): string {
    "vcpkg-" + tag
  }

  /** The registry archive's file name. */
  function ArchiveName(tag: string): string {
    RegistryFolderName(tag) + ".zip"
  }

  /** The folder `createFolders` works on: the destination itself for a directory URL, otherwise its parent. */
  function FolderOf(destination: FileUrl): FileUrl {
    if destination.isDirectory then destination else DeletingLastPathComponent(destination)
  }

  /** The folder of the destination, created if absent. */
  function CreateFoldersStep(fs: Fs, destination: FileUrl): Step<FileUrl> {
    var p := FolderOf(destination);
    if p.path in fs then Step(Success(p), fs)
    else match CreatingDirectory(fs, p.path)
      case Success(fs') => Step(Success(p), fs')
      case Failure(e) => Step(Failure(Io(e)), fs)
  }

  /** An empty file `folder/name`, replacing whatever was there; EntryNotFound when it cannot be created. */
  function CreateFileStep(fs: Fs, folder: FileUrl, name: string): Step<FileUrl> {
    var f := Appending(folder, name);
    var fs1 := if f.path in fs then Removed(fs, f.path) else fs;
    match CreatingFile(fs1, f.path)
    case None => Step(Failure(EntryNotFound), fs1)
    case Some(fs2) => Step(Success(f), fs2)
  }

  /** `dest` replaced by a copy of `src`. */
  function OverwriteStep(fs: Fs, src: FileUrl, dest: FileUrl): Step<()> {
    var fs1 := if dest.path in fs then Removed(fs, dest.path) else fs;
    match Copying(fs1, src.path, dest.path)
    case Failure(e) => Step(Failure(Io(e)), fs1)
    case Success(fs2) => Step(Success(()), fs2)
  }

  /** URLSession download of `remote` into `destination`; any status but 200 is DownloadFailed. */
  function DownloadFileStep(fs: Fs, remote: string, destination: FileUrl, session: Session): Step<()> {
    var s1 := CreateFoldersStep(fs, destination);
    if s1.result.Failure? then Step(Failure(s1.result.error), s1.fs)
    else match session.fetch(remote)
      case None => Step(Failure(Io(TransportError)), s1.fs)
      case Some(reply) =>
        var fs2 := s1.fs[session.temp := File(reply.body, DefaultMode)];
        if reply.status != 200 then Step(Failure(DownloadFailed), fs2)
        else OverwriteStep(fs2, FileUrl(session.temp, false), destination)
  }

  /**
   * curl download of `source` into `destination`, logging to `download.log`
   * beside it; true exactly when curl exits with status 0, in which case the
   * destination holds `payload`.
   */
  function DownloadFileWithCurlStep(fs: Fs, source: string, destination: FileUrl, run: Run, payload: seq<bv8>): Step<bool> {
    var s1 := CreateFoldersStep(fs, destination);
    if s1.result.Failure? then Step(Failure(s1.result.error), s1.fs)
    else
      var s2 := CreateFileStep(s1.fs, s1.result.value, DownloadLog);
      if s2.result.Failure? then Step(Failure(s2.result.error), s2.fs)
      else match run
        case CannotLaunch => Step(Failure(Io(LaunchFailed)), s2.fs)
        case Exited(status) =>
          Step(Success(status == 0), if status == 0 then Written(s2.fs, destination.path, payload) else s2.fs)
  }

  /**
   * unzip of `source` into `destination`, logging to `extract.log` there;
   * true exactly when unzip exits with status 0, in which case the archive's
   * `entries` are placed under the destination.
   */
  function ExtractWithUnzipStep(fs: Fs, source: FileUrl, destination: FileUrl, run: Run, entries: map<string, Node>): Step<bool> {
    var s1 := CreateFoldersStep(fs, destination);
    if s1.result.Failure? then Step(Failure(s1.result.error), s1.fs)
    else
      var s2 := CreateFileStep(s1.fs, s1.result.value, ExtractLog);
      if s2.result.Failure? then Step(Failure(s2.result.error), s2.fs)
      else match run
        case CannotLaunch => Step(Failure(Io(LaunchFailed)), s2.fs)
        case Exited(status) =>
          Step(Success(status == 0), if status == 0 then Unpacked(s2.fs, destination.path, entries) else s2.fs)
  }

  /** Registry bootstrap with URLSession: download the archive, unzip it into the workspace, return its root. */
  function InstallUpstreamStep(fs: Fs, workspace: FileUrl, registry: string, session: Session,
                               unzip: Run, entries: map<string, Node>): Step<FileUrl> {
    var root := Appending(workspace, RegistryFolderName(registry));
    var zipFile := Appending(workspace, ArchiveName(registry));
    var s1 := DownloadFileStep(fs, Release.MakeRegistryURL(registry), zipFile, session);
    if s1.result.Failure? then Step(Failure(s1.result.error), s1.fs)
    else
      var s2 := ExtractWithUnzipStep(s1.fs, zipFile, workspace, unzip, entries);
      if s2.result.Failure? then Step(Failure(s2.result.error), s2.fs)
      else if !s2.result.value then Step(Failure(ExtractFailed), s2.fs)
      else Step(Success(root), s2.fs)
  }

  /** Registry bootstrap with curl: as above, with curl's exit status deciding DownloadFailed. */
  function InstallUpstreamWithCurlStep(fs: Fs, workspace: FileUrl, registry: string, curl: Run, archive: seq<bv8>,
                                       unzip: Run, entries: map<string, Node>): Step<FileUrl> {
    var root := Appending(workspace, RegistryFolderName(registry));
    var zipFile := Appending(workspace, ArchiveName(registry));
    var s1 := DownloadFileWithCurlStep(fs, Release.MakeRegistryURL(registry), zipFile, curl, archive);
    if s1.result.Failure? then Step(Failure(s1.result.error), s1.fs)
    else if !s1.result.value then Step(Failure(DownloadFailed), s1.fs)
    else
      var s2 := ExtractWithUnzipStep(s1.fs, zipFile, workspace, unzip, entries);
      if s2.result.Failure? then Step(Failure(s2.result.error), s2.fs)
      else if !s2.result.value then Step(Failure(ExtractFailed), s2.fs)
      else Step(Success(root), s2.fs)
  }

  /** Tool bootstrap with URLSession: the binary downloaded to `<root>/vcpkg`. */
  function InstallToolStep(fs: Fs, vcpkgRoot: FileUrl, tool: string, session: Session): Step<FileUrl> {
    var vcpkgTool := Appending(vcpkgRoot, "vcpkg");
    var s := DownloadFileStep(fs, Release.MakeToolURL(tool), vcpkgTool, session);
    if s.result.Failure? then Step(Failure(s.result.error), s.fs)
    else Step(Success(vcpkgTool), s.fs)
  }

  /** Tool bootstrap with curl: the binary downloaded to `<root>/vcpkg` and made executable. */
  function InstallToolWithCurlStep(fs: Fs, vcpkgRoot: FileUrl, tool: string, curl: Run, binary: seq<bv8>): Step<FileUrl> {
    var vcpkgTool := Appending(vcpkgRoot, "vcpkg");
    var s := DownloadFileWithCurlStep(fs, Release.MakeToolURL(tool), vcpkgTool, curl, binary);
    if s.result.Failure? then Step(Failure(s.result.error), s.fs)
    else if !s.result.value then Step(Failure(DownloadFailed), s.fs)
    else match SettingMode(s.fs, vcpkgTool.path, ExecutableMode)
      case Failure(e) => Step(Failure(Io(e)), s.fs)
      case Success(fs') => Step(Success(vcpkgTool), fs')
  }

  /**
   * The whole bootstrap: registry, a check that its root exists, tool, a check
   * that the binary exists, the binary made executable; returns the root.
   */
  function InstallStep(fs: Fs, workspace: FileUrl, registry: string, tool: string, session: Session,
                       unzip: Run, entries: map<string, Node>): Step<FileUrl> {
    var s1 := InstallUpstreamStep(fs, workspace, registry, session, unzip, entries);
    if s1.result.Failure? then s1
    else
      var vcpkgRoot := s1.result.value;
      if vcpkgRoot.path !in s1.fs then Step(Failure(EntryNotFound), s1.fs)
      else
        var s2 := InstallToolStep(s1.fs, vcpkgRoot, tool, session);
        if s2.result.Failure? then s2
        else
          var vcpkgTool := s2.result.value;
          if vcpkgTool.path !in s2.fs then Step(Failure(EntryNotFound), s2.fs)
          else match SettingMode(s2.fs, vcpkgTool.path, ExecutableMode)
            case Failure(e) => Step(Failure(Io(e)), s2.fs)
            case Success(fs') => Step(Success(vcpkgRoot), fs')
  }
}
