/**
 * Properties of the test helper's bootstrap steps: where each step writes,
 * which error it reports, and that a failed step stops every later one.
 */
module HelperProperties {
  import opened Wrappers
  import opened Paths
  import opened FileSystem
  import opened HelperSteps
  import Release

  /** `q` names the same entry, or no entry, in both states. */
  predicate SameEntry(fs: Fs, fs': Fs, q: string) {
    (q in fs <==> q in fs') && (q in fs ==> fs[q] == fs'[q])
  }

  /**
   * createFolders returns the folder, which exists afterwards; it touches the
   * file system only when that folder is absent, and then only adds entries.
   */
  lemma CreateFoldersResult(fs: Fs, destination: FileUrl)
    ensures var s := CreateFoldersStep(fs, destination);
      && (s.result.Success? ==> s.result.value == FolderOf(destination) && FolderOf(destination).path in s.fs)
      && (FolderOf(destination).path in fs ==> s == Step(Success(FolderOf(destination)), fs))
      && (s.result.Failure? ==> s.result.error == Io(CannotCreateDirectory) && s.fs == fs)
      && (forall k :: k in fs ==> k in s.fs && s.fs[k] == fs[k])
  {
    CreatingDirectoryResult(fs, FolderOf(destination).path);
  }

  /** Calling createFolders a second time changes nothing. */
  lemma CreateFoldersIdempotent(fs: Fs, destination: FileUrl)
    ensures var s := CreateFoldersStep(fs, destination);
      s.result.Success? ==> CreateFoldersStep(s.fs, destination) == s
  {
    CreateFoldersResult(fs, destination);
  }

  /** createFolders never touches a path longer than the folder it creates. */
  lemma CreateFoldersKeepsLonger(fs: Fs, destination: FileUrl, q: string)
    requires |q| > |FolderOf(destination).path|
    ensures SameEntry(fs, CreateFoldersStep(fs, destination).fs, q)
  {
    CreatingDirectoryResult(fs, FolderOf(destination).path);
  }

  /**
   * createFile leaves an empty file `folder/name` with default permissions,
   * or reports EntryNotFound; nothing outside that path changes.
   */
  lemma CreateFileResult(fs: Fs, folder: FileUrl, name: string)
    ensures var s := CreateFileStep(fs, folder, name);
      var f := Join(folder.path, name);
      && (s.result.Success? ==> s.result == Success(FileUrl(f, false)) && f in s.fs && s.fs[f] == File([], DefaultMode))
      && (s.result.Failure? ==> s.result.error == EntryNotFound)
      && (forall q :: q != f && !IsUnder(q, f) ==> SameEntry(fs, s.fs, q))
  {
    var f := Join(folder.path, name);
    var fs1 := if f in fs then Removed(fs, f) else fs;
    assert forall q :: q != f && !IsUnder(q, f) ==> SameEntry(fs, fs1, q);
    var s := CreateFileStep(fs, folder, name);
    assert s.fs == fs1 || s.fs == fs1[f := File([], DefaultMode)];
  }

  lemma SlashAtBoundary(d: string, a: string, jb: string)
    requires |jb| > |d| && |jb| <= |d + a| && (d + a)[..|jb|] == jb && jb[|jb| - 1] == '/'
    ensures a[|jb| - |d| - 1] == '/'
  {
    assert (d + a)[|jb| - 1] == jb[|jb| - 1];
  }

  /** Two different components of one folder are neither equal nor nested. */
  lemma SiblingsApart(dir: string, a: string, b: string)
    requires Component(a) && Component(b) && a != b
    ensures Join(dir, a) != Join(dir, b) && !IsUnder(Join(dir, a), Join(dir, b))
  {
    if Join(dir, a) == Join(dir, b) {
      JoinInjective(dir, a, b);
    }
    var d := DirPrefix(dir);
    var jb := DirPrefix(Join(dir, b));
    assert jb == d + b + "/";
    if IsUnder(Join(dir, a), Join(dir, b)) {
      SlashAtBoundary(d, a, jb);
    }
  }

  /**
   * A download answered with a status other than 200 fails with
   * DownloadFailed (or the earlier folder error) and leaves the destination
   * file exactly as it was.
   */
  lemma DownloadRejectsNon200(fs: Fs, remote: string, destination: FileUrl, session: Session)
    requires session.fetch(remote).Some? && session.fetch(remote).value.status != 200
    requires !destination.isDirectory && |destination.path| > 1 && session.temp != destination.path
    ensures var s := DownloadFileStep(fs, remote, destination, session);
      && s.result.Failure?
      && (s.result == Failure(DownloadFailed) <==> CreateFoldersStep(fs, destination).result.Success?)
      && SameEntry(fs, s.fs, destination.path)
  {
    ParentShorter(destination.path);
    CreateFoldersKeepsLonger(fs, destination, destination.path);
  }

  /** A download that succeeds was answered with 200 and left its body at the destination. */
  lemma DownloadStoresBody(fs: Fs, remote: string, destination: FileUrl, session: Session)
    ensures var s := DownloadFileStep(fs, remote, destination, session);
      s.result.Success? ==>
        && session.fetch(remote).Some? && session.fetch(remote).value.status == 200
        && destination.path in s.fs
        && s.fs[destination.path] == File(session.fetch(remote).value.body, DefaultMode)
  {
  }

  /**
   * The curl download step leaves download.log in the destination's folder
   * and keeps every other entry; its result is true exactly when curl exited
   * with 0, and then the destination is a file holding curl's output.
   */
  lemma DownloadWithCurlResult(fs: Fs, source: string, destination: FileUrl, run: Run, payload: seq<bv8>)
    ensures var s := DownloadFileWithCurlStep(fs, source, destination, run, payload);
      var log := Join(FolderOf(destination).path, DownloadLog);
      && (s.result.Success? ==> log in s.fs && (s.result.value <==> run == Exited(0)))
      && (s.result == Success(true) ==>
            destination.path in s.fs && s.fs[destination.path].File? && s.fs[destination.path].contents == payload)
      && (forall q :: q != log && !IsUnder(q, log) && q in fs ==> q in s.fs)
  {
    var s1 := CreateFoldersStep(fs, destination);
    CreateFoldersResult(fs, destination);
    if s1.result.Success? {
      CreateFileResult(s1.fs, s1.result.value, DownloadLog);
    }
  }

  /**
   * The unzip step leaves extract.log in the destination folder and keeps
   * every other entry; its result is true exactly when unzip exited with 0.
   */
  lemma ExtractWithUnzipResult(fs: Fs, source: FileUrl, destination: FileUrl, run: Run, entries: map<string, Node>)
    ensures var s := ExtractWithUnzipStep(fs, source, destination, run, entries);
      var log := Join(FolderOf(destination).path, ExtractLog);
      && (s.result.Success? ==> log in s.fs && (s.result.value <==> run == Exited(0)))
      && (forall q :: q != log && !IsUnder(q, log) && q in fs ==> q in s.fs)
  {
    var s1 := CreateFoldersStep(fs, destination);
    CreateFoldersResult(fs, destination);
    if s1.result.Success? {
      CreateFileResult(s1.fs, s1.result.value, ExtractLog);
    }
  }

  /** createFolders on a folder that is ready returns it, adding at most that folder. */
  lemma CreateFoldersSucceeds(fs: Fs, destination: FileUrl)
    requires DirectoryReady(fs, FolderOf(destination).path)
    ensures var p := FolderOf(destination);
      CreateFoldersStep(fs, destination) == Step(Success(p), if p.path in fs then fs else fs[p.path := Directory])
  {
    CreatingDirectoryInParent(fs, FolderOf(destination).path);
  }

  /** createFile in an existing directory succeeds and leaves that directory in place. */
  lemma CreateFileSucceeds(fs: Fs, folder: FileUrl, name: string)
    requires Normal(folder.path) && Component(name) && IsDirectory(fs, folder.path)
    ensures var s := CreateFileStep(fs, folder, name);
      s.result == Success(Appending(folder, name)) && IsDirectory(s.fs, folder.path)
  {
    var f := Join(folder.path, name);
    ParentOfJoin(folder.path, name);
    JoinNormal(folder.path, name);
    var fs1 := if f in fs then Removed(fs, f) else fs;
    assert IsDirectory(fs1, folder.path);
  }

  /**
   * A curl download to `dir/name`, with `dir` ready and curl exiting with 0,
   * returns true and leaves `dir` a directory holding the downloaded file.
   */
  lemma CurlDownloadSucceeds(fs: Fs, source: string, dir: string, name: string, payload: seq<bv8>)
    requires Normal(dir) && Component(name) && DirectoryReady(fs, dir)
    ensures var s := DownloadFileWithCurlStep(fs, source, FileUrl(Join(dir, name), false), Exited(0), payload);
      && s.result == Success(true) && IsDirectory(s.fs, dir)
      && Join(dir, name) in s.fs && s.fs[Join(dir, name)].File?
  {
    var destination := FileUrl(Join(dir, name), false);
    ParentOfJoin(dir, name);
    JoinNormal(dir, name);
    assert FolderOf(destination) == FileUrl(dir, true);
    CreateFoldersSucceeds(fs, destination);
    var s1 := CreateFoldersStep(fs, destination);
    CreateFileSucceeds(s1.fs, FileUrl(dir, true), DownloadLog);
  }

  /**
   * A URLSession download to `dir/name`, with `dir` ready, a 200 reply and a
   * temporary file outside `dir`, succeeds and leaves `dir` a directory.
   */
  lemma SessionDownloadSucceeds(fs: Fs, remote: string, dir: string, name: string, session: Session)
    requires Normal(dir) && Component(name) && DirectoryReady(fs, dir)
    requires session.fetch(remote).Some? && session.fetch(remote).value.status == 200
    requires session.temp != dir && !IsUnder(session.temp, dir)
    ensures var s := DownloadFileStep(fs, remote, FileUrl(Join(dir, name), false), session);
      s.result == Success(()) && IsDirectory(s.fs, dir)
  {
    var destination := FileUrl(Join(dir, name), false);
    var f := destination.path;
    ParentOfJoin(dir, name);
    JoinNormal(dir, name);
    assert FolderOf(destination) == FileUrl(dir, true);
    CreateFoldersSucceeds(fs, destination);
    if IsUnder(session.temp, f) {
      IsUnderTransitive(session.temp, f, dir);
    }
    var s1 := CreateFoldersStep(fs, destination);
    var fs2 := s1.fs[session.temp := File(session.fetch(remote).value.body, DefaultMode)];
    var fs3 := if f in fs2 then Removed(fs2, f) else fs2;
    assert session.temp in fs3 && f !in fs3 && IsDirectory(fs3, dir);
  }

  /** Every archive entry lands at its path under the destination. */
  lemma UnpackedPlaces(fs: Fs, dest: string, entries: map<string, Node>)
    ensures forall rel :: rel in entries ==>
      Join(dest, rel) in Unpacked(fs, dest, entries) && Unpacked(fs, dest, entries)[Join(dest, rel)] == entries[rel]
  {
    JoinInjectiveEverywhere(dest);
  }

  /** unzip into a ready directory, exiting with 0, returns true and places every archive entry under it. */
  lemma ExtractSucceeds(fs: Fs, source: FileUrl, destination: FileUrl, entries: map<string, Node>)
    requires Normal(destination.path) && destination.isDirectory && DirectoryReady(fs, destination.path)
    ensures var s := ExtractWithUnzipStep(fs, source, destination, Exited(0), entries);
      && s.result == Success(true)
      && (forall rel :: rel in entries ==> Join(destination.path, rel) in s.fs && s.fs[Join(destination.path, rel)] == entries[rel])
  {
    CreateFoldersSucceeds(fs, destination);
    var s1 := CreateFoldersStep(fs, destination);
    CreateFileSucceeds(s1.fs, destination, ExtractLog);
    var s2 := CreateFileStep(s1.fs, destination, ExtractLog);
    UnpackedPlaces(s2.fs, destination.path, entries);
  }

  /**
   * URLSession variant of the registry bootstrap: success means the archive
   * came with status 200, unzip exited with 0, and the result is `<workspace>/vcpkg-<tag>`.
   */
  lemma UpstreamSuccess(fs: Fs, workspace: FileUrl, tag: string, session: Session,
                        unzip: Run, entries: map<string, Node>)
    ensures var s := InstallUpstreamStep(fs, workspace, tag, session, unzip, entries);
      s.result.Success? ==>
        && s.result.value == FileUrl(Join(workspace.path, "vcpkg-" + tag), false)
        && session.fetch(Release.MakeRegistryURL(tag)).Some?
        && session.fetch(Release.MakeRegistryURL(tag)).value.status == 200
        && unzip == Exited(0)
  {
    var zipFile := Appending(workspace, ArchiveName(tag));
    DownloadStoresBody(fs, Release.MakeRegistryURL(tag), zipFile, session);
    var d := DownloadFileStep(fs, Release.MakeRegistryURL(tag), zipFile, session);
    if d.result.Success? {
      ExtractWithUnzipResult(d.fs, zipFile, workspace, unzip, entries);
    }
  }

  /**
   * URLSession variant of the tool bootstrap: success means the binary came
   * with status 200 and now sits at `<root>/vcpkg`.
   */
  lemma ToolSuccess(fs: Fs, vcpkgRoot: FileUrl, tag: string, session: Session)
    ensures var s := InstallToolStep(fs, vcpkgRoot, tag, session);
      var tool := Join(vcpkgRoot.path, "vcpkg");
      s.result.Success? ==>
        && s.result.value == FileUrl(tool, false)
        && session.fetch(Release.MakeToolURL(tag)).Some?
        && session.fetch(Release.MakeToolURL(tag)).value.status == 200
        && tool in s.fs
        && s.fs[tool] == File(session.fetch(Release.MakeToolURL(tag)).value.body, DefaultMode)
  {
    DownloadStoresBody(fs, Release.MakeToolURL(tag), Appending(vcpkgRoot, "vcpkg"), session);
  }

  /** The workspace layout: archive, logs and registry root are distinct entries directly in the workspace. */
  lemma WorkspaceLayout(workspace: FileUrl, tag: string)
    requires Normal(workspace.path) && '/' !in tag
    ensures FolderOf(Appending(workspace, ArchiveName(tag))) == FileUrl(workspace.path, true)
    ensures Component(ArchiveName(tag)) && Component(RegistryFolderName(tag))
    ensures Component(DownloadLog) && Component(ExtractLog)
    ensures |Join(workspace.path, ExtractLog)| > |workspace.path|
    ensures Join(workspace.path, ExtractLog) != Join(workspace.path, DownloadLog)
    ensures !IsUnder(Join(workspace.path, ExtractLog), Join(workspace.path, DownloadLog))
    ensures !IsUnder(Join(workspace.path, DownloadLog), Join(workspace.path, ExtractLog))
  {
    assert ArchiveName(tag) == "vcpkg-" + tag + ".zip";
    assert RegistryFolderName(tag) == "vcpkg-" + tag;
    ParentOfJoin(workspace.path, ArchiveName(tag));
    JoinNormal(workspace.path, ExtractLog);
    SiblingsApart(workspace.path, ExtractLog, DownloadLog);
    SiblingsApart(workspace.path, DownloadLog, ExtractLog);
  }

  /**
   * curl variant of the registry bootstrap: when curl does not exit with 0
   * the bootstrap fails (with DownloadFailed once curl ran), extraction never
   * starts, and the workspace's extract.log is left as it was.
   */
  lemma UpstreamWithCurlStopsOnDownloadFailure(fs: Fs, workspace: FileUrl, tag: string, curl: Run, archive: seq<bv8>,
                                               unzip: Run, entries: map<string, Node>)
    requires Normal(workspace.path) && '/' !in tag && curl != Exited(0)
    ensures var s := InstallUpstreamWithCurlStep(fs, workspace, tag, curl, archive, unzip, entries);
      var d := DownloadFileWithCurlStep(fs, Release.MakeRegistryURL(tag), Appending(workspace, ArchiveName(tag)), curl, archive);
      && s.result.Failure? && s.result.error != ExtractFailed && s.fs == d.fs
      && (curl.Exited? && d.result.Success? ==> s.result.error == DownloadFailed)
      && SameEntry(fs, s.fs, Join(workspace.path, ExtractLog))
  {
    var zipFile := Appending(workspace, ArchiveName(tag));
    WorkspaceLayout(workspace, tag);
    var q := Join(workspace.path, ExtractLog);
    CreateFoldersKeepsLonger(fs, zipFile, q);
    var s1 := CreateFoldersStep(fs, zipFile);
    if s1.result.Success? {
      CreateFoldersResult(fs, zipFile);
      CreateFileResult(s1.fs, s1.result.value, DownloadLog);
    }
  }

  /**
   * curl variant of the registry bootstrap: success means curl and unzip
   * both exited with 0, the result is `<workspace>/vcpkg-<tag>`, and both logs
   * are in the workspace.
   */
  lemma UpstreamWithCurlSuccess(fs: Fs, workspace: FileUrl, tag: string, curl: Run, archive: seq<bv8>,
                                unzip: Run, entries: map<string, Node>)
    requires Normal(workspace.path) && workspace.isDirectory && '/' !in tag
    ensures var s := InstallUpstreamWithCurlStep(fs, workspace, tag, curl, archive, unzip, entries);
      s.result.Success? ==>
        && curl == Exited(0) && unzip == Exited(0)
        && s.result.value == FileUrl(Join(workspace.path, "vcpkg-" + tag), false)
        && Join(workspace.path, DownloadLog) in s.fs
        && Join(workspace.path, ExtractLog) in s.fs
  {
    var zipFile := Appending(workspace, ArchiveName(tag));
    WorkspaceLayout(workspace, tag);
    var d := DownloadFileWithCurlStep(fs, Release.MakeRegistryURL(tag), zipFile, curl, archive);
    DownloadWithCurlResult(fs, Release.MakeRegistryURL(tag), zipFile, curl, archive);
    var s := InstallUpstreamWithCurlStep(fs, workspace, tag, curl, archive, unzip, entries);
    if s.result.Success? {
      assert d.result == Success(true);
      var e := ExtractWithUnzipStep(d.fs, zipFile, workspace, unzip, entries);
      ExtractWithUnzipResult(d.fs, zipFile, workspace, unzip, entries);
      assert s.fs == e.fs && e.result == Success(true);
      assert FolderOf(workspace) == workspace;
    }
  }


  /**
   * URLSession variant of the registry bootstrap: a reply other than 200
   * fails the bootstrap (with DownloadFailed once the folder exists) and no
   * extract.log is written.
   */
  lemma UpstreamRejectsNon200(fs: Fs, workspace: FileUrl, tag: string, session: Session,
                              unzip: Run, entries: map<string, Node>)
    requires Normal(workspace.path) && '/' !in tag
    requires session.fetch(Release.MakeRegistryURL(tag)).Some?
    requires session.fetch(Release.MakeRegistryURL(tag)).value.status != 200
    requires session.temp != Join(workspace.path, ExtractLog)
    ensures var s := InstallUpstreamStep(fs, workspace, tag, session, unzip, entries);
      var zipFile := Appending(workspace, ArchiveName(tag));
      && s.result.Failure? && s.result.error != ExtractFailed
      && (CreateFoldersStep(fs, zipFile).result.Success? ==> s.result.error == DownloadFailed)
      && SameEntry(fs, s.fs, Join(workspace.path, ExtractLog))
  {
    var zipFile := Appending(workspace, ArchiveName(tag));
    WorkspaceLayout(workspace, tag);
    CreateFoldersKeepsLonger(fs, zipFile, Join(workspace.path, ExtractLog));
  }

  /** The tool layout: `<root>/vcpkg` lies directly in the root, apart from `<root>/download.log`. */
  lemma ToolLayout(vcpkgRoot: FileUrl)
    requires Normal(vcpkgRoot.path)
    ensures FolderOf(Appending(vcpkgRoot, "vcpkg")) == FileUrl(vcpkgRoot.path, true)
    ensures |Join(vcpkgRoot.path, "vcpkg")| > |vcpkgRoot.path|
    ensures Join(vcpkgRoot.path, "vcpkg") != Join(vcpkgRoot.path, DownloadLog)
    ensures !IsUnder(Join(vcpkgRoot.path, "vcpkg"), Join(vcpkgRoot.path, DownloadLog))
  {
    ParentOfJoin(vcpkgRoot.path, "vcpkg");
    JoinNormal(vcpkgRoot.path, "vcpkg");
    SiblingsApart(vcpkgRoot.path, "vcpkg", DownloadLog);
  }

  /**
   * curl variant of the tool bootstrap: success means curl exited with 0,
   * the result is `<root>/vcpkg` holding the downloaded binary with mode
   * 0o755, and download.log is in the root.
   */
  lemma ToolWithCurlSuccess(fs: Fs, vcpkgRoot: FileUrl, tag: string, curl: Run, binary: seq<bv8>)
    requires Normal(vcpkgRoot.path)
    ensures var s := InstallToolWithCurlStep(fs, vcpkgRoot, tag, curl, binary);
      var tool := Join(vcpkgRoot.path, "vcpkg");
      s.result.Success? ==>
        && curl == Exited(0) && s.result.value == FileUrl(tool, false)
        && tool in s.fs && s.fs[tool] == File(binary, ExecutableMode)
        && Join(vcpkgRoot.path, DownloadLog) in s.fs
  {
    var vcpkgTool := Appending(vcpkgRoot, "vcpkg");
    DownloadWithCurlResult(fs, Release.MakeToolURL(tag), vcpkgTool, curl, binary);
    ToolLayout(vcpkgRoot);
  }



  /**
   * curl variant of the tool bootstrap: when curl does not exit with 0 it
   * fails, with DownloadFailed once curl ran after the folder and log were
   * created, and the binary's entry is left as it was.
   */
  lemma ToolWithCurlFailure(fs: Fs, vcpkgRoot: FileUrl, tag: string, curl: Run, binary: seq<bv8>)
    requires Normal(vcpkgRoot.path) && curl != Exited(0)
    ensures var s := InstallToolWithCurlStep(fs, vcpkgRoot, tag, curl, binary);
      && s.result.Failure? && SameEntry(fs, s.fs, Join(vcpkgRoot.path, "vcpkg"))
      && (var s1 := CreateFoldersStep(fs, Appending(vcpkgRoot, "vcpkg"));
          s1.result.Success? && CreateFileStep(s1.fs, s1.result.value, DownloadLog).result.Success? && curl.Exited? ==>
            s.result == Failure(DownloadFailed))
  {
    var vcpkgTool := Appending(vcpkgRoot, "vcpkg");
    var tool := vcpkgTool.path;
    ToolLayout(vcpkgRoot);
    CreateFoldersKeepsLonger(fs, vcpkgTool, tool);
    var s1 := CreateFoldersStep(fs, vcpkgTool);
    if s1.result.Success? {
      CreateFoldersResult(fs, vcpkgTool);
      CreateFileResult(s1.fs, s1.result.value, DownloadLog);
    }
  }



  lemma DownloadNeverExtractFailed(fs: Fs, remote: string, destination: FileUrl, session: Session)
    ensures DownloadFileStep(fs, remote, destination, session).result != Failure(ExtractFailed)
  {
  }

  lemma CurlNeverExtractFailed(fs: Fs, source: string, destination: FileUrl, run: Run, payload: seq<bv8>)
    ensures DownloadFileWithCurlStep(fs, source, destination, run, payload).result != Failure(ExtractFailed)
  {
  }

  lemma ExtractNeverExtractFailed(fs: Fs, source: FileUrl, destination: FileUrl, run: Run, entries: map<string, Node>)
    ensures ExtractWithUnzipStep(fs, source, destination, run, entries).result != Failure(ExtractFailed)
  {
  }

  /**
   * URLSession variant of the registry bootstrap: it fails with ExtractFailed
   * exactly when the download succeeded and unzip ran but did not exit with 0.
   */
  lemma UpstreamExtractFailed(fs: Fs, workspace: FileUrl, tag: string, session: Session,
                              unzip: Run, entries: map<string, Node>)
    ensures var zipFile := Appending(workspace, ArchiveName(tag));
      var d := DownloadFileStep(fs, Release.MakeRegistryURL(tag), zipFile, session);
      var e := ExtractWithUnzipStep(d.fs, zipFile, workspace, unzip, entries);
      (InstallUpstreamStep(fs, workspace, tag, session, unzip, entries).result == Failure(ExtractFailed)
       <==> d.result.Success? && e.result == Success(false))
  {
    var zipFile := Appending(workspace, ArchiveName(tag));
    DownloadNeverExtractFailed(fs, Release.MakeRegistryURL(tag), zipFile, session);
    var d := DownloadFileStep(fs, Release.MakeRegistryURL(tag), zipFile, session);
    if d.result.Success? {
      ExtractNeverExtractFailed(d.fs, zipFile, workspace, unzip, entries);
    }
  }

  /**
   * curl variant of the registry bootstrap: it fails with ExtractFailed
   * exactly when curl succeeded and unzip ran but did not exit with 0.
   */
  lemma UpstreamWithCurlExtractFailed(fs: Fs, workspace: FileUrl, tag: string, curl: Run, archive: seq<bv8>,
                                      unzip: Run, entries: map<string, Node>)
    ensures var zipFile := Appending(workspace, ArchiveName(tag));
      var d := DownloadFileWithCurlStep(fs, Release.MakeRegistryURL(tag), zipFile, curl, archive);
      var e := ExtractWithUnzipStep(d.fs, zipFile, workspace, unzip, entries);
      (InstallUpstreamWithCurlStep(fs, workspace, tag, curl, archive, unzip, entries).result == Failure(ExtractFailed)
       <==> d.result == Success(true) && e.result == Success(false))
  {
    var zipFile := Appending(workspace, ArchiveName(tag));
    CurlNeverExtractFailed(fs, Release.MakeRegistryURL(tag), zipFile, curl, archive);
    var d := DownloadFileWithCurlStep(fs, Release.MakeRegistryURL(tag), zipFile, curl, archive);
    if d.result == Success(true) {
      ExtractNeverExtractFailed(d.fs, zipFile, workspace, unzip, entries);
    }
  }

  /** The default tags: registry 2025.04.09 in `vcpkg-2025.04.09`, tool 2025-04-16. */
  lemma DefaultReleases(workspace: FileUrl)
    ensures RegistryFolderName(DefaultRegistryVersion) == "vcpkg-2025.04.09"
    ensures Appending(workspace, RegistryFolderName(DefaultRegistryVersion)).path
         == Join(workspace.path, "vcpkg-2025.04.09")
    ensures ArchiveName(DefaultRegistryVersion) == "vcpkg-2025.04.09.zip"
    ensures Release.RegistryTag(Release.MakeRegistryURL(DefaultRegistryVersion)) == Some("2025.04.09")
    ensures Release.ToolTag(Release.MakeToolURL(DefaultToolVersion)) == Some("2025-04-16")
  {
    Release.RegistryTagRoundTrip(DefaultRegistryVersion);
    Release.ToolTagRoundTrip(DefaultToolVersion);
  }

  /**
   * overwrite leaves at `dest` the entry `src` had, or fails with CannotCopy;
   * entries outside `dest` and its subtree are untouched.
   */
  lemma OverwriteResult(fs: Fs, src: FileUrl, dest: FileUrl)
    ensures var s := OverwriteStep(fs, src, dest);
      && (s.result.Success? ==> src.path in fs && dest.path in s.fs && s.fs[dest.path] == fs[src.path])
      && (s.result.Failure? ==> s.result.error == Io(CannotCopy))
      && (forall q :: q != dest.path && !IsUnder(q, dest.path) ==> SameEntry(fs, s.fs, q))
  {
  }

  /** The bootstrap runs its steps in order and stops at the first one that fails. */
  lemma InstallStopsAtFirstFailure(fs: Fs, workspace: FileUrl, registry: string, tool: string, session: Session,
                                   unzip: Run, entries: map<string, Node>)
    ensures var u := InstallUpstreamStep(fs, workspace, registry, session, unzip, entries);
      var s := InstallStep(fs, workspace, registry, tool, session, unzip, entries);
      && (u.result.Failure? ==> s == u)
      && (u.result.Success? && u.result.value.path !in u.fs ==> s == Step(Failure(EntryNotFound), u.fs))
      && (u.result.Success? && u.result.value.path in u.fs ==>
            var t := InstallToolStep(u.fs, u.result.value, tool, session);
            t.result.Failure? ==> s == t)
  {
  }

  /**
   * A successful bootstrap downloaded the registry archive and the tool
   * binary with status 200, unzipped with status 0, and returns
   * `<workspace>/vcpkg-<tag>`, whose `vcpkg` entry is the tool binary with mode 0o755.
   */
  lemma InstallSuccess(fs: Fs, workspace: FileUrl, registry: string, tool: string, session: Session,
                       unzip: Run, entries: map<string, Node>)
    ensures var s := InstallStep(fs, workspace, registry, tool, session, unzip, entries);
      var root := Join(workspace.path, "vcpkg-" + registry);
      var binary := Join(root, "vcpkg");
      s.result.Success? ==>
        && s.result.value == FileUrl(root, false)
        && session.fetch(Release.MakeRegistryURL(registry)).Some?
        && session.fetch(Release.MakeRegistryURL(registry)).value.status == 200
        && unzip == Exited(0)
        && session.fetch(Release.MakeToolURL(tool)).Some?
        && session.fetch(Release.MakeToolURL(tool)).value.status == 200
        && binary in s.fs
        && s.fs[binary] == File(session.fetch(Release.MakeToolURL(tool)).value.body, ExecutableMode)
  {
    var u := InstallUpstreamStep(fs, workspace, registry, session, unzip, entries);
    UpstreamSuccess(fs, workspace, registry, session, unzip, entries);
    if u.result.Success? && u.result.value.path in u.fs {
      ToolSuccess(u.fs, u.result.value, tool, session);
    }
  }

  /**
   * The curl registry bootstrap succeeds when the workspace is ready and curl
   * and unzip both exit with 0; the archive's `vcpkg-<tag>` entry is then unpacked
   * in the workspace.
   */
  lemma UpstreamWithCurlSucceeds(fs: Fs, workspace: FileUrl, tag: string, archive: seq<bv8>, entries: map<string, Node>)
    requires Normal(workspace.path) && workspace.isDirectory && '/' !in tag && DirectoryReady(fs, workspace.path)
    ensures var s := InstallUpstreamWithCurlStep(fs, workspace, tag, Exited(0), archive, Exited(0), entries);
      var root := Join(workspace.path, "vcpkg-" + tag);
      && s.result == Success(FileUrl(root, false))
      && ("vcpkg-" + tag in entries ==> root in s.fs && s.fs[root] == entries["vcpkg-" + tag])
  {
    WorkspaceLayout(workspace, tag);
    var zipFile := Appending(workspace, ArchiveName(tag));
    CurlDownloadSucceeds(fs, Release.MakeRegistryURL(tag), workspace.path, ArchiveName(tag), archive);
    var d := DownloadFileWithCurlStep(fs, Release.MakeRegistryURL(tag), zipFile, Exited(0), archive);
    ExtractSucceeds(d.fs, zipFile, workspace, entries);
  }

  /**
   * The URLSession registry bootstrap succeeds when the workspace is ready,
   * the archive comes with status 200, URLSession's temporary file lies
   * outside the workspace, and unzip exits with 0.
   */
  lemma UpstreamSucceeds(fs: Fs, workspace: FileUrl, tag: string, session: Session, entries: map<string, Node>)
    requires Normal(workspace.path) && workspace.isDirectory && '/' !in tag && DirectoryReady(fs, workspace.path)
    requires session.fetch(Release.MakeRegistryURL(tag)).Some?
    requires session.fetch(Release.MakeRegistryURL(tag)).value.status == 200
    requires session.temp != workspace.path && !IsUnder(session.temp, workspace.path)
    ensures var s := InstallUpstreamStep(fs, workspace, tag, session, Exited(0), entries);
      var root := Join(workspace.path, "vcpkg-" + tag);
      && s.result == Success(FileUrl(root, false))
      && ("vcpkg-" + tag in entries ==> root in s.fs && s.fs[root] == entries["vcpkg-" + tag])
  {
    WorkspaceLayout(workspace, tag);
    var zipFile := Appending(workspace, ArchiveName(tag));
    SessionDownloadSucceeds(fs, Release.MakeRegistryURL(tag), workspace.path, ArchiveName(tag), session);
    var d := DownloadFileStep(fs, Release.MakeRegistryURL(tag), zipFile, session);
    ExtractSucceeds(d.fs, zipFile, workspace, entries);
  }

  /** The curl tool bootstrap succeeds when the root is ready and curl exits with 0. */
  lemma ToolWithCurlSucceeds(fs: Fs, vcpkgRoot: FileUrl, tag: string, binary: seq<bv8>)
    requires Normal(vcpkgRoot.path) && DirectoryReady(fs, vcpkgRoot.path)
    ensures var s := InstallToolWithCurlStep(fs, vcpkgRoot, tag, Exited(0), binary);
      var tool := Join(vcpkgRoot.path, "vcpkg");
      s.result == Success(FileUrl(tool, false)) && tool in s.fs
  {
    CurlDownloadSucceeds(fs, Release.MakeToolURL(tag), vcpkgRoot.path, "vcpkg", binary);
  }

  /**
   * The URLSession tool bootstrap succeeds when the root is ready, the binary
   * comes with status 200 and the temporary file lies outside the root.
   */
  lemma ToolSucceeds(fs: Fs, vcpkgRoot: FileUrl, tag: string, session: Session)
    requires Normal(vcpkgRoot.path) && DirectoryReady(fs, vcpkgRoot.path)
    requires session.fetch(Release.MakeToolURL(tag)).Some?
    requires session.fetch(Release.MakeToolURL(tag)).value.status == 200
    requires session.temp != vcpkgRoot.path && !IsUnder(session.temp, vcpkgRoot.path)
    ensures var s := InstallToolStep(fs, vcpkgRoot, tag, session);
      var tool := Join(vcpkgRoot.path, "vcpkg");
      s.result == Success(FileUrl(tool, false)) && tool in s.fs && s.fs[tool].File?
  {
    SessionDownloadSucceeds(fs, Release.MakeToolURL(tag), vcpkgRoot.path, "vcpkg", session);
    DownloadStoresBody(fs, Release.MakeToolURL(tag), Appending(vcpkgRoot, "vcpkg"), session);
  }

  /**
   * The whole bootstrap succeeds, returning `<workspace>/vcpkg-<tag>`, when the
   * workspace is ready, both downloads come with status 200, the temporary
   * file lies outside the workspace, unzip exits with 0 and the archive
   * unpacks `vcpkg-<tag>` as a directory.
   */
  lemma InstallSucceeds(fs: Fs, workspace: FileUrl, registry: string, tool: string, session: Session,
                        entries: map<string, Node>)
    requires Normal(workspace.path) && workspace.isDirectory && '/' !in registry && DirectoryReady(fs, workspace.path)
    requires session.fetch(Release.MakeRegistryURL(registry)).Some?
    requires session.fetch(Release.MakeRegistryURL(registry)).value.status == 200
    requires session.fetch(Release.MakeToolURL(tool)).Some?
    requires session.fetch(Release.MakeToolURL(tool)).value.status == 200
    requires session.temp != workspace.path && !IsUnder(session.temp, workspace.path)
    requires "vcpkg-" + registry in entries && entries["vcpkg-" + registry] == Directory
    ensures InstallStep(fs, workspace, registry, tool, session, Exited(0), entries).result
         == Success(FileUrl(Join(workspace.path, "vcpkg-" + registry), false))
  {
    var root := FileUrl(Join(workspace.path, "vcpkg-" + registry), false);
    UpstreamSucceeds(fs, workspace, registry, session, entries);
    var u := InstallUpstreamStep(fs, workspace, registry, session, Exited(0), entries);
    WorkspaceLayout(workspace, registry);
    JoinNormal(workspace.path, RegistryFolderName(registry));
    if IsUnder(session.temp, root.path) {
      IsUnderTransitive(session.temp, root.path, workspace.path);
    }
    ToolSucceeds(u.fs, root, tool, session);
  }
}
