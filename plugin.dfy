/**
 * The build-tool plugin: locating a vcpkg installation from the environment,
 * the `vcpkg --version` and `vcpkg install` descriptors, and the two entry
 * points (Swift package and Xcode project) that return them in order.
 */
module Plugin {
  import opened Wrappers
  import opened Paths
  import opened Commands

  /**
   * What the plugin reads from its host process: the environment, the
   * current directory, whether a path exists, and what Foundation reports as
   * the `baseURL` of `URL(fileURLWithPath:)` for a path (None when it has none).
   */
  datatype Host = Host(
    environment: map<string, string>,
    currentDirectory: string,
    fileExists: string -> bool,
    baseUrl: string -> Option<FileUrl>)

  /** The plugin context's answer to `tool(named: "vcpkg")` failing. */
  datatype PluginError = ToolNotFound

  /** Swift's `split(separator:)`: the non-empty pieces between separators, in order. */
  function Split(s: string, sep: char): (pieces: seq<string>)
    ensures forall i :: 0 <= i < |pieces| ==> pieces[i] != "" && sep !in pieces[i]
    decreases |s|
  {
    match IndexOf(s, sep)
    case None => if s == "" then [] else [s]
    case Some(i) => (if i == 0 then [] else [s[..i]]) + Split(s[i + 1..], sep)
  }

  /** The pieces written back with one separator between neighbours. */
  function JoinWith(pieces: seq<string>, sep: char): string {
    if |pieces| == 0 then "" else if |pieces| == 1 then pieces[0]
    else pieces[0] + [sep] + JoinWith(pieces[1..], sep)
  }

  /** Splitting distributes over a separator: a PATH is the concatenation of its parts' folders. */
  lemma {:induction false} SplitAppend(a: string, sep: char, b: string)
    ensures Split(a + [sep] + b, sep) == Split(a, sep) + Split(b, sep)
    decreases |a|
  {
    var s := a + [sep] + b;
    match IndexOf(a, sep)
    case None =>
      assert s[|a|] == sep;
      assert IndexOf(s, sep) == Some(|a|);
      assert s[..|a|] == a && s[|a| + 1..] == b;
    case Some(i) =>
      assert IndexOf(s, sep) == Some(i) by {
        assert s[i] == sep;
        assert forall j :: 0 <= j < i ==> s[j] == a[j];
      }
      assert s[..i] == a[..i];
      assert s[i + 1..] == a[i + 1..] + [sep] + b;
      SplitAppend(a[i + 1..], sep, b);
  }

  /** Folders without separators survive a round trip through a PATH string. */
  lemma {:induction false} SplitJoinWith(pieces: seq<string>, sep: char)
    requires forall i :: 0 <= i < |pieces| ==> pieces[i] != "" && sep !in pieces[i]
    ensures Split(JoinWith(pieces, sep), sep) == pieces
  {
    if |pieces| == 1 {
      assert IndexOf(pieces[0], sep) == None;
    } else if |pieces| > 1 {
      SplitAppend(pieces[0], sep, JoinWith(pieces[1..], sep));
      SplitJoinWith(pieces[1..], sep);
      assert IndexOf(pieces[0], sep) == None;
      assert pieces == [pieces[0]] + pieces[1..];
    }
  }

  /** Index of the first folder that holds a `vcpkg` entry, as `first(where:)` finds it. */
  function FirstWithVcpkg(folders: seq<string>, fileExists: string -> bool): (r: Option<nat>)
    ensures r.Some? ==> r.value < |folders| && fileExists(folders[r.value] + "/vcpkg")
    ensures r.Some? ==> forall j :: 0 <= j < r.value ==> !fileExists(folders[j] + "/vcpkg")
    ensures r.None? ==> forall j :: 0 <= j < |folders| ==> !fileExists(folders[j] + "/vcpkg")
  {
    if |folders| == 0 then None
    else if fileExists(folders[0] + "/vcpkg") then Some(0)
    else match FirstWithVcpkg(folders[1..], fileExists)
      case None => None
      case Some(i) => Some(i + 1)
  }

  /**
   * The first PATH folder that contains an entry named `vcpkg` (the folder,
   * not the executable), or None when PATH is unset or no folder has one.
   */
  function GetVcpkgTool(environment: map<string, string>, fileExists: string -> bool): (r: Option<string>)
    ensures "PATH" !in environment ==> r.None?
    ensures r.Some? ==> "PATH" in environment
    ensures r.Some? ==>
      var folders := Split(environment["PATH"], ':');
      exists k :: 0 <= k < |folders| && folders[k] == r.value && fileExists(r.value + "/vcpkg") &&
        forall j :: 0 <= j < k ==> !fileExists(folders[j] + "/vcpkg")
    ensures r.None? && "PATH" in environment ==>
      forall f :: f in Split(environment["PATH"], ':') ==> !fileExists(f + "/vcpkg")
  {
    if "PATH" !in environment then None
    else
      var folders := Split(environment["PATH"], ':');
      match FirstWithVcpkg(folders, fileExists)
      case None => None
      case Some(k) => Some(folders[k])
  }

  /**
   * Where vcpkg's ports live: VCPKG_ROOT when set; else the `baseURL` of the
   * folder found on PATH (None stands for the trap of unwrapping a missing
   * base URL); else `<current directory>/vcpkg`.
   */
  function GuessVcpkgRoot(host: Host): (r: Option<FileUrl>)
    ensures VcpkgRootVariable in host.environment ==>
      r == Some(FileUrl(host.environment[VcpkgRootVariable], true))
    ensures VcpkgRootVariable !in host.environment && GetVcpkgTool(host.environment, host.fileExists).Some? ==>
      r == host.baseUrl(GetVcpkgTool(host.environment, host.fileExists).value)
    ensures VcpkgRootVariable !in host.environment && GetVcpkgTool(host.environment, host.fileExists).None? ==>
      r == Some(FileUrl(host.currentDirectory + "/vcpkg", true))
  {
    if VcpkgRootVariable in host.environment then Some(FileUrl(host.environment[VcpkgRootVariable], true))
    else match GetVcpkgTool(host.environment, host.fileExists)
      case Some(folder) => host.baseUrl(folder)
      case None => Some(FileUrl(host.currentDirectory + "/vcpkg", true))
  }

  /** When VCPKG_ROOT is set, nothing else about the host influences the guess. */
  lemma GuessIgnoresPathWhenRootSet(h1: Host, h2: Host)
    requires VcpkgRootVariable in h1.environment && VcpkgRootVariable in h2.environment
    requires h1.environment[VcpkgRootVariable] == h2.environment[VcpkgRootVariable]
    ensures GuessVcpkgRoot(h1) == GuessVcpkgRoot(h2) && GuessVcpkgRoot(h1).Some?
  {
  }

  /** vcpkg --version with the ambient environment, declared to write into /tmp. */
  function VcpkgVersionCheck(vcpkgToolPath: FileUrl, environment: map<string, string>): (c: Command)
    ensures c.executable == vcpkgToolPath && c.environment == environment
    ensures c.arguments == ["--version"] && c.displayName == "Run: vcpkg version"
    ensures c.outputFilesDirectory == FileUrl("/tmp", true)
  {
    PrebuildCommand("Run: vcpkg version", vcpkgToolPath, ["--version"], environment, FileUrl("/tmp", true))
  }

  /**
   * vcpkg install against `manifestRoot`, installing into `installRoot` or,
   * when that is absent, into the guessed vcpkg root; roots are passed as
   * absolute URL strings and the declared output is `<install root>/vcpkg/info`.
   * None when the guess traps.
   */
  method VcpkgInstall(vcpkgToolPath: FileUrl, manifestRoot: FileUrl, installRoot: Option<FileUrl>,
                      triplet: Option<string>, host: Host)
    returns (r: Option<Command>)
    ensures r.None? <==> installRoot.None? && GuessVcpkgRoot(host).None?
    ensures r.Some? ==>
      var root := if installRoot.Some? then installRoot.value else GuessVcpkgRoot(host).value;
      var c := r.value;
      && c.executable == vcpkgToolPath && c.displayName == "Run: vcpkg install"
      && c.environment == host.environment
      && |c.arguments| == (if triplet.Some? then 7 else 5)
      && c.arguments[..5] == ["install", "--x-manifest-root", AbsoluteString(manifestRoot),
                              "--x-install-root", AbsoluteString(root)]
      && (triplet.Some? ==> c.arguments[5..] == ["--triplet", triplet.value])
      && c.outputFilesDirectory == FileUrl(Join(root.path, "vcpkg/info"), false)
  {
    var root: FileUrl;
    if installRoot.Some? {
      root := installRoot.value;
    } else {
      var guess := GuessVcpkgRoot(host);
      if guess.None? {
        return None;
      }
      root := guess.value;
    }
    var output := Appending(root, "vcpkg/info");
    var args := ["install",
                 "--x-manifest-root", AbsoluteString(manifestRoot),
                 "--x-install-root", AbsoluteString(root)];
    if triplet.Some? {
      args := args + ["--triplet"];
      args := args + [triplet.value];
    }
    r := Some(PrebuildCommand("Run: vcpkg install", vcpkgToolPath, args, host.environment, output));
  }

  /**
   * Entry point for a Swift package: the version check, then the install of
   * the package's manifest into `<package>/vcpkg/info`, or ToolNotFound when
   * the plugin context has no `vcpkg` tool (`tool` is its answer).
   */
  method CreateBuildCommands(packageDirectory: FileUrl, tool: Option<FileUrl>, host: Host)
    returns (r: Result<seq<Command>, PluginError>)
    ensures r.Failure? <==> tool.None?
    ensures r.Failure? ==> r.error == ToolNotFound
    ensures r.Success? ==>
      var installRoot := FileUrl(Join(packageDirectory.path, "vcpkg/info"), false);
      var cs := r.value;
      && |cs| == 2
      && cs[0].arguments == ["--version"] && cs[0].executable == tool.value
      && cs[0].displayName == "Run: vcpkg version" && cs[0].environment == host.environment
      && cs[0].outputFilesDirectory == FileUrl("/tmp", true)
      && cs[1].executable == tool.value && cs[1].environment == host.environment
      && cs[1].displayName == "Run: vcpkg install"
      && cs[1].arguments == ["install", "--x-manifest-root", AbsoluteString(packageDirectory),
                             "--x-install-root", AbsoluteString(installRoot)]
      && cs[1].outputFilesDirectory == FileUrl(Join(installRoot.path, "vcpkg/info"), false)
  {
    if tool.None? {
      return Failure(ToolNotFound);
    }
    var vcpkgOutput := Appending(packageDirectory, "vcpkg/info");
    var check := VcpkgVersionCheck(tool.value, host.environment);
    var install := VcpkgInstall(tool.value, packageDirectory, Some(vcpkgOutput), None, host);
    r := Success([check, install.value]);
  }

  /**
   * Entry point for an Xcode project: the same two commands, with the project
   * directory as both manifest root and install root.
   */
  method CreateXcodeBuildCommands(projectDirectory: FileUrl, tool: Option<FileUrl>, host: Host)
    returns (r: Result<seq<Command>, PluginError>)
    ensures r.Failure? <==> tool.None?
    ensures r.Failure? ==> r.error == ToolNotFound
    ensures r.Success? ==>
      var cs := r.value;
      && |cs| == 2
      && cs[0].arguments == ["--version"] && cs[0].executable == tool.value
      && cs[0].displayName == "Run: vcpkg version" && cs[0].environment == host.environment
      && cs[0].outputFilesDirectory == FileUrl("/tmp", true)
      && cs[1].executable == tool.value && cs[1].environment == host.environment
      && cs[1].displayName == "Run: vcpkg install"
      && cs[1].arguments == ["install", "--x-manifest-root", AbsoluteString(projectDirectory),
                             "--x-install-root", AbsoluteString(projectDirectory)]
      && cs[1].outputFilesDirectory == FileUrl(Join(projectDirectory.path, "vcpkg/info"), false)
  {
    if tool.None? {
      return Failure(ToolNotFound);
    }
    var check := VcpkgVersionCheck(tool.value, host.environment);
    var install := VcpkgInstall(tool.value, projectDirectory, Some(projectDirectory), None, host);
    r := Success([check, install.value]);
  }
}
