/**
 * Process-invocation descriptors and the `CommandBuilder` that prepares the
 * unzip, curl, vcpkg, chmod and rm invocations of the bootstrap pipeline.
 * The ambient process environment is passed in as `environment`.
 */
module Commands {
  import opened Wrappers
  import opened Paths

  /** A prebuild command: what to run, with which arguments and environment, and what it writes. */
  datatype Command = PrebuildCommand(
    displayName: string,
    executable: FileUrl,
    arguments: seq<string>,
    environment: map<string, string>,
    outputFilesDirectory: FileUrl)

  /** The variable that would give vcpkg an implicit registry root. */
  const VcpkgRootVariable: string := "VCPKG_ROOT"

  function DigitChar(d: nat): char
    requires d < 10
  {
    ('0' as int + d) as char
  }

  /** Decimal rendering of a count, as Swift's string interpolation prints an `Int`. */
  function NatToString(n: nat): (s: string)
    ensures |s| >= 1
    ensures forall i :: 0 <= i < |s| ==> '0' <= s[i] <= '9'
    ensures n >= 1 ==> s[0] != '0'
    ensures |s| == 1 || s[0] != '0'
  {
    if n < 10 then [DigitChar(n)] else NatToString(n / 10) + [DigitChar(n % 10)]
  }

  /** The number a string of decimal digits denotes. */
  function DigitsValue(s: string): nat
    requires forall i :: 0 <= i < |s| ==> '0' <= s[i] <= '9'
  {
    if |s| == 0 then 0 else 10 * DigitsValue(s[..|s| - 1]) + (s[|s| - 1] as int - '0' as int)
  }

  /** Printing a count loses nothing: the digits read back as the same number. */
  lemma {:induction false} NatToStringRoundTrip(n: nat)
    ensures DigitsValue(NatToString(n)) == n
  {
    if n >= 10 {
      NatToStringRoundTrip(n / 10);
      var s, p := NatToString(n), NatToString(n / 10);
      assert s == p + [DigitChar(n % 10)];
      assert s[..|s| - 1] == p;
      assert DigitsValue(s) == 10 * DigitsValue(p) + n % 10;
    }
  }

  /**
   * chmod on `<dir>/<name>` declares `dir` itself as its output directory,
   * so the file whose mode changes is the entry `name` of the declared output.
   */
  lemma ChangeFileModeOutputHoldsTarget(b: CommandBuilder, chmod: FileUrl, dir: string, name: string, mode: string,
                                        environment: map<string, string>)
    requires Normal(dir) && Component(name)
    ensures var c := b.BuildChangeFileMode(chmod, FileUrl(Join(dir, name), false), mode, environment);
      && c.outputFilesDirectory == FileUrl(dir, true)
      && Join(c.outputFilesDirectory.path, name) == c.arguments[1]
  {
    ParentOfJoin(dir, name);
  }

  /** Builds the descriptors of the bootstrap steps; `workspace` is the plugin's work directory. */
  class CommandBuilder {
    const workspace: FileUrl

    constructor(workspace: FileUrl)
      ensures this.workspace == workspace
    {
      this.workspace := workspace;
    }

    /** unzip -o <zip> -d <destination>: the extracted tree lands in the declared output directory. */
    function BuildExtract(unzip: FileUrl, zipFile: FileUrl, destination: FileUrl, environment: map<string, string>): (c: Command)
      ensures c.executable == unzip && c.environment == environment
      ensures c.arguments == ["-o", zipFile.path, "-d", c.outputFilesDirectory.path]
      ensures c.outputFilesDirectory == destination
      ensures c.displayName == "Run: unzip " + AbsoluteString(zipFile)
    {
      PrebuildCommand("Run: unzip " + AbsoluteString(zipFile), unzip,
        ["-o", zipFile.path, "-d", destination.path], environment, destination)
    }

    /** curl -L <source> --output <destination>: the file written is the declared output. */
    function BuildDownload(curl: FileUrl, source: string, destination: FileUrl, environment: map<string, string>): (c: Command)
      ensures c.executable == curl && c.environment == environment
      ensures c.arguments == ["-L", source, "--output", c.outputFilesDirectory.path]
      ensures c.outputFilesDirectory == destination
      ensures c.displayName == "Run: curl " + source
    {
      PrebuildCommand("Run: curl " + source, curl,
        ["-L", source, "--output", destination.path], environment, destination)
    }

    /** vcpkg --version, declared to write into the workspace. */
    function BuildVersionCheck(vcpkgToolPath: FileUrl, environment: map<string, string>): (c: Command)
      ensures c.executable == vcpkgToolPath && c.environment == environment
      ensures c.arguments == ["--version"] && c.displayName == "Run: vcpkg version"
      ensures c.outputFilesDirectory == workspace
    {
      PrebuildCommand("Run: vcpkg version", vcpkgToolPath, ["--version"], environment, workspace)
    }

    /**
     * vcpkg install with the registry, manifest and install roots given
     * explicitly, the triplet appended when there is one, and VCPKG_ROOT
     * removed from the environment so that the explicit root is the only one.
     */
    method BuildInstall(vcpkgToolPath: FileUrl, vcpkgRoot: FileUrl, manifestRoot: FileUrl, installRoot: FileUrl,
                        triplet: Option<string>, environment: map<string, string>)
      returns (c: Command)
      ensures c.executable == vcpkgToolPath && c.displayName == "Run: vcpkg install"
      ensures |c.arguments| == if triplet.Some? then 12 else 10
      ensures c.arguments[..10] == ["install", "--no-print-usage", "--recurse", "--clean-after-build",
                                    "--vcpkg-root", vcpkgRoot.path,
                                    "--x-manifest-root", manifestRoot.path,
                                    "--x-install-root", installRoot.path]
      ensures triplet.Some? ==> c.arguments[10..] == ["--triplet", triplet.value]
      ensures c.arguments[9] == c.outputFilesDirectory.path && c.outputFilesDirectory == installRoot
      ensures VcpkgRootVariable !in c.environment
      ensures c.environment.Keys == environment.Keys - {VcpkgRootVariable}
      ensures forall k :: k in c.environment ==> c.environment[k] == environment[k]
    {
      var args := ["install",
                   "--no-print-usage",
                   "--recurse",
                   "--clean-after-build",
                   "--vcpkg-root", vcpkgRoot.path,
                   "--x-manifest-root", manifestRoot.path,
                   "--x-install-root", installRoot.path];
      if triplet.Some? {
        args := args + ["--triplet"];
        args := args + [triplet.value];
      }
      var env := environment;
      env := env - {VcpkgRootVariable};
      c := PrebuildCommand("Run: vcpkg install", vcpkgToolPath, args, env, installRoot);
    }

    /** chmod <mode> <target>: the target lies in the declared output directory. */
    function BuildChangeFileMode(chmod: FileUrl, target: FileUrl, mode: string, environment: map<string, string>): (c: Command)
      ensures c.executable == chmod && c.environment == environment && c.displayName == "Run: chmod"
      ensures c.arguments == [mode, target.path]
      ensures c.outputFilesDirectory == FileUrl(Parent(c.arguments[1]), true)
    {
      PrebuildCommand("Run: chmod", chmod, [mode, target.path], environment, DeletingLastPathComponent(target))
    }

    /** rm -f -R <targets...>, in the order given, declared to write into the workspace. */
    method BuildClean(remove: FileUrl, targets: seq<FileUrl>, environment: map<string, string>) returns (c: Command)
      ensures c.executable == remove && c.environment == environment
      ensures |c.arguments| == 2 + |targets| && c.arguments[..2] == ["-f", "-R"]
      ensures forall i :: 0 <= i < |targets| ==> c.arguments[2 + i] == targets[i].path
      ensures c.displayName == "Run: rm " + NatToString(|targets|) + " items"
      ensures c.outputFilesDirectory == workspace
    {
      var args := ["-f", "-R"];
      for i := 0 to |targets|
        invariant |args| == 2 + i && args[..2] == ["-f", "-R"]
        invariant forall j :: 0 <= j < i ==> args[2 + j] == targets[j].path
      {
        args := args + [targets[i].path];
      }
      c := PrebuildCommand("Run: rm " + NatToString(|targets|) + " items", remove, args, environment, workspace);
    }
  }
}
