/**
 * The host triplet: the vcpkg name of a (CPU architecture, operating system)
 * pair, "<arch>-<system>". The Swift code reads both from compile-time
 * `#if arch(...)` / `#if os(...)` conditions; here they are inputs.
 */
module Triplet {
  import opened Wrappers
  import Paths

  /** The architectures Swift's `#if arch(...)` distinguishes. */
  datatype Arch = Arm64 | X86_64 | I386 | Arm | Wasm32 | RiscV64 | PowerPC64 | PowerPC64le | S390x

  /** The operating systems Swift's `#if os(...)` distinguishes. */
  datatype Os = MacOS | IOS | WatchOS | TvOS | VisionOS | Linux | Windows | Android | FreeBSD | OpenBSD | Wasi

  datatype PlatformError = UnsupportedPlatform(message: string)

  const UnsupportedMessage: string := "Unsupported target system"

  /** vcpkg's name for the CPU: arm64 for arm64, x64 for every other architecture. */
  function GetProcessArch(arch: Arch): (name: string)
    ensures name == "arm64" <==> arch == Arm64
    ensures arch != Arm64 ==> name == "x64"
  {
    if arch == Arm64 then "arm64" else "x64"
  }

  /** vcpkg's name for the OS: osx and ios are supported, every other system is an error. */
  function GetSystemName(os: Os): (r: Result<string, PlatformError>)
    ensures r.Success? <==> os == MacOS || os == IOS
    ensures os == MacOS ==> r == Success("osx")
    ensures os == IOS ==> r == Success("ios")
    ensures r.Failure? ==> r.error == UnsupportedPlatform(UnsupportedMessage)
  {
    match os
    case MacOS => Success("osx")
    case IOS => Success("ios")
    case _ => Failure(UnsupportedPlatform(UnsupportedMessage))
  }

  /** "<arch>-<system>", or the unsupported-system error unchanged. */
  function MakeTriplet(arch: Arch, os: Os): (r: Result<string, PlatformError>)
    ensures r.Success? <==> GetSystemName(os).Success?
    ensures r.Failure? ==> r.error == GetSystemName(os).error
    ensures r.Success? ==> r.value in {"arm64-osx", "x64-osx", "arm64-ios", "x64-ios"}
  {
    match GetSystemName(os)
    case Failure(e) => Failure(e)
    case Success(system) =>
      assert "arm64" + "-" + "osx" == "arm64-osx" && "x64" + "-" + "osx" == "x64-osx";
      assert "arm64" + "-" + "ios" == "arm64-ios" && "x64" + "-" + "ios" == "x64-ios";
      Success(GetProcessArch(arch) + "-" + system)
  }

  /** Splits a triplet at its first dash into architecture and system names. */
  function ParseTriplet(t: string): Option<(string, string)> {
    match Paths.IndexOf(t, '-')
    case None => None
    case Some(i) => Some((t[..i], t[i + 1..]))
  }

  /** A triplet names its architecture and system unambiguously. */
  lemma TripletRoundTrip(arch: Arch, os: Os)
    requires MakeTriplet(arch, os).Success?
    ensures ParseTriplet(MakeTriplet(arch, os).value)
         == Some((GetProcessArch(arch), GetSystemName(os).value))
  {
    var a, s := GetProcessArch(arch), GetSystemName(os).value;
    var t := a + "-" + s;
    assert MakeTriplet(arch, os).value == t;
    assert '-' !in a;
    Paths.IndexOfAfterPrefix(a, '-', s);
    assert t[..|a|] == a && t[|a| + 1..] == s;
  }

  /** Two platforms share a triplet only when their vcpkg names agree. */
  lemma TripletInjective(a1: Arch, o1: Os, a2: Arch, o2: Os)
    requires MakeTriplet(a1, o1).Success? && MakeTriplet(a1, o1) == MakeTriplet(a2, o2)
    ensures GetProcessArch(a1) == GetProcessArch(a2) && o1 == o2
  {
    TripletRoundTrip(a1, o1);
    TripletRoundTrip(a2, o2);
  }

  /** The host triplets the build-macro test expects on macOS. */
  lemma HostTriplet(arch: Arch)
    ensures MakeTriplet(arch, MacOS) == Success(if arch == Arm64 then "arm64-osx" else "x64-osx")
  {
    assert "arm64" + "-" + "osx" == "arm64-osx" && "x64" + "-" + "osx" == "x64-osx";
  }
}
