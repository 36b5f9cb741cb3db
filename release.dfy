/**
 * Where the two vcpkg downloads live: the registry archive of a release tag
 * and the macOS vcpkg-tool binary of a release tag. The plugin's
 * `CommandBuilder` and the test helper build the same two URLs.
 */
module Release {
  import opened Wrappers

  const RegistryPrefix: string := "https://github.com/microsoft/vcpkg/archive/refs/tags/"
  const RegistrySuffix: string := ".zip"
  const ToolPrefix: string := "https://github.com/microsoft/vcpkg-tool/releases/download/"
  const ToolSuffix: string := "/vcpkg-macos"

  /** The source archive of the vcpkg registry at release `tag`. */
  function MakeRegistryURL(tag: string): (url: string)
    ensures |url| == |RegistryPrefix| + |tag| + |RegistrySuffix|
    ensures url[..|RegistryPrefix|] == RegistryPrefix
    ensures url[|RegistryPrefix|..|RegistryPrefix| + |tag|] == tag
    ensures url[|url| - |RegistrySuffix|..] == RegistrySuffix
  {
    RegistryPrefix + tag + RegistrySuffix
  }

  /** The macOS vcpkg-tool binary of release `tag`. */
  function MakeToolURL(tag: string): (url: string)
    ensures |url| == |ToolPrefix| + |tag| + |ToolSuffix|
    ensures url[..|ToolPrefix|] == ToolPrefix
    ensures url[|ToolPrefix|..|ToolPrefix| + |tag|] == tag
    ensures url[|url| - |ToolSuffix|..] == ToolSuffix
  {
    ToolPrefix + tag + ToolSuffix
  }

  /** Recovers the tag from a registry URL, if `url` has that shape. */
  function RegistryTag(url: string): Option<string> {
    var lo, hi := |RegistryPrefix|, |url| - |RegistrySuffix|;
    if lo <= hi && url[..lo] == RegistryPrefix && url[hi..] == RegistrySuffix then Some(url[lo..hi])
    else None
  }

  /** Recovers the tag from a tool URL, if `url` has that shape. */
  function ToolTag(url: string): Option<string> {
    var lo, hi := |ToolPrefix|, |url| - |ToolSuffix|;
    if lo <= hi && url[..lo] == ToolPrefix && url[hi..] == ToolSuffix then Some(url[lo..hi])
    else None
  }

  lemma RegistryTagRoundTrip(tag: string)
    ensures RegistryTag(MakeRegistryURL(tag)) == Some(tag)
  {
  }

  lemma ToolTagRoundTrip(tag: string)
    ensures ToolTag(MakeToolURL(tag)) == Some(tag)
  {
  }

  /** Distinct tags name distinct registry archives. */
  lemma RegistryURLInjective(a: string, b: string)
    requires MakeRegistryURL(a) == MakeRegistryURL(b)
    ensures a == b
  {
    RegistryTagRoundTrip(a);
    RegistryTagRoundTrip(b);
  }

  /** Distinct tags name distinct tool binaries. */
  lemma ToolURLInjective(a: string, b: string)
    requires MakeToolURL(a) == MakeToolURL(b)
    ensures a == b
  {
    ToolTagRoundTrip(a);
    ToolTagRoundTrip(b);
  }

  /** A registry URL is never a tool URL: the repositories differ right after ".../microsoft/vcpkg". */
  lemma RegistryAndToolURLsDiffer(a: string, b: string)
    ensures MakeRegistryURL(a) != MakeToolURL(b)
  {
    assert MakeRegistryURL(a)[34] == '/';
    assert MakeToolURL(b)[34] == '-';
  }
}
