/**
 * Path strings and the small part of Foundation's `URL` that the plugin and
 * the test helper rely on: `.path`, `.absoluteString`, `appending(component:)`,
 * `appending(path:)`, `deletingLastPathComponent()` and `hasDirectoryPath`.
 *
 * A path is a `string`. A "normal" path is non-empty and has no trailing
 * slash unless it is the root itself, which is how `URL.path` reports paths.
 */
module Paths {
  import opened Wrappers

  /** Index of the first occurrence of `c` in `s`, if any. */
  function IndexOf(s: string, c: char): (r: Option<nat>)
    ensures r.Some? ==> r.value < |s| && s[r.value] == c
    ensures r.Some? ==> forall j :: 0 <= j < r.value ==> s[j] != c
    ensures r.None? ==> forall j :: 0 <= j < |s| ==> s[j] != c
  {
    if |s| == 0 then None
    else if s[0] == c then Some(0)
    else match IndexOf(s[1..], c)
      case None => None
      case Some(i) => Some(i + 1)
  }

  /** In `a + [c] + b` with no `c` in `a`, the first `c` is the one right after `a`. */
  lemma IndexOfAfterPrefix(a: string, c: char, b: string)
    requires c !in a
    ensures IndexOf(a + [c] + b, c) == Some(|a|)
  {
    var s := a + [c] + b;
    assert s[|a|] == c;
    assert forall j :: 0 <= j < |a| ==> s[j] == a[j];
  }

  /** Index of the last occurrence of `c` in `s`, if any. */
  function LastIndexOf(s: string, c: char): (r: Option<nat>)
    ensures r.Some? ==> r.value < |s| && s[r.value] == c
    ensures r.Some? ==> forall j :: r.value < j < |s| ==> s[j] != c
    ensures r.None? ==> forall j :: 0 <= j < |s| ==> s[j] != c
  {
    if |s| == 0 then None
    else if s[|s| - 1] == c then Some(|s| - 1)
    else LastIndexOf(s[..|s| - 1], c)
  }

  predicate EndsWithSlash(p: string) {
    |p| > 0 && p[|p| - 1] == '/'
  }

  /** A path as `URL.path` reports it: non-empty, no trailing slash except the root. */
  predicate Normal(p: string) {
    p != "" && (EndsWithSlash(p) ==> p == "/")
  }

  /** A single path component: non-empty and free of separators. */
  predicate Component(name: string) {
    name != "" && '/' !in name
  }

  /** `p` followed by exactly one separator. */
  function DirPrefix(p: string): string {
    if EndsWithSlash(p) then p else p + "/"
  }

  /** `dir` extended by `name`, as `appending(component:)` and `appending(path:)` build it. */
  function Join(dir: string, name: string): string {
    DirPrefix(dir) + name
  }

  /** `p` lies strictly inside the directory `dir`. */
  predicate IsUnder(p: string, dir: string) {
    var d := DirPrefix(dir);
    |d| <= |p| && p[..|d|] == d
  }

  /**
   * The path without its last component (`deletingLastPathComponent()`):
   * everything before the last separator, the root when that separator is the
   * first character, and the empty path for a path without separators.
   */
  function Parent(p: string): string {
    match LastIndexOf(p, '/')
    case None => ""
    case Some(i) => if i == 0 then "/" else p[..i]
  }

  lemma {:induction false} LastIndexAfterPrefix(a: string, b: string)
    requires EndsWithSlash(a) && '/' !in b
    ensures LastIndexOf(a + b, '/') == Some(|a| - 1)
  {
    var s := a + b;
    assert s[|a| - 1] == '/';
    assert forall j :: |a| <= j < |s| ==> s[j] == b[j - |a|];
  }

  /** Dropping the last component of `Join(dir, name)` gives back `dir`. */
  lemma ParentOfJoin(dir: string, name: string)
    requires Normal(dir) && Component(name)
    ensures Parent(Join(dir, name)) == dir
  {
    var d := DirPrefix(dir);
    LastIndexAfterPrefix(d, name);
    if dir != "/" {
      assert (d + name)[..|d| - 1] == dir;
    }
  }

  /** Joining a normal directory and a component yields a normal path strictly inside it. */
  lemma JoinNormal(dir: string, name: string)
    requires Normal(dir) && Component(name)
    ensures Normal(Join(dir, name)) && IsUnder(Join(dir, name), dir)
    ensures |Join(dir, name)| > |dir|
  {
    var j := Join(dir, name);
    assert j[|j| - 1] == name[|name| - 1];
    assert j[..|DirPrefix(dir)|] == DirPrefix(dir);
  }

  /** Different components under the same directory give different paths. */
  lemma {:induction false} JoinInjective(dir: string, a: string, b: string)
    requires Join(dir, a) == Join(dir, b)
    ensures a == b
  {
    var d := DirPrefix(dir);
    assert a == (d + a)[|d|..];
    assert b == (d + b)[|d|..];
  }

  lemma JoinInjectiveEverywhere(dir: string)
    ensures forall a, b :: Join(dir, a) == Join(dir, b) ==> a == b
  {
    forall a, b | Join(dir, a) == Join(dir, b) ensures a == b {
      JoinInjective(dir, a, b);
    }
  }

  /** Lying inside a directory is transitive. */
  lemma IsUnderTransitive(p: string, q: string, r: string)
    requires IsUnder(p, q) && IsUnder(q, r)
    ensures IsUnder(p, r)
  {
    var dq, dr := DirPrefix(q), DirPrefix(r);
    assert dq[..|q|] == q;
    assert p[..|dr|] == dq[..|dr|] == q[..|dr|];
  }

  /** A parent is strictly shorter than any path of two or more characters. */
  lemma ParentShorter(p: string)
    requires |p| > 1
    ensures |Parent(p)| < |p|
  {
  }

  /**
   * A file URL: the absolute path it denotes and whether it is a directory URL
   * (`hasDirectoryPath`), which only changes how it is printed.
   */
  datatype FileUrl = FileUrl(path: string, isDirectory: bool)

  /** `absoluteString` of a file URL: the `file://` scheme, the path, and a trailing slash for directory URLs. */
  function AbsoluteString(u: FileUrl): (r: string)
    ensures |r| >= 7 + |u.path| && r[..7] == "file://" && r[7..7 + |u.path|] == u.path
    ensures r[7 + |u.path|..] == (if u.isDirectory && !EndsWithSlash(u.path) then "/" else "")
  {
    "file://" + (if u.isDirectory && !EndsWithSlash(u.path) then u.path + "/" else u.path)
  }

  /** `appending(component:)` / `appending(path:)` with a component that has no trailing slash. */
  function Appending(u: FileUrl, name: string): FileUrl {
    FileUrl(Join(u.path, name), false)
  }

  /** `deletingLastPathComponent()`: the parent, as a directory URL. */
  function DeletingLastPathComponent(u: FileUrl): FileUrl {
    FileUrl(Parent(u.path), true)
  }
}
