/**
 * An abstract file system: a map from absolute paths to entries, and the
 * `FileManager` operations the test helper calls on it. Each operation is a
 * function on the map (what the new state is) and a method of `FileManager`
 * that updates its `entries` field accordingly.
 */
module FileSystem {
  import opened Wrappers
  import opened Paths

  /** POSIX permission bits 0o644, given to files that are created without explicit attributes. */
  const DefaultMode: int := 420

  /** A directory, or a regular file with its bytes and permission bits. */
  datatype Node = Directory | File(contents: seq<bv8>, mode: int)

  type Fs = map<string, Node>

  /** Errors thrown by Foundation (FileManager, URLSession, Process) rather than by the helper. */
  datatype IoError =
    | CannotCreateDirectory
    | CannotRemove
    | CannotCopy
    | CannotSetAttributes
    | TransportError
    | LaunchFailed

  predicate IsDirectory(fs: Fs, p: string) {
    p in fs && fs[p].Directory?
  }

  /**
   * `createDirectory(atPath: p, withIntermediateDirectories: true)`: the
   * missing ancestors first, then `p` itself; fails when `p` or one of its
   * ancestors is a file.
   */
  function CreatingDirectory(fs: Fs, p: string): Result<Fs, IoError>
    decreases |p|
  {
    if p in fs then (if fs[p].File? then Failure(CannotCreateDirectory) else Success(fs))
    else
      var parent := Parent(p);
      if parent == "" || |parent| >= |p| then Success(fs[p := Directory])
      else match CreatingDirectory(fs, parent)
        case Failure(e) => Failure(e)
        case Success(fs') => Success(fs'[p := Directory])
  }

  /**
   * Creating a directory leaves `p` a directory, keeps every existing entry,
   * and adds nothing longer than `p`; its only error is CannotCreateDirectory.
   */
  lemma {:induction false} CreatingDirectoryResult(fs: Fs, p: string)
    ensures var r := CreatingDirectory(fs, p);
      && (r.Success? ==> IsDirectory(r.value, p))
      && (r.Success? ==> forall k :: k in fs ==> k in r.value && r.value[k] == fs[k])
      && (r.Success? ==> forall q :: |q| > |p| ==> (q in r.value <==> q in fs))
      && (r.Failure? ==> r.error == CannotCreateDirectory)
    decreases |p|
  {
    var parent := Parent(p);
    if p !in fs && parent != "" && |parent| < |p| {
      CreatingDirectoryResult(fs, parent);
    }
  }

  /** `p` is a directory already, or is absent and can be made inside an existing directory. */
  predicate DirectoryReady(fs: Fs, p: string) {
    IsDirectory(fs, p) || (p !in fs && IsDirectory(fs, Parent(p)))
  }

  /** A directory that is ready is created with nothing but `p` itself added. */
  lemma CreatingDirectoryInParent(fs: Fs, p: string)
    requires DirectoryReady(fs, p)
    ensures CreatingDirectory(fs, p).Success?
    ensures CreatingDirectory(fs, p).value == if p in fs then fs else fs[p := Directory]
  {
    var parent := Parent(p);
    if p !in fs && parent != "" && |parent| < |p| {
      assert CreatingDirectory(fs, parent) == Success(fs);
    }
  }

  /** What is left after `removeItem(atPath: p)`: `p` and everything inside it is gone. */
  function Removed(fs: Fs, p: string): Fs {
    map k | k in fs && k != p && !IsUnder(k, p) :: fs[k]
  }

  /** `createFile(atPath: p, contents: nil)`: `None` when it returns false. */
  function CreatingFile(fs: Fs, p: string): Option<Fs> {
    if !IsDirectory(fs, Parent(p)) || IsDirectory(fs, p) then None
    else Some(fs[p := File([], DefaultMode)])
  }

  /** `copyItem(atPath: src, toPath: dst)` for a single entry. */
  function Copying(fs: Fs, src: string, dst: string): Result<Fs, IoError> {
    if src !in fs || dst in fs || !IsDirectory(fs, Parent(dst)) then Failure(CannotCopy)
    else Success(fs[dst := fs[src]])
  }

  /** `setAttributes([.posixPermissions: mode], ofItemAtPath: p)`; directories carry no modelled mode. */
  function SettingMode(fs: Fs, p: string, mode: int): Result<Fs, IoError> {
    if p !in fs then Failure(CannotSetAttributes)
    else match fs[p]
      case Directory => Success(fs)
      case File(data, _) => Success(fs[p := File(data, mode)])
  }

  /** An external process writing `data` to `p`: an existing file keeps its permission bits. */
  function Written(fs: Fs, p: string, data: seq<bv8>): Fs {
    fs[p := File(data, if p in fs && fs[p].File? then fs[p].mode else DefaultMode)]
  }

  /** An archive's entries, keyed by path relative to `dest`, placed under `dest`. */
  function Unpacked(fs: Fs, dest: string, entries: map<string, Node>): Fs {
    JoinInjectiveEverywhere(dest);
    fs + map rel | rel in entries :: Join(dest, rel) := entries[rel]
  }

  /** `FileManager.default`: the only mutable state the test helper touches. */
  class FileManager {
    var entries: Fs

    constructor(initial: Fs)
      ensures entries == initial
    {
      entries := initial;
    }

    /** `fileExists(atPath:)`: true for files and directories alike. */
    predicate FileExists(p: string)
      reads this
    {
      p in entries
    }

    method CreateDirectory(p: string) returns (err: Option<IoError>)
      modifies this
      ensures var r := CreatingDirectory(old(entries), p);
        if r.Success? then err.None? && entries == r.value
        else err == Some(r.error) && entries == old(entries)
    {
      var r := CreatingDirectory(entries, p);
      if r.Success? {
        entries := r.value;
        err := None;
      } else {
        err := Some(r.error);
      }
    }

    method RemoveItem(p: string) returns (err: Option<IoError>)
      modifies this
      ensures p in old(entries) ==> err.None? && entries == Removed(old(entries), p)
      ensures p !in old(entries) ==> err == Some(CannotRemove) && entries == old(entries)
    {
      if p in entries {
        entries := Removed(entries, p);
        err := None;
      } else {
        err := Some(CannotRemove);
      }
    }

    method CreateFile(p: string) returns (ok: bool)
      modifies this
      ensures var r := CreatingFile(old(entries), p);
        ok == r.Some? && entries == (if ok then r.value else old(entries))
    {
      var r := CreatingFile(entries, p);
      ok := r.Some?;
      if ok {
        entries := r.value;
      }
    }

    method CopyItem(src: string, dst: string) returns (err: Option<IoError>)
      modifies this
      ensures var r := Copying(old(entries), src, dst);
        if r.Success? then err.None? && entries == r.value
        else err == Some(r.error) && entries == old(entries)
    {
      var r := Copying(entries, src, dst);
      if r.Success? {
        entries := r.value;
        err := None;
      } else {
        err := Some(r.error);
      }
    }

    method SetMode(p: string, mode: int) returns (err: Option<IoError>)
      modifies this
      ensures var r := SettingMode(old(entries), p, mode);
        if r.Success? then err.None? && entries == r.value
        else err == Some(r.error) && entries == old(entries)
    {
      var r := SettingMode(entries, p, mode);
      if r.Success? {
        entries := r.value;
        err := None;
      } else {
        err := Some(r.error);
      }
    }

    /** URLSession saves a finished download as a fresh temporary file `p`. */
    method Save(p: string, data: seq<bv8>)
      modifies this
      ensures entries == old(entries)[p := File(data, DefaultMode)]
    {
      entries := entries[p := File(data, DefaultMode)];
    }

    /** An external process (curl) writes `data` to `p`. */
    method Write(p: string, data: seq<bv8>)
      modifies this
      ensures entries == Written(old(entries), p, data)
    {
      entries := Written(entries, p, data);
    }

    /** An external process (unzip) places an archive's entries under `dest`. */
    method Unpack(dest: string, archive: map<string, Node>)
      modifies this
      ensures entries == Unpacked(old(entries), dest, archive)
    {
      entries := Unpacked(entries, dest, archive);
    }
  }
}
