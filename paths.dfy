/** POSIX path helpers: `os.path.join` and the `name` and `stem` of a `pathlib` path. */
module Paths {
  import opened Wrappers
  import opened Text

  /** `os.path.join(a, b)` on POSIX: an absolute `b` replaces `a`. */
  function Join(a: string, b: string): (r: string)
    ensures b != [] && b[0] == '/' ==> r == b
    ensures (b == [] || b[0] != '/') ==>
      && |a| + |b| <= |r| <= |a| + 1 + |b| && r[..|a|] == a && r[|r| - |b|..] == b
      && (a != [] ==> r[|r| - |b| - 1] == '/')
      && (a != [] && a[|a| - 1] != '/' ==> |r| == |a| + 1 + |b|)
  {
    if b != [] && b[0] == '/' then b
    else if a == [] || a[|a| - 1] == '/' then a + b
    else a + "/" + b
  }

  /** `PurePosixPath(p).name`: the last component, empty and `.` components skipped. */
  function Name(p: string): (r: string)
    ensures '/' !in r
    ensures r != "."
    decreases |p|
  {
    match RFind(p, '/')
    case None => if p == "." then "" else p
    case Some(i) =>
      var tail := p[i + 1..];
      assert forall k :: 0 <= k < |tail| ==> tail[k] == p[i + 1 + k];
      if tail == "" || tail == "." then Name(p[..i]) else tail
  }

  /** `PurePosixPath(p).stem`: the name without its last suffix (a dot in first or last place starts none). */
  function Stem(p: string): (r: string)
    ensures |r| <= |Name(p)| && r == Name(p)[..|r|]
    ensures r != Name(p) ==> (0 < |r| < |Name(p)| - 1 && Name(p)[|r|] == '.'
      && forall k :: |r| < k < |Name(p)| ==> Name(p)[k] != '.')
  {
    var n := Name(p);
    match RFind(n, '.')
    case Some(i) => if 0 < i < |n| - 1 then n[..i] else n
    case None => n
  }

  /** Joining a directory and a plain file name gives a path whose name is that file name. */
  lemma NameOfJoin(dir: string, file: string)
    requires file != [] && file != "." && '/' !in file
    ensures Name(Join(dir, file)) == file
  {
    var p := Join(dir, file);
    if dir == [] {
      assert p == file;
    } else {
      var head := if dir[|dir| - 1] == '/' then dir else dir + "/";
      assert p == head + file;
      var j := |head| - 1;
      assert p[j] == '/';
      assert forall k :: j < k < |p| ==> p[k] == file[k - j - 1];
      var r := RFind(p, '/');
      assert r.Some? && r.value == j;
      assert p[j + 1..] == file;
    }
  }

  /** A name `base.ext` with a non-empty base and a non-empty, dot-free extension has stem `base`. */
  lemma StemOfName(p: string, base: string, ext: string)
    requires Name(p) == base + "." + ext
    requires base != [] && ext != [] && '.' !in ext
    ensures Stem(p) == base
  {
    var n := Name(p);
    var j := |base|;
    assert n[j] == '.';
    assert forall k :: j < k < |n| ==> n[k] == ext[k - j - 1];
    var r := RFind(n, '.');
    assert r.Some? && r.value == j;
    assert n[..j] == base;
  }
}
