/** The POSIX path handling the scripts use: `os.path.join` of two parts,
    and the `name`, `parent`, `suffix` and `stem` of a `pathlib.Path`. */
module Paths {
  import opened Common

  /** Position of the last occurrence of `c` in `s`. */
  function LastIndexOf(s: string, c: char): (r: Option<nat>)
    ensures r.Some? ==> r.value < |s| && s[r.value] == c && forall k :: r.value < k < |s| ==> s[k] != c
    ensures r.None? ==> forall k :: 0 <= k < |s| ==> s[k] != c
  {
    if |s| == 0 then None
    else if s[|s| - 1] == c then Some(|s| - 1)
    else LastIndexOf(s[..|s| - 1], c)
  }

  /** `os.path.join(a, b)`: an absolute `b` replaces `a`; otherwise a "/" is
      put between them unless `a` is empty or already ends with one. */
  function PathJoin(a: string, b: string): (r: string)
    ensures |b| > 0 && b[0] == '/' ==> r == b
    ensures !(|b| > 0 && b[0] == '/') ==> |r| >= |a| + |b| && r[|r| - |b|..] == b && r[..|a|] == a
  {
    if |b| > 0 && b[0] == '/' then b
    else if a == "" || a[|a| - 1] == '/' then a + b
    else a + "/" + b
  }

  /** `Path(p).name`: the text after the last "/". */
  function Name(p: string): (r: string)
    ensures '/' !in r
    ensures |r| <= |p| && p[|p| - |r|..] == r
  {
    match LastIndexOf(p, '/')
    case None => p
    case Some(i) => p[i + 1..]
  }

  /** `Path(p).parent`: the text before the last "/", "/" for a file in the
      root and "." for a bare name. */
  function Parent(p: string): string
  {
    match LastIndexOf(p, '/')
    case None => "."
    case Some(i) => if i == 0 then "/" else p[..i]
  }

  /** `Path(dir) / name` for a relative name, as `glob` reports its matches:
      no "./" in front when the directory is ".". */
  function ChildPath(dir: string, name: string): string
  {
    if dir == "." then name else PathJoin(dir, name)
  }

  /** `PurePath.suffix` of a file name: from its last "." on, unless that dot
      starts the name or ends it. */
  function Suffix(name: string): (r: string)
    ensures r == "" || (|r| >= 2 && r[0] == '.' && '.' !in r[1..] && |r| < |name| && name[|name| - |r|..] == r)
  {
    match LastIndexOf(name, '.')
    case None => ""
    case Some(i) => if 0 < i < |name| - 1 then name[i..] else ""
  }

  /** `PurePath.stem` of a file name: the name without its suffix. */
  function Stem(name: string): string
  {
    name[..|name| - |Suffix(name)|]
  }

  /** A name is its stem followed by its suffix. */
  lemma StemSuffix(name: string)
    ensures Stem(name) + Suffix(name) == name
  {
  }

  /** A name made of a non-empty stem and an extension of one dot and at
      least one more character has exactly that suffix and stem. */
  lemma SuffixOfExtension(stem: string, ext: string)
    requires |stem| > 0 && |ext| >= 2 && ext[0] == '.' && '.' !in ext[1..]
    ensures Suffix(stem + ext) == ext
    ensures Stem(stem + ext) == stem
  {
    var name := stem + ext;
    assert forall k :: |stem| < k < |name| ==> name[k] == ext[1..][k - |stem| - 1];
    assert name[|stem|] == '.';
    var r := LastIndexOf(name, '.');
    assert r.Some? && r.value == |stem|;
    assert name[|stem|..] == ext;
  }

  /** Joining a directory and a relative file name gives a path whose name
      is that file name. */
  lemma NameOfJoin(dir: string, file: string)
    requires |file| > 0 && '/' !in file
    ensures Name(PathJoin(dir, file)) == file
  {
    var p := PathJoin(dir, file);
    var i := |p| - |file| - 1;
    assert p[|p| - |file|..] == file;
    if dir == "" {
      assert p == file;
    } else {
      assert p[i] == '/';
      assert forall k :: i < k < |p| ==> p[k] == file[k - i - 1];
      var r := LastIndexOf(p, '/');
      assert r.Some? && r.value == i;
    }
  }
}
