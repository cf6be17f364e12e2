/**
 Path strings. `os.path.join` over relative segments is `a + "/" + b`;
 `os.path.basename` and `os.path.dirname` split a path at its last '/'.
 */
module Paths {

  /** `os.path.join(a, b)` for a relative segment `b`. */
  function Join(a: string, b: string): string
  {
    a + "/" + b
  }

  /** Left fold of `Join` over `segments`, in list order, starting from `base`. */
  function JoinAll(base: string, segments: seq<string>): string
    decreases |segments|
  {
    if segments == [] then base
    else Join(JoinAll(base, segments[..|segments| - 1]), segments[|segments| - 1])
  }

  /** Folding over two lists one after the other is folding over their concatenation. */
  lemma {:induction false} JoinAllConcat(base: string, xs: seq<string>, ys: seq<string>)
    ensures JoinAll(base, xs + ys) == JoinAll(JoinAll(base, xs), ys)
    decreases |ys|
  {
    if ys == [] {
      assert xs + ys == xs;
    } else {
      var init := ys[..|ys| - 1];
      JoinAllConcat(base, xs, init);
      assert (xs + ys)[..|xs + ys| - 1] == xs + init;
      assert (xs + ys)[|xs + ys| - 1] == ys[|ys| - 1];
    }
  }

  /** Index of the last '/' in `p`, or -1 when there is none. */
  function LastSlash(p: string): (i: int)
    ensures -1 <= i < |p|
    ensures i >= 0 ==> p[i] == '/'
    ensures forall j :: i < j < |p| ==> p[j] != '/'
  {
    if p == [] then -1
    else if p[|p| - 1] == '/' then |p| - 1
    else LastSlash(p[..|p| - 1])
  }

  /** `os.path.basename(p)`: what follows the last '/'. */
  function BaseName(p: string): (r: string)
    ensures '/' !in r
    ensures |r| <= |p| && r == p[|p| - |r|..]
  {
    var i := LastSlash(p);
    p[i + 1..]
  }

  /** `os.path.dirname(p)`: what precedes the last '/', or "/" when that is the first character. */
  function DirName(p: string): string
  {
    var i := LastSlash(p);
    if i < 0 then "" else if i == 0 then "/" else p[..i]
  }

  lemma LastSlashOfJoin(a: string, b: string)
    requires '/' !in b
    ensures LastSlash(Join(a, b)) == |a|
  {
    var p := Join(a, b);
    var i := LastSlash(p);
    assert p[|a|] == '/';
  }

  /** The last component of `a` joined with a slash-free `b` is `b`. */
  lemma BaseNameOfJoin(a: string, b: string)
    requires '/' !in b
    ensures BaseName(Join(a, b)) == b
  {
    LastSlashOfJoin(a, b);
    assert Join(a, b)[|a| + 1..] == b;
  }

  /** The directory of `a` joined with a slash-free `b` is `a`. */
  lemma DirNameOfJoin(a: string, b: string)
    requires '/' !in b && a != ""
    ensures DirName(Join(a, b)) == a
  {
    LastSlashOfJoin(a, b);
    assert Join(a, b)[..|a|] == a;
  }
}
