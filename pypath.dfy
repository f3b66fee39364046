/**
 * POSIX path handling as the processors use it: `os.path.join`,
 * `os.path.dirname`, and `pathlib.Path(...).name` / `.stem`.
 */
module PyPath {
  import opened PyText

  /** `os.path.join(a, b)`: an absolute `b` replaces `a`; otherwise one '/' goes between them. */
  function Join(a: string, b: string): string {
    if StartsWith(b, "/") then b
    else if a == [] || EndsWith(a, "/") then a + b
    else a + "/" + b
  }

  /** What `join` puts in front of `b`: nothing for an absolute `b`, else `a` and a separator if needed. */
  function JoinPrefix(a: string, absolute: bool): string {
    if absolute then ""
    else if a == [] || EndsWith(a, "/") then a
    else a + "/"
  }

  /** Two names that agree on their first character are joined to the same directory the same way. */
  lemma JoinSameWay(a: string, x: string, y: string)
    requires x != [] && y != [] && x[0] == y[0]
    ensures StartsWith(x, "/") == StartsWith(y, "/")
    ensures Join(a, x) == JoinPrefix(a, StartsWith(x, "/")) + x
    ensures Join(a, y) == JoinPrefix(a, StartsWith(x, "/")) + y
  {
    assert StartsWith(x, "/") <==> x[0] == '/';
    assert StartsWith(y, "/") <==> y[0] == '/';
  }

  /** Names built as `stem + t` in one directory compare as their tails do. */
  lemma JoinedNamesCompareByTail(dir: string, stem: string, t1: string, t2: string)
    requires stem != []
    ensures LexLess(Join(dir, stem + t1), Join(dir, stem + t2)) <==> LexLess(t1, t2)
  {
    var x, y := stem + t1, stem + t2;
    assert x[0] == y[0];
    JoinSameWay(dir, x, y);
    var jp := JoinPrefix(dir, StartsWith(x, "/"));
    assert jp + x == (jp + stem) + t1;
    assert jp + y == (jp + stem) + t2;
    LexLessCommonPrefix(jp + stem, t1, t2);
  }

  /**
   * Names built as `stem + m + suffix` in one directory, with middles of one
   * length, compare as their middles do.
   */
  lemma JoinedNamesCompareByMiddle(dir: string, stem: string, m1: string, m2: string, suffix: string)
    requires stem != [] && |m1| == |m2|
    ensures LexLess(Join(dir, stem + m1 + suffix), Join(dir, stem + m2 + suffix)) <==> LexLess(m1, m2)
  {
    assert stem + m1 + suffix == stem + (m1 + suffix);
    assert stem + m2 + suffix == stem + (m2 + suffix);
    JoinedNamesCompareByTail(dir, stem, m1 + suffix, m2 + suffix);
    if m1 == m2 {
      LexLessIrreflexive(m1 + suffix);
      LexLessIrreflexive(m1);
    } else {
      LexLessDecidedByHead(m1, m2, suffix, suffix);
    }
  }

  /** `s.rfind(c)`: the last index holding `c`, or -1. */
  function RFind(s: string, c: char): (i: int)
    ensures -1 <= i < |s|
    ensures i == -1 <==> c !in s
    ensures i >= 0 ==> s[i] == c && forall k :: i < k < |s| ==> s[k] != c
    decreases |s|
  {
    if s == [] then -1
    else if s[|s| - 1] == c then |s| - 1
    else
      var i := RFind(s[..|s| - 1], c);
      assert forall k :: 0 <= k < |s| - 1 ==> s[k] == s[..|s| - 1][k];
      i
  }

  function RStripSlashes(s: string): string
    decreases |s|
  {
    if s != [] && s[|s| - 1] == '/' then RStripSlashes(s[..|s| - 1]) else s
  }

  predicate AllSlashes(s: string) {
    forall k :: 0 <= k < |s| ==> s[k] == '/'
  }

  /**
   * `os.path.dirname(p)`: everything up to the last '/', with trailing
   * slashes removed unless nothing but slashes is left.
   */
  function Dirname(p: string): string {
    var head := p[..RFind(p, '/') + 1];
    if head != [] && !AllSlashes(head) then RStripSlashes(head) else head
  }

  /** The pieces of a path that pathlib keeps as parts: empty and "." pieces are dropped. */
  function Parts(pieces: seq<string>): seq<string>
    decreases |pieces|
  {
    if pieces == [] then []
    else
      var init := Parts(pieces[..|pieces| - 1]);
      var last := pieces[|pieces| - 1];
      if last == "" || last == "." then init else init + [last]
  }

  /** `PurePosixPath(p).name`: the last part, or "" when there is none. */
  function FileName(p: string): string {
    var parts := Parts(Split(p, '/'));
    if parts == [] then "" else parts[|parts| - 1]
  }

  /** `PurePosixPath(p).stem`: the name without its final suffix. */
  function Stem(p: string): string {
    var name := FileName(p);
    var i := RFind(name, '.');
    if 0 < i < |name| - 1 then name[..i] else name
  }

  /** A name that pathlib keeps as the last part: non-empty, no '/', not ".". */
  predicate IsPlainName(f: string) {
    f != "" && f != "." && '/' !in f
  }

  /** `dirname` and `name` take apart what `join` put together. */
  lemma {:induction false} JoinTakenApart(d: string, f: string)
    requires d != [] && d[|d| - 1] != '/'
    requires IsPlainName(f)
    ensures Join(d, f) == d + "/" + f
    ensures Dirname(Join(d, f)) == d
    ensures FileName(Join(d, f)) == f
  {
    var p := d + "/" + f;
    assert !StartsWith(f, "/") by {
      assert f[0] != '/';
    }
    assert Join(d, f) == p;
    assert RFind(p, '/') == |d| by {
      assert p[|d|] == '/';
      forall k | |d| < k < |p| ensures p[k] != '/' {
        assert p[k] == f[k - |d| - 1];
      }
    }
    var head := p[..|d| + 1];
    assert head == d + "/";
    assert !AllSlashes(head) by {
      assert head[|d| - 1] == d[|d| - 1];
    }
    assert RStripSlashes(head) == RStripSlashes(d) == d by {
      assert head[..|head| - 1] == d;
    }
    SplitConcat(d, '/', f);
    SplitFree(f, '/');
    var pieces := Split(d, '/') + [f];
    assert pieces[..|pieces| - 1] == Split(d, '/');
  }

  /** A bare file name has no directory part. */
  lemma BareNameDirname(f: string)
    requires '/' !in f
    ensures Dirname(f) == ""
  {
  }

  /** The stem of `n + "." + ext` is `n` when `ext` is a non-empty extension without dots. */
  lemma StemDropsExtension(p: string, n: string, ext: string)
    requires FileName(p) == n + "." + ext
    requires n != [] && ext != [] && '.' !in ext
    ensures Stem(p) == n
  {
    var name := n + "." + ext;
    assert name[|n|] == '.';
    assert forall k :: |n| < k < |name| ==> name[k] == ext[k - |n| - 1];
    assert RFind(name, '.') == |n|;
    assert name[..|n|] == n;
  }
}
