// Relative paths as the daemon stores them: `/`-separated strings below the mapped root.
module Paths {

  // p is a proper descendant of the directory d.
  predicate Below(p: string, d: string) {
    |d| < |p| && p[..|d|] == d && p[|d|] == '/'
  }

  // p is d itself or a descendant of it.
  predicate Within(p: string, d: string) {
    p == d || Below(p, d)
  }

  predicate Incomparable(a: string, b: string) {
    !Within(a, b) && !Within(b, a)
  }

  // The rewrite `format!("{new}{}", &path[old.len()..])`.
  function Rebase(p: string, src: string, dst: string): string
    requires |src| <= |p|
  {
    dst + p[|src|..]
  }

  // `rsplit_once('/')`: everything before the last separator, or "".
  function ParentDir(p: string): (d: string)
    ensures |d| <= |p|
    ensures p != "" ==> |d| < |p|
    ensures d != "" ==> Below(p, d)
  {
    if p == "" then ""
    else if p[|p| - 1] == '/' then p[..|p| - 1]
    else
      var d := ParentDir(p[..|p| - 1]);
      assert d != "" ==> p[..|d|] == p[..|p| - 1][..|d|];
      d
  }

  // The part after the last separator.
  function FileName(p: string): (n: string)
    ensures '/' !in n
    ensures |n| <= |p| && p[|p| - |n|..] == n
    ensures |n| < |p| ==> p[|p| - |n| - 1] == '/' && ParentDir(p) == p[..|p| - |n| - 1]
    ensures |n| == |p| ==> ParentDir(p) == ""
  {
    if p == "" || p[|p| - 1] == '/' then ""
    else FileName(p[..|p| - 1]) + [p[|p| - 1]]
  }

  function Join(dir: string, name: string): string {
    if dir == "" then name else dir + "/" + name
  }

  lemma BelowTransitive(p: string, q: string, d: string)
    requires Within(p, q) && Within(q, d)
    ensures Within(p, d)
    ensures Below(p, q) || Below(q, d) ==> Below(p, d)
  {
    if p != q && q != d {
      assert p[..|d|] == p[..|q|][..|d|];
      assert p[|d|] == p[..|q|][|d|];
    }
  }

  // Two directories that both contain p lie on one chain.
  lemma CommonDescendant(p: string, a: string, b: string)
    requires Within(p, a) && Within(p, b)
    ensures Within(a, b) || Within(b, a)
  {
    if |a| <= |b| {
      assert b == p[..|b|] && a == p[..|a|];
      assert b[..|a|] == p[..|b|][..|a|];
      if |a| < |b| {
        assert b[|a|] == p[..|b|][|a|];
      }
    } else {
      assert b == p[..|b|] && a == p[..|a|];
      assert a[..|b|] == p[..|a|][..|b|];
      assert a[|b|] == p[..|a|][|b|];
    }
  }

  lemma RebaseWithin(p: string, src: string, dst: string)
    requires Within(p, src)
    ensures Within(Rebase(p, src, dst), dst)
    ensures Below(p, src) <==> Below(Rebase(p, src, dst), dst)
    ensures Rebase(Rebase(p, src, dst), dst, src) == p
  {
    var q := Rebase(p, src, dst);
    assert q[..|dst|] == dst;
    assert q[|dst|..] == p[|src|..];
    assert p[..|src|] + p[|src|..] == p;
    if p != src {
      assert q[|dst|] == p[|src|];
    }
  }

  lemma RebaseInjective(p: string, q: string, src: string, dst: string)
    requires Within(p, src) && Within(q, src) && Rebase(p, src, dst) == Rebase(q, src, dst)
    ensures p == q
  {
    RebaseWithin(p, src, dst);
    RebaseWithin(q, src, dst);
  }

  lemma RebaseMonotone(p: string, q: string, src: string, dst: string)
    requires Within(p, q) && Within(q, src)
    ensures Within(p, src)
    ensures Within(Rebase(p, src, dst), Rebase(q, src, dst))
    ensures Rebase(p, src, dst) == Rebase(p, q, Rebase(q, src, dst))
  {
    BelowTransitive(p, q, src);
    assert p[..|q|] == q;
    assert p[|src|..] == q[|src|..] + p[|q|..];
    var p', q' := Rebase(p, src, dst), Rebase(q, src, dst);
    assert p' == q' + p[|q|..];
    if p != q {
      assert p'[..|q'|] == q';
      assert p'[|q'|] == p[|q|];
    }
  }

  lemma IncomparableRebase(x: string, y: string, src: string, dst: string)
    requires Within(x, src) && Within(y, src)
    ensures Within(Rebase(x, src, dst), Rebase(y, src, dst)) <==> Within(x, y)
  {
    RebaseWithin(x, src, dst);
    RebaseWithin(y, src, dst);
    var x', y' := Rebase(x, src, dst), Rebase(y, src, dst);
    if Within(x, y) { RebaseMonotone(x, y, src, dst); }
    if Within(x', y') {
      RebaseMonotone(x', y', dst, src);
    }
  }

  lemma {:induction false} NoSlashInFileName(p: string)
    ensures forall i :: |p| - |FileName(p)| <= i < |p| ==> p[i] != '/'
  {
    var n := FileName(p);
    forall i | |p| - |n| <= i < |p| ensures p[i] != '/' {
      assert p[i] == p[|p| - |n|..][i - (|p| - |n|)];
    }
  }

  // The parent of something below a directory is that directory or still below it.
  lemma {:induction false} ParentStaysWithin(p: string, d: string)
    requires Below(p, d)
    ensures Within(ParentDir(p), d)
    ensures ParentDir(p) == p[..|ParentDir(p)|] && |ParentDir(p)| == |p| - |FileName(p)| - 1
  {
    NoSlashInFileName(p);
    var k := |p| - |FileName(p)| - 1;
    assert |d| <= k && ParentDir(p) == p[..k];
    if k > |d| {
      assert p[..k][..|d|] == p[..|d|];
    }
  }

  lemma {:induction false} SiblingsAreDisjoint(x: string, y: string, q: string)
    requires x != y && ParentDir(x) == ParentDir(y) && Within(q, x)
    requires x != "" && y != ""
    ensures !Within(q, y)
  {
    if Within(q, y) {
      CommonDescendant(q, x, y);
      if Below(x, y) { ParentStaysWithin(x, y); } else { ParentStaysWithin(y, x); }
    }
  }

  lemma {:induction false} LastSlash(p: string, k: nat)
    requires k < |p| && p[k] == '/' && forall i :: k < i < |p| ==> p[i] != '/'
    ensures ParentDir(p) == p[..k] && |FileName(p)| == |p| - k - 1
  {
    NoSlashInFileName(p);
    var n := FileName(p);
    if |n| < |p| {
      assert p[|p| - |n| - 1] == '/';
    }
  }

  lemma RebaseSlices(p: string, src: string, dst: string, k: nat)
    requires |src| <= k < |p|
    ensures var q, k' := Rebase(p, src, dst), k + |dst| - |src|;
      k' < |q| && q[k'] == p[k] && q[..k'] == Rebase(p[..k], src, dst) && q[k' + 1..] == p[k + 1..]
  {
    var q, k' := Rebase(p, src, dst), k + |dst| - |src|;
    var tail := p[|src|..];
    assert q == dst + tail;
    assert p[..k][|src|..] == tail[..k - |src|];
    assert p[k + 1..] == tail[k + 1 - |src|..];
    assert q[..k'] == dst + tail[..k - |src|];
    assert q[k' + 1..] == tail[k + 1 - |src|..];
  }

  lemma {:induction false} RebaseParent(p: string, src: string, dst: string)
    requires Below(p, src)
    ensures Within(ParentDir(p), src)
    ensures ParentDir(Rebase(p, src, dst)) == Rebase(ParentDir(p), src, dst)
    ensures FileName(Rebase(p, src, dst)) == FileName(p)
  {
    hide ParentDir, FileName, Rebase;
    ParentStaysWithin(p, src);
    NoSlashInFileName(p);
    var q, k := Rebase(p, src, dst), |ParentDir(p)|;
    var k' := k + |dst| - |src|;
    RebaseSlices(p, src, dst, k);
    forall i | k' < i < |q| ensures q[i] != '/' {
      assert q[i] == q[k' + 1..][i - k' - 1] == p[k + 1..][i - k' - 1];
    }
    LastSlash(q, k');
  }

  lemma {:induction false} JoinParts(dir: string, name: string)
    requires '/' !in name
    ensures ParentDir(Join(dir, name)) == dir && FileName(Join(dir, name)) == name
  {
    var p := Join(dir, name);
    if dir != "" {
      assert p[|dir|] == '/' && p[..|dir|] == dir;
      forall i | |dir| < i < |p| ensures p[i] != '/' { assert p[i] == name[i - |dir| - 1]; }
      LastSlash(p, |dir|);
      assert p[|p| - |name|..] == name;
    } else if name != "" {
      assert forall i :: 0 <= i < |p| ==> p[i] != '/';
      assert p[0..] == p;
    }
  }

  // A path that is the join of its two halves: no empty name, no stray separator at the front.
  predicate WellNamed(p: string) {
    FileName(p) != "" && p == Join(ParentDir(p), FileName(p))
  }
}
