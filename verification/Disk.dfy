// The mapped folder on disk, as a map from relative paths to nodes, and the two ways a local
// rename moves a subtree: `fs::rename` and `merge_move_dir` (src/daemon/runtime.rs).
module Disk {
  import opened Paths
  import opened Tables

  datatype Node = DirNode | FileNode(bytes: Bytes)
  type Disk = map<string, Node>

  function At(d: Disk, p: string): Option<Node> {
    if p in d then Some(d[p]) else None
  }

  predicate IsFile(d: Disk, p: string) { p in d && d[p].FileNode? }
  predicate IsDir(d: Disk, p: string) { p in d && d[p].DirNode? }

  // Every node hangs off a directory.
  ghost predicate Tree(d: Disk) {
    forall p :: p in d ==> p != "" && (ParentDir(p) == "" || IsDir(d, ParentDir(p)))
  }

  // The whole subtree at src, laid over whatever is at dst.
  function MoveTree(d: Disk, src: string, dst: string): Disk {
    var kept := set q | q in d && !Within(q, src);
    var moved := set q | q in d && Within(q, src) :: Rebase(q, src, dst);
    map q | q in kept + moved ::
      if Within(q, dst) && Rebase(q, dst, src) in d then d[Rebase(q, dst, src)]
      else if q in d then d[q] else DirNode
  }

  lemma MoveTreeAt(d: Disk, src: string, dst: string, q: string)
    ensures At(MoveTree(d, src, dst), q) ==
      if Within(q, dst) && Rebase(q, dst, src) in d then At(d, Rebase(q, dst, src))
      else if Within(q, src) then None
      else At(d, q)
  {
    if Within(q, dst) {
      RebaseWithin(q, dst, src);
    }
    forall p | p in d && Within(p, src)
      ensures Within(Rebase(p, src, dst), dst) && Rebase(Rebase(p, src, dst), dst, src) == p
    {
      RebaseWithin(p, src, dst);
    }
    if Within(q, dst) && Rebase(q, dst, src) in d {
      var p := Rebase(q, dst, src);
      assert p in d && Within(p, src) && Rebase(p, src, dst) == q;
    }
  }

  lemma SameDisk(d: Disk, e: Disk)
    requires forall q :: At(d, q) == At(e, q)
    ensures d == e
  {
    forall q ensures (q in d <==> q in e) && (q in d ==> d[q] == e[q]) {
      assert At(d, q) == At(e, q);
    }
  }

  // Moving a part of src first changes nothing: the outer move still ends in the same tree.
  lemma MoveAbsorbsPart(d: Disk, src: string, dst: string, part: string)
    requires Incomparable(src, dst) && Within(part, src)
    ensures MoveTree(MoveTree(d, part, Rebase(part, src, dst)), src, dst) == MoveTree(d, src, dst)
  {
    var part' := Rebase(part, src, dst);
    var d1 := MoveTree(d, part, part');
    RebaseWithin(part, src, dst);
    forall q ensures At(MoveTree(d1, src, dst), q) == At(MoveTree(d, src, dst), q) {
      MoveAbsorbsPartAt(d, src, dst, part, q);
    }
    SameDisk(MoveTree(d1, src, dst), MoveTree(d, src, dst));
  }

  lemma MoveAbsorbsPartAt(d: Disk, src: string, dst: string, part: string, q: string)
    requires Incomparable(src, dst) && Within(part, src)
    ensures At(MoveTree(MoveTree(d, part, Rebase(part, src, dst)), src, dst), q) == At(MoveTree(d, src, dst), q)
  {
    var part' := Rebase(part, src, dst);
    var d1 := MoveTree(d, part, part');
    RebaseWithin(part, src, dst);
    MoveTreeAt(d, src, dst, q);
    MoveTreeAt(d1, src, dst, q);
    MoveTreeAt(d, part, part', q);
    if Within(q, dst) {
      var p := Rebase(q, dst, src);
      RebaseWithin(q, dst, src);
      MoveTreeAt(d, part, part', p);
      if Within(p, part') { BelowTransitive(p, part', dst); CommonDescendant(p, src, dst); }
      if Within(q, src) { CommonDescendant(q, src, dst); }
      if Within(q, part) { BelowTransitive(q, part, src); CommonDescendant(q, src, dst); }
      IncomparableRebase(p, part, src, dst);
      assert Rebase(p, src, dst) == q;
      if Within(p, part) {
        RebaseMonotone(p, part, src, dst);
        RebaseWithin(p, part, part');
      }
    } else {
      if Within(q, part') { BelowTransitive(q, part', dst); }
      if Within(q, part) { BelowTransitive(q, part, src); }
    }
  }

  lemma MoveNothing(d: Disk, src: string, dst: string)
    requires src == dst || forall q :: q in d ==> !Within(q, src)
    ensures MoveTree(d, src, dst) == d
  {
    forall q ensures At(MoveTree(d, src, dst), q) == At(d, q) {
      MoveTreeAt(d, src, dst, q);
      if Within(q, dst) { RebaseWithin(q, dst, src); }
      if src == dst && Within(q, src) { assert q[..|src|] + q[|src|..] == q; }
    }
    SameDisk(MoveTree(d, src, dst), d);
  }

  // Wherever both sides have a node, the kinds agree.
  ghost predicate Mergeable(d: Disk, src: string, dst: string) {
    forall p :: p in d && Within(p, src) && Rebase(p, src, dst) in d ==>
      (d[p].DirNode? <==> d[Rebase(p, src, dst)].DirNode?)
  }

  lemma {:induction false} AncestorIsDir(d: Disk, p: string, a: string)
    requires Tree(d) && p in d && Below(p, a) && a != ""
    ensures IsDir(d, a)
    decreases |p|
  {
    ParentStaysWithin(p, a);
    if ParentDir(p) != a {
      AncestorIsDir(d, ParentDir(p), a);
    }
  }

  // The entry of src that leads to q.
  lemma {:induction false} EntryTowards(d: Disk, src: string, q: string) returns (c: string)
    requires Tree(d) && src != "" && q in d && Below(q, src)
    ensures c in d && ParentDir(c) == src && Within(q, c) && Below(c, src)
    decreases |q|
  {
    ParentStaysWithin(q, src);
    if ParentDir(q) == src {
      c := q;
    } else {
      c := EntryTowards(d, src, ParentDir(q));
      BelowTransitive(q, ParentDir(q), c);
    }
  }

  lemma MoveKeepsTree(d: Disk, src: string, dst: string)
    requires Tree(d) && Incomparable(src, dst) && Mergeable(d, src, dst)
    requires src != "" && dst != "" && (ParentDir(dst) == "" || IsDir(d, ParentDir(dst)))
    ensures Tree(MoveTree(d, src, dst))
  {
    var m := MoveTree(d, src, dst);
    forall q | q in m ensures q != "" && (ParentDir(q) == "" || IsDir(m, ParentDir(q))) {
      MoveTreeAt(d, src, dst, q);
      MoveTreeAt(d, src, dst, ParentDir(q));
      if Within(q, dst) {
        RebaseWithin(q, dst, src);
      }
      if Within(q, dst) && Rebase(q, dst, src) in d {
        MovedParent(d, src, dst, q);
      } else if ParentDir(q) != "" {
        KeptParent(d, src, dst, q);
      }
    }
  }

  lemma MovedParent(d: Disk, src: string, dst: string, q: string)
    requires Tree(d) && Incomparable(src, dst) && src != "" && dst != ""
    requires ParentDir(dst) == "" || IsDir(d, ParentDir(dst))
    requires Within(q, dst) && Rebase(q, dst, src) in d
    ensures ParentDir(q) == "" || IsDir(MoveTree(d, src, dst), ParentDir(q))
  {
    var up := ParentDir(q);
    MoveTreeAt(d, src, dst, up);
    if q == dst {
      if up != "" && Within(up, src) { BelowTransitive(dst, up, src); }
    } else {
      RebaseParent(q, dst, src);
      assert Within(up, dst);
      RebaseWithin(q, dst, src);
      RebaseWithin(up, dst, src);
      var p := Rebase(q, dst, src);
      assert ParentDir(p) == Rebase(up, dst, src);
    }
  }

  lemma KeptParent(d: Disk, src: string, dst: string, q: string)
    requires Tree(d) && Incomparable(src, dst) && Mergeable(d, src, dst) && src != "" && dst != ""
    requires q in d && !Within(q, src) && ParentDir(q) != ""
    ensures IsDir(MoveTree(d, src, dst), ParentDir(q))
  {
    var up := ParentDir(q);
    assert Below(q, up);
    MoveTreeAt(d, src, dst, up);
    if Within(up, src) { BelowTransitive(q, up, src); }
    if Within(up, dst) && Rebase(up, dst, src) in d {
      RebaseWithin(up, dst, src);
      assert Rebase(Rebase(up, dst, src), src, dst) == up;
    }
  }

  lemma RemoveEmptied(d: Disk, src: string, dst: string)
    requires Incomparable(src, dst) && IsDir(d, src) && IsDir(d, dst)
    requires forall q :: q in d ==> !Below(q, src)
    ensures MoveTree(d - {src}, src, dst) == MoveTree(d, src, dst)
  {
    var e := d - {src};
    forall q ensures At(MoveTree(e, src, dst), q) == At(MoveTree(d, src, dst), q) {
      MoveTreeAt(d, src, dst, q);
      MoveTreeAt(e, src, dst, q);
      if Within(q, dst) {
        RebaseWithin(q, dst, src);
        if Within(q, src) { CommonDescendant(q, src, dst); }
      }
    }
    SameDisk(MoveTree(e, src, dst), MoveTree(d, src, dst));
  }

  lemma MakeDestination(d: Disk, src: string, dst: string)
    requires Incomparable(src, dst) && IsDir(d, src) && dst !in d
    ensures MoveTree(d[dst := DirNode], src, dst) == MoveTree(d, src, dst)
  {
    var e := d[dst := DirNode];
    forall q ensures At(MoveTree(e, src, dst), q) == At(MoveTree(d, src, dst), q) {
      MoveTreeAt(d, src, dst, q);
      MoveTreeAt(e, src, dst, q);
      if Within(q, dst) {
        RebaseWithin(q, dst, src);
      }
    }
    SameDisk(MoveTree(e, src, dst), MoveTree(d, src, dst));
  }

  datatype RenameResult = Done | NotFound | NotEmpty | Refused

  // rename(2) on a tree without links.
  predicate HasChild(d: Disk, p: string) { exists c :: c in d && Below(c, p) }

  function RenameOutcome(d: Disk, src: string, dst: string): RenameResult {
    if src !in d then NotFound
    else if src == dst then Done
    else if Below(dst, src) then Refused
    else if dst !in d then (if ParentDir(dst) == "" || IsDir(d, ParentDir(dst)) then Done else NotFound)
    else if d[src].FileNode? then (if d[dst].FileNode? then Done else Refused)
    else if d[dst].FileNode? then Refused
    else if HasChild(d, dst) then NotEmpty
    else Done
  }

  lemma RenameIsMergeable(d: Disk, src: string, dst: string)
    requires Tree(d) && src != "" && dst != "" && Incomparable(src, dst) && RenameOutcome(d, src, dst).Done?
    ensures Mergeable(d, src, dst)
  {
    forall p | p in d && Within(p, src) && Rebase(p, src, dst) in d
      ensures d[p].DirNode? <==> d[Rebase(p, src, dst)].DirNode?
    {
      var q := Rebase(p, src, dst);
      RebaseWithin(p, src, dst);
      if p != src {
        AncestorIsDir(d, p, src);
        AncestorIsDir(d, q, dst);
      }
    }
  }
}
