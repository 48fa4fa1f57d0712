// The file system calls of the dispatcher, and `merge_move_dir` (src/daemon/runtime.rs).
module MergeMove {
  import opened Paths
  import opened Disk

  class FileSystem {
    var nodes: Disk

    constructor (d: Disk)
      ensures nodes == d
    {
      nodes := d;
    }

    method Rename(src: string, dst: string) returns (r: RenameResult)
      modifies this
      ensures r == RenameOutcome(old(nodes), src, dst)
      ensures nodes == if r.Done? then MoveTree(old(nodes), src, dst) else old(nodes)
    {
      r := RenameOutcome(nodes, src, dst);
      if r.Done? {
        nodes := MoveTree(nodes, src, dst);
      }
    }

    // `create_dir_all` when the parent is known to exist.
    method CreateDir(p: string) returns (ok: bool)
      modifies this
      ensures ok == !IsFile(old(nodes), p)
      ensures nodes == if p in old(nodes) then old(nodes) else old(nodes)[p := DirNode]
    {
      ok := !IsFile(nodes, p);
      if p !in nodes {
        nodes := nodes[p := DirNode];
      }
    }

    method RemoveEmptyDir(p: string) returns (ok: bool)
      modifies this
      ensures ok == (IsDir(old(nodes), p) && !HasChild(old(nodes), p))
      ensures nodes == if ok then old(nodes) - {p} else old(nodes)
    {
      ok := IsDir(nodes, p) && !HasChild(nodes, p);
      if ok {
        nodes := nodes - {p};
      }
    }
  }

  ghost function Inside(d: Disk, p: string): set<string> {
    set q | q in d && Within(q, p)
  }

  // An entry of src that still waits for its turn is untouched on both sides.
  ghost predicate Untouched(d: Disk, e: Disk, src: string, dst: string, entry: string)
    requires Within(entry, src)
  {
    forall q :: Within(q, entry) ==>
      At(e, q) == At(d, q) && At(e, Rebase(q, src, dst)) == At(d, Rebase(q, src, dst))
  }

  lemma EntryStep(d0: Disk, d: Disk, e: Disk, src: string, dst: string, from: string, other: string)
    requires Incomparable(src, dst) && src != "" && dst != ""
    requires ParentDir(from) == src && ParentDir(other) == src && from != other && from != "" && other != ""
    requires e == MoveTree(d, from, Rebase(from, src, dst))
    requires Untouched(d0, d, src, dst, other)
    ensures Untouched(d0, e, src, dst, other)
  {
    var to := Rebase(from, src, dst);
    RebaseWithin(from, src, dst);
    forall q | Within(q, other)
      ensures At(e, q) == At(d0, q) && At(e, Rebase(q, src, dst)) == At(d0, Rebase(q, src, dst))
    {
      BelowTransitive(q, other, src);
      var q' := Rebase(q, src, dst);
      RebaseWithin(q, src, dst);
      SiblingsAreDisjoint(other, from, q);
      MoveTreeAt(d, from, to, q);
      MoveTreeAt(d, from, to, q');
      if Within(q, to) { BelowTransitive(q, to, dst); CommonDescendant(q, src, dst); }
      if Within(q', from) { BelowTransitive(q', from, src); CommonDescendant(q', src, dst); }
      IncomparableRebase(q, from, src, dst);
    }
  }

  lemma EntriesRemain(d: Disk, src: string, dst: string, from: string, c: string)
    requires Incomparable(src, dst) && src != "" && ParentDir(from) == src && from != ""
    requires c in MoveTree(d, from, Rebase(from, src, dst)) && ParentDir(c) == src && c != ""
    ensures c in d && c != from
  {
    var to := Rebase(from, src, dst);
    RebaseWithin(from, src, dst);
    MoveTreeAt(d, from, to, c);
    if Within(c, to) { BelowTransitive(c, to, dst); CommonDescendant(c, src, dst); }
  }

  lemma AnchorsRemain(d: Disk, src: string, dst: string, from: string)
    requires Incomparable(src, dst) && src != "" && dst != "" && ParentDir(from) == src && from != ""
    requires IsDir(d, src) && IsDir(d, dst)
    ensures IsDir(MoveTree(d, from, Rebase(from, src, dst)), src)
    ensures IsDir(MoveTree(d, from, Rebase(from, src, dst)), dst)
  {
    var to := Rebase(from, src, dst);
    RebaseWithin(from, src, dst);
    MoveTreeAt(d, from, to, src);
    MoveTreeAt(d, from, to, dst);
    if Within(src, to) { BelowTransitive(src, to, dst); }
    if Within(dst, from) { BelowTransitive(dst, from, src); }
  }

  lemma PrepareEntry(d1: Disk, d: Disk, src: string, dst: string, from: string)
    requires Tree(d1) && Incomparable(src, dst) && src != "" && dst != "" && IsDir(d1, src)
    requires from in d1 && ParentDir(from) == src && Untouched(d1, d, src, dst, from)
    ensures var to := Rebase(from, src, dst);
      && from in d && from != "" && to != "" && ParentDir(to) == dst && Incomparable(from, to)
      && Inside(d, from) < Inside(d1, src)
  {
    var to := Rebase(from, src, dst);
    RebaseWithin(from, src, dst);
    RebaseParent(from, src, dst);
    assert At(d, from) == At(d1, from);
    if Within(from, to) { BelowTransitive(from, to, dst); CommonDescendant(from, src, dst); }
    if Within(to, from) { BelowTransitive(to, from, src); CommonDescendant(to, src, dst); }
    forall q | q in Inside(d, from) ensures q in Inside(d1, src) {
      assert At(d, q) == At(d1, q);
      BelowTransitive(q, from, src);
    }
    assert src in Inside(d1, src) && src !in Inside(d, from);
  }

  lemma UntouchedMergeable(d1: Disk, d: Disk, src: string, dst: string, from: string)
    requires Within(from, src) && Untouched(d1, d, src, dst, from)
    ensures Mergeable(d, from, Rebase(from, src, dst)) <==> Mergeable(d1, from, Rebase(from, src, dst))
  {
    var to := Rebase(from, src, dst);
    forall p | Within(p, from)
      ensures At(d, p) == At(d1, p) && At(d, Rebase(p, from, to)) == At(d1, Rebase(p, from, to))
    {
      RebaseMonotone(p, from, src, dst);
    }
  }

  // The kinds agree below src as soon as they agree below each of its entries.
  lemma MergeableByEntries(d: Disk, src: string, dst: string)
    requires Tree(d) && src != "" && IsDir(d, src) && IsDir(d, dst)
    requires forall c :: c in d && ParentDir(c) == src ==> Mergeable(d, c, Rebase(c, src, dst))
    ensures Mergeable(d, src, dst)
  {
    forall p | p in d && Within(p, src) && Rebase(p, src, dst) in d
      ensures d[p].DirNode? <==> d[Rebase(p, src, dst)].DirNode?
    {
      if p == src {
        assert Rebase(p, src, dst) == dst;
      } else {
        var c := EntryTowards(d, src, p);
        RebaseMonotone(p, c, src, dst);
      }
    }
  }

  lemma EntryOfMergeable(d: Disk, src: string, dst: string, c: string)
    requires Mergeable(d, src, dst) && Within(c, src)
    ensures Mergeable(d, c, Rebase(c, src, dst))
  {
    var c' := Rebase(c, src, dst);
    forall p | p in d && Within(p, c) && Rebase(p, c, c') in d
      ensures d[p].DirNode? <==> d[Rebase(p, c, c')].DirNode?
    {
      RebaseMonotone(p, c, src, dst);
    }
  }

  lemma FreshDestination(d: Disk, src: string, dst: string)
    requires Tree(d) && Incomparable(src, dst) && dst != "" && IsDir(d, src) && !IsFile(d, dst)
    requires ParentDir(dst) == "" || IsDir(d, ParentDir(dst))
    ensures var e := if dst in d then d else d[dst := DirNode];
      && Tree(e) && IsDir(e, src) && IsDir(e, dst)
      && Inside(e, src) == Inside(d, src) && MoveTree(e, src, dst) == MoveTree(d, src, dst)
  {
    if dst !in d {
      hide MoveTree;
      MakeDestination(d, src, dst);
      FreshTree(d, dst);
      forall q | Within(q, src) ensures q != dst {}
    }
  }

  lemma FreshTree(d: Disk, dst: string)
    requires Tree(d) && dst != "" && dst !in d && (ParentDir(dst) == "" || IsDir(d, ParentDir(dst)))
    ensures Tree(d[dst := DirNode])
  {
    var e := d[dst := DirNode];
    forall p | p in e ensures p != "" && (ParentDir(p) == "" || IsDir(e, ParentDir(p))) {
      if p != dst { assert p in d; }
    }
  }

  lemma FreshMergeable(d: Disk, src: string, dst: string)
    requires IsDir(d, src) && dst !in d && Incomparable(src, dst)
    ensures Mergeable(d[dst := DirNode], src, dst) <==> Mergeable(d, src, dst)
  {
    RebaseSelf(src, dst);
    var e := d[dst := DirNode];
    forall p | Within(p, src) ensures Rebase(p, src, dst) == dst ==> p == src {
      RebaseWithin(p, src, dst);
      RebaseSelf(dst, src);
    }
    forall p | p in e && Within(p, src) && Rebase(p, src, dst) in e && Mergeable(d, src, dst)
      ensures e[p].DirNode? <==> e[Rebase(p, src, dst)].DirNode?
    {
    }
  }

  // Outside the both-directories case a rename is refused exactly when the kinds clash.
  lemma PlainEntry(d: Disk, from: string, to: string)
    requires Tree(d) && from in d && from != "" && to != "" && Incomparable(from, to)
    requires !(IsDir(d, from) && IsDir(d, to)) && (ParentDir(to) == "" || IsDir(d, ParentDir(to)))
    ensures RenameOutcome(d, from, to).Done? <==> Mergeable(d, from, to)
    ensures RenameOutcome(d, from, to).Done? ==> Tree(MoveTree(d, from, to))
  {
    RebaseSelf(from, to);
    if RenameOutcome(d, from, to).Done? {
      RenameIsMergeable(d, from, to);
      MoveKeepsTree(d, from, to);
    }
  }

  lemma NothingBelow(d: Disk, src: string)
    requires Tree(d) && src != "" && forall c :: c in d ==> ParentDir(c) != src
    ensures forall q :: q in d ==> !Below(q, src)
  {
    forall q | q in d ensures !Below(q, src) {
      if Below(q, src) { var c := EntryTowards(d, src, q); }
    }
  }

  // The state of the merge when the entries in todo still wait for their turn.
  ghost predicate Midway(d1: Disk, d: Disk, src: string, dst: string, todo: set<string>) {
    && Tree(d) && IsDir(d, src) && IsDir(d, dst)
    && MoveTree(d, src, dst) == MoveTree(d1, src, dst)
    && (forall c :: c in d && ParentDir(c) == src ==> c in todo)
    && (forall c :: c in todo ==> c in d1 && ParentDir(c) == src && Within(c, src) && Untouched(d1, d, src, dst, c))
    && (forall c :: c in d1 && ParentDir(c) == src && c !in todo ==> Mergeable(d1, c, Rebase(c, src, dst)))
  }

  lemma MidwayStep(d1: Disk, d: Disk, src: string, dst: string, todo: set<string>, from: string)
    requires |src| <= |from|
    requires Tree(d1) && Incomparable(src, dst) && src != "" && dst != "" && IsDir(d1, src)
    requires Midway(d1, d, src, dst, todo) && from in todo
    requires Mergeable(d, from, Rebase(from, src, dst)) && Tree(MoveTree(d, from, Rebase(from, src, dst)))
    ensures Midway(d1, MoveTree(d, from, Rebase(from, src, dst)), src, dst, todo - {from})
  {
    hide MoveTree, Mergeable, Untouched, Rebase, Tree, ParentDir, Within;
    var e := MoveTree(d, from, Rebase(from, src, dst));
    PrepareEntry(d1, d, src, dst, from);
    UntouchedMergeable(d1, d, src, dst, from);
    MoveAbsorbsPart(d, src, dst, from);
    AnchorsRemain(d, src, dst, from);
    forall c | c in e && ParentDir(c) == src ensures c in todo && c != from {
      assert c != "";
      EntriesRemain(d, src, dst, from, c);
    }
    forall c | c in todo && c != from ensures Untouched(d1, e, src, dst, c) {
      EntryStep(d1, d, e, src, dst, from, c);
    }
  }

  lemma MidwayStart(d1: Disk, src: string, dst: string, entries: set<string>)
    requires Tree(d1) && src != "" && IsDir(d1, src) && IsDir(d1, dst)
    requires entries == set c | c in d1 && ParentDir(c) == src
    ensures Midway(d1, d1, src, dst, entries)
  {
  }

  lemma MidwayEnd(d1: Disk, d: Disk, src: string, dst: string)
    requires Tree(d1) && src != "" && IsDir(d1, src) && IsDir(d1, dst) && Incomparable(src, dst)
    requires Midway(d1, d, src, dst, {})
    ensures Mergeable(d1, src, dst) && IsDir(d, src) && IsDir(d, dst) && !HasChild(d, src)
    ensures Tree(d - {src}) && d - {src} == MoveTree(d1, src, dst)
  {
    MergeableByEntries(d1, src, dst);
    NothingBelow(d, src);
    RemoveEmptied(d, src, dst);
    MoveNothing(d - {src}, src, dst);
  }

  // What the next entry may rely on.
  lemma NextEntry(d1: Disk, d: Disk, src: string, dst: string, todo: set<string>, from: string)
    requires Tree(d1) && Incomparable(src, dst) && src != "" && dst != "" && IsDir(d1, src)
    requires Midway(d1, d, src, dst, todo) && from in todo
    ensures |src| <= |from| && Within(from, src)
    ensures var to := Rebase(from, src, dst);
      && Tree(d) && from in d && from != "" && to != "" && Incomparable(from, to)
      && (ParentDir(to) == "" || IsDir(d, ParentDir(to)))
      && Inside(d, from) < Inside(d1, src)
  {
    PrepareEntry(d1, d, src, dst, from);
  }

  // A nested merge that stopped half-way leaves the outer move unchanged too.
  lemma FailedEntry(d1: Disk, d: Disk, e: Disk, src: string, dst: string, todo: set<string>, from: string)
    requires Incomparable(src, dst) && Midway(d1, d, src, dst, todo) && from in todo
    requires |src| <= |from|
    requires MoveTree(e, from, Rebase(from, src, dst)) == MoveTree(d, from, Rebase(from, src, dst))
    requires !Mergeable(d, from, Rebase(from, src, dst))
    ensures MoveTree(e, src, dst) == MoveTree(d1, src, dst) && !Mergeable(d1, src, dst)
  {
    MoveAbsorbsPart(d, src, dst, from);
    MoveAbsorbsPart(e, src, dst, from);
    UntouchedMergeable(d1, d, src, dst, from);
    if Mergeable(d1, src, dst) { EntryOfMergeable(d1, src, dst, from); }
  }

  // ---- the calls one by one --------------------------------------------------------------

  // Some part of src goes to its place in dst ...
  ghost predicate MovesPart(d: Disk, e: Disk, src: string, dst: string, part: string) {
    Within(part, src) && RenameOutcome(d, part, Rebase(part, src, dst)).Done? &&
        e == MoveTree(d, part, Rebase(part, src, dst))
  }

  // ... or a directory emptied into its counterpart is removed ...
  ghost predicate DropsEmptied(d: Disk, e: Disk, src: string, dst: string, x: string) {
    Within(x, src) && IsDir(d, x) && !HasChild(d, x) && IsDir(d, Rebase(x, src, dst)) && e == d - {x}
  }

  // ... or a counterpart is created.
  ghost predicate MakesRoom(d: Disk, e: Disk, src: string, dst: string, x: string) {
    Within(x, src) && IsDir(d, x) && Rebase(x, src, dst) !in d
    && (ParentDir(Rebase(x, src, dst)) == "" || IsDir(d, ParentDir(Rebase(x, src, dst))))
    && e == d[Rebase(x, src, dst) := DirNode]
  }

  ghost predicate MicroStep(d: Disk, e: Disk, src: string, dst: string) {
    exists x :: MovesPart(d, e, src, dst, x) || DropsEmptied(d, e, src, dst, x) || MakesRoom(d, e, src, dst, x)
  }

  // The trees a merge goes through, call by call.
  ghost predicate IsTrace(ds: seq<Disk>, src: string, dst: string) {
    |ds| > 0 && forall i :: 0 <= i < |ds| - 1 ==> MicroStep(ds[i], ds[i + 1], src, dst)
  }

  ghost predicate Leads(ds: seq<Disk>, d: Disk, e: Disk, src: string, dst: string) {
    IsTrace(ds, src, dst) && ds[0] == d && ds[|ds| - 1] == e
  }

  lemma StepInPart(d: Disk, e: Disk, src: string, dst: string, from: string)
    requires Within(from, src) && MicroStep(d, e, from, Rebase(from, src, dst))
    ensures MicroStep(d, e, src, dst)
  {
    hide MoveTree, RenameOutcome, HasChild;
    var to := Rebase(from, src, dst);
    var x :| MovesPart(d, e, from, to, x) || DropsEmptied(d, e, from, to, x) || MakesRoom(d, e, from, to, x);
    RebaseMonotone(x, from, src, dst);
    assert MovesPart(d, e, src, dst, x) || DropsEmptied(d, e, src, dst, x) || MakesRoom(d, e, src, dst, x);
  }

  lemma TraceInPart(ds: seq<Disk>, d: Disk, e: Disk, src: string, dst: string, from: string)
    requires Within(from, src) && Leads(ds, d, e, from, Rebase(from, src, dst))
    ensures |ds| > 0 && Leads(ds, d, e, src, dst)
  {
    hide MicroStep;
    forall i | 0 <= i < |ds| - 1 ensures MicroStep(ds[i], ds[i + 1], src, dst) {
      StepInPart(ds[i], ds[i + 1], src, dst, from);
    }
  }

  lemma TraceJoin(a: seq<Disk>, b: seq<Disk>, d: Disk, e: Disk, f: Disk, src: string, dst: string)
    requires Leads(a, d, e, src, dst) && Leads(b, e, f, src, dst)
    ensures Leads(a + b[1..], d, f, src, dst)
  {
    hide MicroStep;
    var ds := a + b[1..];
    forall i | 0 <= i < |ds| - 1 ensures MicroStep(ds[i], ds[i + 1], src, dst) {
      if i >= |a| - 1 { assert ds[i] == b[i - (|a| - 1)] && ds[i + 1] == b[i + 1 - (|a| - 1)]; }
    }
  }

  lemma NoStep(d: Disk, src: string, dst: string)
    ensures Leads([d], d, d, src, dst)
  {
  }

  lemma OneStep(d: Disk, e: Disk, src: string, dst: string)
    requires MicroStep(d, e, src, dst)
    ensures Leads([d, e], d, e, src, dst)
  {
    hide MicroStep;
  }

  lemma RenameIsStep(d: Disk, from: string, to: string)
    requires RenameOutcome(d, from, to).Done?
    ensures MicroStep(d, MoveTree(d, from, to), from, to)
  {
    hide RenameOutcome, MoveTree;
    RebaseSelf(from, to);
    assert MovesPart(d, MoveTree(d, from, to), from, to, from);
  }

  lemma CreateIsStep(d: Disk, src: string, dst: string)
    requires IsDir(d, src) && dst !in d && (ParentDir(dst) == "" || IsDir(d, ParentDir(dst)))
    ensures MicroStep(d, d[dst := DirNode], src, dst)
  {
    hide ParentDir;
    RebaseSelf(src, dst);
    assert MakesRoom(d, d[dst := DirNode], src, dst, src);
  }

  lemma RemoveIsStep(d: Disk, src: string, dst: string)
    requires IsDir(d, src) && !HasChild(d, src) && IsDir(d, dst)
    ensures MicroStep(d, d - {src}, src, dst)
  {
    hide HasChild;
    RebaseSelf(src, dst);
    assert DropsEmptied(d, d - {src}, src, dst, src);
  }

  // One directory entry: recurse where both sides are directories, rename otherwise.
  method MoveEntry(fs: FileSystem, from: string, to: string) returns (ok: bool, ghost trace: seq<Disk>)
    requires Tree(fs.nodes) && from != "" && to != "" && Incomparable(from, to)
    requires from in fs.nodes && (ParentDir(to) == "" || IsDir(fs.nodes, ParentDir(to)))
    modifies fs
    ensures Tree(fs.nodes)
    ensures MoveTree(fs.nodes, from, to) == MoveTree(old(fs.nodes), from, to)
    ensures ok <==> Mergeable(old(fs.nodes), from, to)
    ensures ok ==> fs.nodes == MoveTree(old(fs.nodes), from, to)
    ensures Leads(trace, old(fs.nodes), fs.nodes, from, to)
    decreases Inside(fs.nodes, from), 1
  {
    hide Leads, MicroStep, MoveTree, Tree, Mergeable;
    if IsDir(fs.nodes, from) && IsDir(fs.nodes, to) {
      ok, trace := MergeMoveDir(fs, from, to);
    } else {
      PlainEntry(fs.nodes, from, to);
      ghost var d := fs.nodes;
      NoStep(d, from, to);
      trace := [d];
      var r := fs.Rename(from, to);
      ok := r.Done?;
      if ok {
        MovedIsGone(d, from, to);
        RenameIsStep(d, from, to);
        OneStep(d, fs.nodes, from, to);
        trace := [d, fs.nodes];
      }
    }
  }

  lemma MovedIsGone(d: Disk, src: string, dst: string)
    requires Incomparable(src, dst)
    ensures MoveTree(MoveTree(d, src, dst), src, dst) == MoveTree(d, src, dst)
  {
    RebaseSelf(src, dst);
    MoveAbsorbsPart(d, src, dst, src);
  }

  lemma RebaseSelf(src: string, dst: string)
    ensures Rebase(src, src, dst) == dst
  {
  }

  lemma FileInTheWay(d: Disk, src: string, dst: string)
    requires IsDir(d, src) && IsFile(d, dst)
    ensures dst in d && !Mergeable(d, src, dst)
  {
    RebaseSelf(src, dst);
  }

  // Whatever order the entries come in: the merge succeeds exactly when the kinds agree wherever
  // both sides have a node; then src is gone and its tree lies over dst. When it fails half-way,
  // finishing the move later would still end in the same tree. Every call on the way is one of the
  // three micro-steps.
  method MergeMoveDir(fs: FileSystem, src: string, dst: string) returns (ok: bool, ghost trace: seq<Disk>)
    requires Tree(fs.nodes) && src != "" && dst != "" && Incomparable(src, dst)
    requires IsDir(fs.nodes, src) && (ParentDir(dst) == "" || IsDir(fs.nodes, ParentDir(dst)))
    modifies fs
    ensures Tree(fs.nodes)
    ensures MoveTree(fs.nodes, src, dst) == MoveTree(old(fs.nodes), src, dst)
    ensures ok <==> Mergeable(old(fs.nodes), src, dst)
    ensures ok ==> fs.nodes == MoveTree(old(fs.nodes), src, dst)
    ensures Leads(trace, old(fs.nodes), fs.nodes, src, dst)
    decreases Inside(fs.nodes, src), 0
  {
    hide *;
    ghost var d0 := fs.nodes;
    NoStep(d0, src, dst);
    trace := [d0];
    ok := fs.CreateDir(dst);
    if !ok {
      FileInTheWay(d0, src, dst);
      return;
    }
    FreshDestination(d0, src, dst);
    ghost var d1 := fs.nodes;
    if dst !in d0 {
      FreshMergeable(d0, src, dst);
      CreateIsStep(d0, src, dst);
      OneStep(d0, d1, src, dst);
      trace := [d0, d1];
    }
    var todo := set c | c in fs.nodes && ParentDir(c) == src;
    MidwayStart(d1, src, dst, todo);
    while todo != {}
      invariant Midway(d1, fs.nodes, src, dst, todo)
      invariant Leads(trace, d0, fs.nodes, src, dst)
      decreases todo
    {
      var from :| from in todo;
      ghost var d := fs.nodes;
      NextEntry(d1, d, src, dst, todo, from);
      ghost var part;
      ok, part := MoveEntry(fs, from, Rebase(from, src, dst));
      TraceInPart(part, d, fs.nodes, src, dst, from);
      TraceJoin(trace, part, d0, d, fs.nodes, src, dst);
      trace := trace + part[1..];
      if !ok {
        FailedEntry(d1, d, fs.nodes, src, dst, todo, from);
        return;
      }
      MidwayStep(d1, d, src, dst, todo, from);
      todo := todo - {from};
    }
    ghost var d2 := fs.nodes;
    MidwayEnd(d1, d2, src, dst);
    ok := fs.RemoveEmptyDir(src);
    RemoveIsStep(d2, src, dst);
    OneStep(d2, fs.nodes, src, dst);
    TraceJoin(trace, [d2, fs.nodes], d0, d2, fs.nodes, src, dst);
    trace := trace + [d2, fs.nodes][1..];
    MovedIsGone(d1, src, dst);
  }
}
