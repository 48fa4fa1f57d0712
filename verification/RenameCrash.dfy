// A local rename may be cut off by a crash between any two of its micro-steps. The operation is
// still queued then, and running it again ends where the uninterrupted run would have ended.
module RenameCrash {
  import opened Paths
  import opened Tables
  import opened RenameSubtree
  import opened Disk
  import opened MergeMove
  import opened World
  import opened Runtime
  import opened Draining
  import opened Redelivery
  import opened RedeliveryCases
  import opened DiskIndex

  // What the merge that started on d0 has still to do.
  ghost predicate Halfway(d0: Disk, d: Disk, src: string, dst: string) {
    && Tree(d) && Mergeable(d, src, dst) && (ParentDir(dst) == "" || IsDir(d, ParentDir(dst)))
    && MoveTree(d, src, dst) == MoveTree(d0, src, dst)
  }

  lemma PartIsApart(src: string, dst: string, part: string)
    requires Incomparable(src, dst) && Within(part, src)
    ensures Incomparable(part, Rebase(part, src, dst))
  {
    var part' := Rebase(part, src, dst);
    RebaseWithin(part, src, dst);
    if Within(part, part') { BelowTransitive(part, part', dst); CommonDescendant(part, src, dst); }
    if Within(part', part) { BelowTransitive(part', part, src); CommonDescendant(part', src, dst); }
  }

  lemma PartKeepsNode(d: Disk, src: string, dst: string, part: string, x: string)
    requires Incomparable(src, dst) && Within(part, src) && Within(x, src)
    ensures var e := MoveTree(d, part, Rebase(part, src, dst));
      && (Within(x, part) ==> x !in e)
      && (!Within(x, part) ==> At(e, x) == At(d, x) && At(e, Rebase(x, src, dst)) == At(d, Rebase(x, src, dst)))
  {
    hide MoveTree;
    var part', x' := Rebase(part, src, dst), Rebase(x, src, dst);
    RebaseWithin(part, src, dst);
    RebaseWithin(x, src, dst);
    MoveTreeAt(d, part, part', x);
    MoveTreeAt(d, part, part', x');
    if Within(x, part') { BelowTransitive(x, part', dst); CommonDescendant(x, src, dst); }
    if Within(x', part) { BelowTransitive(x', part, src); CommonDescendant(x', src, dst); }
    IncomparableRebase(x, part, src, dst);
  }

  lemma PartKeepsMergeable(d: Disk, src: string, dst: string, part: string)
    requires Incomparable(src, dst) && Within(part, src) && Mergeable(d, src, dst)
    ensures Mergeable(MoveTree(d, part, Rebase(part, src, dst)), src, dst)
  {
    hide MoveTree, Incomparable;
    var e := MoveTree(d, part, Rebase(part, src, dst));
    forall x | x in e && Within(x, src) && Rebase(x, src, dst) in e
      ensures e[x].DirNode? <==> e[Rebase(x, src, dst)].DirNode?
    {
      PartKeepsNode(d, src, dst, part, x);
    }
  }

  lemma PartKeepsParent(d: Disk, src: string, dst: string, part: string)
    requires Incomparable(src, dst) && Within(part, src) && dst != ""
    requires ParentDir(dst) == "" || IsDir(d, ParentDir(dst))
    ensures ParentDir(dst) == "" || IsDir(MoveTree(d, part, Rebase(part, src, dst)), ParentDir(dst))
  {
    hide MoveTree, ParentDir;
    var part', up := Rebase(part, src, dst), ParentDir(dst);
    RebaseWithin(part, src, dst);
    MoveTreeAt(d, part, part', up);
    if up != "" {
      assert Below(dst, up) && !Within(up, dst);
      if Within(up, part') { BelowTransitive(up, part', dst); }
      if Within(up, part) { BelowTransitive(up, part, src); BelowTransitive(dst, up, src); }
    }
  }

  lemma PartOutcome(d: Disk, part: string, to: string)
    requires Tree(d) && RenameOutcome(d, part, to).Done? && part != to
    ensures part != "" && (ParentDir(to) == "" || IsDir(d, ParentDir(to)))
  {
  }

  lemma MovesPartKeeps(d0: Disk, d: Disk, e: Disk, src: string, dst: string, part: string)
    requires Incomparable(src, dst) && src != "" && dst != "" && Halfway(d0, d, src, dst)
    requires MovesPart(d, e, src, dst, part)
    ensures Halfway(d0, e, src, dst)
  {
    hide MoveTree, Mergeable, Tree, ParentDir, RenameOutcome, Incomparable;
    var part' := Rebase(part, src, dst);
    PartIsApart(src, dst, part);
    assert part != part' by { ApartDiffers(part, part'); }
    PartOutcome(d, part, part');
    EntryOfMergeable(d, src, dst, part);
    RebaseWithin(part, src, dst);
    MoveKeepsTree(d, part, part');
    MoveAbsorbsPart(d, src, dst, part);
    PartKeepsMergeable(d, src, dst, part);
    PartKeepsParent(d, src, dst, part);
  }

  lemma ApartDiffers(a: string, b: string)
    requires Incomparable(a, b)
    ensures a != b
  {
  }

  lemma DropKeepsMove(d: Disk, src: string, dst: string, x: string)
    requires Incomparable(src, dst) && Within(x, src) && IsDir(d, x) && IsDir(d, Rebase(x, src, dst))
    ensures MoveTree(d - {x}, src, dst) == MoveTree(d, src, dst)
  {
    hide MoveTree;
    var e := d - {x};
    RebaseWithin(x, src, dst);
    forall q ensures At(MoveTree(e, src, dst), q) == At(MoveTree(d, src, dst), q) {
      MoveTreeAt(d, src, dst, q);
      MoveTreeAt(e, src, dst, q);
      if Within(q, dst) {
        RebaseWithin(q, dst, src);
        NotBoth(q, src, dst);
      }
    }
    SameDisk(MoveTree(e, src, dst), MoveTree(d, src, dst));
  }

  lemma DropsEmptiedKeeps(d0: Disk, d: Disk, e: Disk, src: string, dst: string, x: string)
    requires Incomparable(src, dst) && src != "" && dst != "" && Halfway(d0, d, src, dst)
    requires DropsEmptied(d, e, src, dst, x)
    ensures Halfway(d0, e, src, dst)
  {
    hide MoveTree, ParentDir;
    DropKeepsMove(d, src, dst, x);
    forall q | q in e && ParentDir(q) != "" ensures ParentDir(q) != x {
      assert Below(q, ParentDir(q));
    }
    if ParentDir(dst) == x {
      assert Below(dst, x);
      BelowTransitive(dst, x, src);
    }
  }

  lemma RoomKeepsMove(d: Disk, src: string, dst: string, x: string)
    requires Incomparable(src, dst) && Within(x, src) && IsDir(d, x) && Rebase(x, src, dst) !in d
    ensures MoveTree(d[Rebase(x, src, dst) := DirNode], src, dst) == MoveTree(d, src, dst)
  {
    hide MoveTree;
    var x' := Rebase(x, src, dst);
    var e := d[x' := DirNode];
    RebaseWithin(x, src, dst);
    NotBoth(x', src, dst);
    forall q ensures At(MoveTree(e, src, dst), q) == At(MoveTree(d, src, dst), q) {
      MoveTreeAt(d, src, dst, q);
      MoveTreeAt(e, src, dst, q);
      if Within(q, dst) { RebaseWithin(q, dst, src); NotBoth(Rebase(q, dst, src), dst, src); }
    }
    SameDisk(MoveTree(e, src, dst), MoveTree(d, src, dst));
  }

  lemma RoomKeepsMergeable(d: Disk, src: string, dst: string, x: string)
    requires Incomparable(src, dst) && Within(x, src) && IsDir(d, x) && Rebase(x, src, dst) !in d
    requires Mergeable(d, src, dst)
    ensures Mergeable(d[Rebase(x, src, dst) := DirNode], src, dst)
  {
    var x' := Rebase(x, src, dst);
    var e := d[x' := DirNode];
    RebaseWithin(x, src, dst);
    NotBoth(x', src, dst);
    forall y | y in e && Within(y, src) && Rebase(y, src, dst) in e
      ensures e[y].DirNode? <==> e[Rebase(y, src, dst)].DirNode?
    {
      RebaseWithin(y, src, dst);
      if Rebase(y, src, dst) == x' { RebaseInjective(x, y, src, dst); }
    }
  }

  lemma MakesRoomKeeps(d0: Disk, d: Disk, e: Disk, src: string, dst: string, x: string)
    requires Incomparable(src, dst) && src != "" && dst != "" && Halfway(d0, d, src, dst)
    requires MakesRoom(d, e, src, dst, x)
    ensures Halfway(d0, e, src, dst)
  {
    hide MoveTree, Mergeable, Tree, ParentDir, Incomparable;
    RebaseWithin(x, src, dst);
    RoomKeepsMove(d, src, dst, x);
    RoomKeepsMergeable(d, src, dst, x);
    FreshTree(d, Rebase(x, src, dst));
  }

  lemma MicroStepKeeps(d0: Disk, d: Disk, e: Disk, src: string, dst: string)
    requires Incomparable(src, dst) && src != "" && dst != "" && Halfway(d0, d, src, dst) && MicroStep(d, e, src, dst)
    ensures Halfway(d0, e, src, dst)
  {
    hide Halfway, MovesPart, DropsEmptied, MakesRoom, Incomparable;
    var x :| MovesPart(d, e, src, dst, x) || DropsEmptied(d, e, src, dst, x) || MakesRoom(d, e, src, dst, x);
    if MovesPart(d, e, src, dst, x) { MovesPartKeeps(d0, d, e, src, dst, x); }
    else if DropsEmptied(d, e, src, dst, x) { DropsEmptiedKeeps(d0, d, e, src, dst, x); }
    else { MakesRoomKeeps(d0, d, e, src, dst, x); }
  }

  lemma {:induction false} TraceKeeps(ds: seq<Disk>, src: string, dst: string, i: nat)
    requires Incomparable(src, dst) && src != "" && dst != "" && IsTrace(ds, src, dst) && i < |ds|
    requires Halfway(ds[0], ds[0], src, dst)
    ensures Halfway(ds[0], ds[i], src, dst)
    decreases i
  {
    hide Halfway, MicroStep, Incomparable;
    if i > 0 {
      TraceKeeps(ds, src, dst, i - 1);
      MicroStepKeeps(ds[0], ds[i - 1], ds[i], src, dst);
    }
  }

  // ---- the three stretches of the operation ----------------------------------------------

  // `create_dir_all` stopped after the directories down to `made`.
  ghost predicate WhileCreating(w: World, p: string, c: World, made: string) {
    c.db == w.db && (made == "" || Within(ParentDir(p), made)) && c.disk == MkdirAll(w.disk, made)
  }

  ghost predicate WhileMoving(w: World, src: string, p: string, c: World, ds: seq<Disk>) {
    c.db == w.db && IsTrace(ds, src, p) && ds[0] == MkdirAll(w.disk, ParentDir(p)) && c.disk == ds[|ds| - 1]
  }

  ghost predicate BeforeFinish(w: World, src: string, p: string, c: World) {
    c.db == RenameRows(w.db, src, p) && c.disk == MovedDisk(w.disk, src, p)
  }

  lemma {:induction false} MkdirResumes(d: Disk, up: string, made: string)
    requires Tree(d) && MkdirOk(d, up) && (made == "" || Within(up, made))
    ensures MkdirAll(MkdirAll(d, made), up) == MkdirAll(d, up) && MkdirOk(MkdirAll(d, made), up)
    decreases |up|
  {
    if made == "" || up == made {
      if up != "" && up == made { MkdirEnds(d, up); }
    } else if up in d {
      AncestorIsDir(d, up, made);
    } else {
      MkdirAddsAncestors(d, made);
      assert !Within(made, up);
      ParentStaysWithin(up, made);
      MkdirResumes(d, ParentDir(up), made);
    }
  }

  lemma {:induction false} MkdirEnds(d: Disk, up: string)
    requires up != "" && MkdirOk(d, up)
    ensures IsDir(MkdirAll(d, up), up)
  {
  }

  lemma {:induction false} OkUpwards(d: Disk, up: string, made: string)
    requires Tree(d) && MkdirOk(d, up) && made != "" && Within(up, made)
    ensures MkdirOk(d, made)
    decreases |up|
  {
    if up != made {
      ParentStaysWithin(up, made);
      if up in d { AncestorIsDir(d, up, made); } else { OkUpwards(d, ParentDir(up), made); }
    }
  }

  lemma CreatingKeepsMovable(w: World, id: nat, p: string, c: World, made: string)
    requires Movable(w, id, p) && WhileCreating(w, p, c, made)
    ensures Movable(c, id, p) && MovedDisk(c.disk, w.db.items[id].path, p) == MovedDisk(w.disk, w.db.items[id].path, p)
  {
    hide MkdirAll, MkdirOk, LiteralOnly, Tree, MoveTree, Valid, Incomparable, ParentDir;
    var src, up := w.db.items[id].path, ParentDir(p);
    MkdirResumes(w.disk, up, made);
    if made == "" {
      NoMkdir(w.disk);
    } else {
      OkUpwards(w.disk, up, made);
      MkdirKeepsTree(w.disk, made);
      PartialSpares(w.disk, src, p, made);
    }
  }

  lemma NoMkdir(d: Disk)
    ensures MkdirAll(d, "") == d
  {
  }

  lemma PartialSpares(d: Disk, src: string, p: string, made: string)
    requires Incomparable(src, p) && p != "" && Within(ParentDir(p), made) && Mergeable(d, src, p) && made != ""
    ensures Mergeable(MkdirAll(d, made), src, p)
  {
    hide MkdirAll, ParentDir;
    var e := MkdirAll(d, made);
    MkdirAddsAncestors(d, made);
    forall q | q in e && q !in d ensures !Within(q, src) && !Within(q, p) {
      assert Below(p, ParentDir(p));
      BelowTransitive(ParentDir(p), made, q);
      BelowTransitive(p, ParentDir(p), q);
      if Within(q, src) { BelowTransitive(p, q, src); }
    }
    forall x | x in e && Within(x, src) && Rebase(x, src, p) in e
      ensures e[x].DirNode? <==> e[Rebase(x, src, p)].DirNode?
    {
      RebaseWithin(x, src, p);
    }
  }

  lemma MovingKeepsMovable(w: World, id: nat, p: string, c: World, ds: seq<Disk>)
    requires Movable(w, id, p) && WhileMoving(w, w.db.items[id].path, p, c, ds)
    ensures Movable(c, id, p) && MovedDisk(c.disk, w.db.items[id].path, p) == MovedDisk(w.disk, w.db.items[id].path, p)
  {
    hide MkdirAll, MkdirOk, LiteralOnly, Tree, MoveTree, Valid, Incomparable, Mergeable, MicroStep;
    var src, up := w.db.items[id].path, ParentDir(p);
    MkdirKeepsTree(w.disk, up);
    MkdirKeepsMergeable(w.disk, src, p);
    TraceKeeps(ds, src, p, |ds| - 1);
    MkdirIdle(c.disk, up);
  }

  // Wherever the crash falls, the second run ends in the same tree and the same tables.
  lemma CrashThenRetry(w: World, o: nat, id: nat, p: string, c: World, made: string, ds: seq<Disk>,
                       a: Answers, a': Answers, clock: nat -> int, clock': nat -> int)
    requires Movable(w, id, p) && Holds(w.db, o, id, RenameLocal(p))
    requires var src := w.db.items[id].path;
      WhileCreating(w, p, c, made) || WhileMoving(w, src, p, c, ds) || BeforeFinish(w, src, p, c)
    ensures var r, v := ExecOp(w, o, a, clock), ExecOp(c, o, a', clock');
      v.disk == r.disk && v.db == r.db
  {
    hide Movable, ExecOp, RenameRows, MovedDisk, WhileCreating, WhileMoving;
    var src := w.db.items[id].path;
    RenameRuns(w, o, id, p, a, clock);
    if BeforeFinish(w, src, p, c) {
      FinishedRetry(w, o, id, p, c, a', clock');
    } else {
      assert c.db == w.db by { CrashedDb(w, src, p, c, made, ds); }
      if WhileCreating(w, p, c, made) {
        CreatingKeepsMovable(w, id, p, c, made);
      } else {
        MovingKeepsMovable(w, id, p, c, ds);
      }
      RenameRuns(c, o, id, p, a', clock');
    }
  }

  lemma CrashedDb(w: World, src: string, p: string, c: World, made: string, ds: seq<Disk>)
    requires WhileCreating(w, p, c, made) || WhileMoving(w, src, p, c, ds)
    ensures c.db == w.db
  {
  }

  // The rows are rewritten and the operation is still queued: it renames the directory onto itself.
  lemma FinishedRetry(w: World, o: nat, id: nat, p: string, c: World, a: Answers, clock: nat -> int)
    requires Movable(w, id, p) && Holds(w.db, o, id, RenameLocal(p)) && BeforeFinish(w, w.db.items[id].path, p, c)
    ensures ExecOp(c, o, a, clock) == c.(db := FinishOp(c.db, o))
  {
    hide RenameRows, MovedDisk, LiteralOnly, Tree, Mergeable, Incomparable, MkdirOk, FindPath, Run, ParentDir,
        RenameLocalEffect;
    var src := w.db.items[id].path;
    RenamedRows(w.db, id, p);
    LoopKeepsPending(w.db, src, p, o);
    if o in c.db.ops && id in c.db.items {
      MovedParentStays(w, id, p);
      RowsStayValid(w.db, src, p);
      SelfRenameRuns(c, id, p);
      FinishRuns(c, o);
    } else {
      assert c.db.ops - {o} == c.db.ops;
    }
  }

  lemma RowsStayValid(db: Db, src: string, p: string)
    requires Valid(db)
    ensures Valid(RenameRows(db, src, p))
  {
    hide Valid, RenameLoop;
    RenameLoopKeepsValid(db, src, p, ScanOrder(db, src, db.nextItem));
  }

  lemma LoopKeepsPending(db: Db, src: string, p: string, o: nat)
    requires Valid(db) && o in db.ops
    ensures var after := RenameRows(db, src, p);
      (o in after.ops ==> after.ops[o] == db.ops[o] && after.ops[o].item in after.items)
  {
    hide RenameLoop;
    OpsShrinkLoop(db, src, p, ScanOrder(db, src, db.nextItem));
    RenameLoopKeepsValid(db, src, p, ScanOrder(db, src, db.nextItem));
  }

  lemma MovedParentStays(w: World, id: nat, p: string)
    requires Movable(w, id, p)
    ensures ParentDir(p) == "" || IsDir(MovedDisk(w.disk, w.db.items[id].path, p), ParentDir(p))
  {
    hide MkdirAll, MkdirOk, LiteralOnly, Tree, MoveTree, Valid, Incomparable, Mergeable, ParentDir;
    MkdirKeepsTree(w.disk, ParentDir(p));
    ParentStays(MkdirAll(w.disk, ParentDir(p)), w.db.items[id].path, p);
  }
}
