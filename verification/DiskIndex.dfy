// A local rename moves the files and the index together: before and after it, the live rows are
// exactly a description of what is on disk. And it may be cut off anywhere and run again.
module DiskIndex {
  import opened Paths
  import opened Tables
  import opened RenameSubtree
  import opened Disk
  import opened MergeMove
  import opened World
  import opened Runtime
  import opened Draining
  import opened RedeliveryCases
  import opened Quiescence

  // The node a live row describes.
  ghost predicate Names(row: Row, d: Disk) {
    match row.kind
    case Dir => IsDir(d, row.path)
    case File => IsFile(d, row.path) && (row.state.Skipped? || Fingerprinted(row, d[row.path].bytes))
  }

  ghost predicate RowsNameNodes(db: Db, d: Disk) {
    forall i :: i in db.items && db.items[i].trashedAt.None? ==> Names(db.items[i], d)
  }

  ghost predicate LiveAt(db: Db, q: string) {
    exists i :: i in db.items && db.items[i].path == q && db.items[i].trashedAt.None?
  }

  ghost predicate NodesHaveRows(db: Db, d: Disk) {
    forall q :: q in d ==> LiveAt(db, q)
  }

  // What a rename needs: the two places are unrelated, no name differs from them in case only, and
  // where both subtrees have a node the kinds agree.
  ghost predicate Movable(w: World, id: nat, p: string) {
    && Valid(w.db) && Tree(w.disk) && id in w.db.items && p != "" && w.db.items[id].path != ""
    && Incomparable(w.db.items[id].path, p)
    && LiteralOnly(w.db, w.db.items[id].path) && LiteralOnly(w.db, p)
    && MkdirOk(w.disk, ParentDir(p)) && Mergeable(w.disk, w.db.items[id].path, p)
  }

  // Where both subtrees have a node they hold the same.
  ghost predicate OverlapAgrees(d: Disk, src: string, dst: string) {
    forall x :: x in d && Within(x, src) && Rebase(x, src, dst) in d ==> d[x] == d[Rebase(x, src, dst)]
  }

  ghost predicate NoTombstoneUnder(db: Db, p: string) {
    forall i :: i in db.items && Within(db.items[i].path, p) ==> db.items[i].trashedAt.None?
  }

  // ---- what running the operation amounts to ---------------------------------------------

  // Nothing the new directories add lies within either place.
  lemma MkdirSpares(d: Disk, src: string, p: string, q: string)
    requires Incomparable(src, p) && p != "" && (Within(q, src) || Within(q, p))
    ensures At(MkdirAll(d, ParentDir(p)), q) == At(d, q)
  {
    hide MkdirAll, ParentDir;
    var up := ParentDir(p);
    MkdirAddsAncestors(d, up);
    if q in MkdirAll(d, up) && q !in d {
      assert Below(p, q) by { BelowTransitive(p, up, q); }
      if Within(q, src) { BelowTransitive(p, q, src); }
    }
  }

  lemma MkdirKeepsMergeable(d: Disk, src: string, p: string)
    requires Incomparable(src, p) && p != "" && Mergeable(d, src, p)
    ensures Mergeable(MkdirAll(d, ParentDir(p)), src, p)
  {
    hide MkdirAll, ParentDir;
    var e := MkdirAll(d, ParentDir(p));
    forall x | x in e && Within(x, src) && Rebase(x, src, p) in e
      ensures e[x].DirNode? <==> e[Rebase(x, src, p)].DirNode?
    {
      RebaseWithin(x, src, p);
      MkdirSpares(d, src, p, x);
      MkdirSpares(d, src, p, Rebase(x, src, p));
    }
  }

  // With the parent in place the rename or the merge goes through.
  lemma MoveSucceeds(d: Disk, src: string, p: string)
    requires Tree(d) && src != "" && p != "" && Incomparable(src, p) && Mergeable(d, src, p)
    requires ParentDir(p) == "" || IsDir(d, ParentDir(p))
    ensures !RenameOutcome(d, src, p).Refused?
    ensures RenameOutcome(d, src, p).NotFound? ==> MoveTree(d, src, p) == d
  {
    hide Tree, MoveTree, ParentDir;
    RebaseSelf(src, p);
    if src !in d {
      forall q | q in d ensures !Within(q, src) {
        if Below(q, src) { AncestorIsDir(d, q, src); }
      }
      MoveNothing(d, src, p);
    }
  }

  ghost function MovedDisk(d: Disk, src: string, p: string): Disk {
    MoveTree(MkdirAll(d, ParentDir(p)), src, p)
  }

  // The operation, whichever way the files move.
  lemma RenameRuns(w: World, o: nat, id: nat, p: string, a: Answers, clock: nat -> int)
    requires Movable(w, id, p) && Holds(w.db, o, id, RenameLocal(p))
    ensures var src := w.db.items[id].path;
      && ExecOp(w, o, a, clock) == w.(disk := MovedDisk(w.disk, src, p), db := FinishOp(RenameRows(w.db, src, p), o))
      && ExecEffect(w, id, RenameLocal(p), a, clock(o)).ok
  {
    hide Tree, RenameRows, MoveTree, Mergeable, LiteralOnly, MkdirAll, MkdirOk, ParentDir, Incomparable, RenameOutcome,
        ExecOp, Run;
    var src := w.db.items[id].path;
    MkdirKeepsTree(w.disk, ParentDir(p));
    MkdirKeepsMergeable(w.disk, src, p);
    MoveSucceeds(MkdirAll(w.disk, ParentDir(p)), src, p);
    ExecRename(w, o, id, p, a, clock);
  }

  // ---- agreement -------------------------------------------------------------------------

  // What lies at q after the move.
  lemma MovedAt(d: Disk, src: string, p: string, q: string)
    requires Incomparable(src, p) && p != "" && OverlapAgrees(d, src, p)
    ensures q in d && !Within(q, src) ==> At(MovedDisk(d, src, p), q) == At(d, q)
    ensures Within(q, src) ==> At(MovedDisk(d, src, p), Rebase(q, src, p)) == if q in d then At(d, q)
        else At(d, Rebase(q, src, p))
  {
    hide MoveTree, MkdirAll, ParentDir;
    var e := MkdirAll(d, ParentDir(p));
    MkdirAddsAncestors(d, ParentDir(p));
    if Within(q, src) {
      var q' := Rebase(q, src, p);
      RebaseWithin(q, src, p);
      MkdirSpares(d, src, p, q);
      MkdirSpares(d, src, p, q');
      MoveTreeAt(e, src, p, q');
      if Within(q', src) { CommonDescendant(q', src, p); }
    } else if q in d {
      MoveTreeAt(e, src, p, q);
      if Within(q, p) {
        RebaseWithin(q, p, src);
        MkdirSpares(d, src, p, Rebase(q, p, src));
      }
    }
  }

  lemma NamesAt(row: Row, d: Disk, q: string, e: Disk)
    requires Names(row, d) && At(e, q) == At(d, row.path)
    ensures Names(row.(path := q), e)
  {
  }

  lemma RowsStayNamed(w: World, id: nat, p: string)
    requires Movable(w, id, p) && OverlapAgrees(w.disk, w.db.items[id].path, p) && RowsNameNodes(w.db, w.disk)
    ensures var src := w.db.items[id].path; RowsNameNodes(RenameRows(w.db, src, p), MovedDisk(w.disk, src, p))
  {
    hide RenameLoop, Tree, MovedDisk, LiteralOnly, Incomparable, Mergeable, MkdirOk, Names, OverlapAgrees, FindPath;
    var src := w.db.items[id].path;
    RenameMeaning(w.db, src, p, ScanOrder(w.db, src, w.db.nextItem));
    var after, d := RenameRows(w.db, src, p), MovedDisk(w.disk, src, p);
    forall i | i in after.items && after.items[i].trashedAt.None? ensures Names(after.items[i], d) {
      var q := w.db.items[i].path;
      NamedIsThere(w.db.items[i], w.disk);
      MovedAt(w.disk, src, p, q);
      NamesAt(w.db.items[i], w.disk, if Within(q, src) then Rebase(q, src, p) else q, d);
    }
  }

  lemma NamedIsThere(row: Row, d: Disk)
    requires Names(row, d)
    ensures row.path in d
  {
  }

  // Where a node after the move comes from.
  lemma MovedFrom(d: Disk, src: string, p: string, q: string)
    requires Incomparable(src, p) && p != "" && q in MovedDisk(d, src, p)
    ensures (Within(q, p) && Rebase(q, p, src) in d) || (q in d && !Within(q, src)) || (q !in d && Below(p, q))
  {
    hide MoveTree, MkdirAll, ParentDir;
    var e := MkdirAll(d, ParentDir(p));
    MkdirAddsAncestors(d, ParentDir(p));
    MoveTreeAt(e, src, p, q);
    if Within(q, p) && Rebase(q, p, src) in e {
      RebaseWithin(q, p, src);
      MkdirSpares(d, src, p, Rebase(q, p, src));
    } else if q !in d {
      BelowTransitive(p, ParentDir(p), q);
    }
  }

  // The row at x still has a live row at its new place, or another live row was there before.
  lemma RowFollows(db: Db, src: string, p: string, x: string)
    requires Valid(db) && LiteralOnly(db, src) && Incomparable(src, p) && NoTombstoneUnder(db, p) && LiveAt(db, x)
    ensures LiveAt(RenameRows(db, src, p), if Within(x, src) then Rebase(x, src, p) else x)
  {
    hide RenameLoop, LiteralOnly, Incomparable, FindPath;
    RenameMeaning(db, src, p, ScanOrder(db, src, db.nextItem));
    var after := RenameRows(db, src, p);
    var i :| i in db.items && db.items[i].path == x && db.items[i].trashedAt.None?;
    if Within(x, src) {
      var q := Rebase(x, src, p);
      RebaseWithin(x, src, p);
      if i in after.items {
        assert after.items[i].path == q;
      } else {
        var j := FindPath(db, q).value;
        NotBoth(q, src, p);
        assert after.items[j] == db.items[j];
      }
    } else {
      assert after.items[i] == db.items[i];
    }
  }

  lemma NodesStayCovered(w: World, id: nat, p: string, q: string)
    requires Movable(w, id, p) && NoTombstoneUnder(w.db, p) && NodesHaveRows(w.db, w.disk)
    requires var src := w.db.items[id].path; q in MovedDisk(w.disk, src, p) && !(q !in w.disk && Below(p, q))
    ensures LiveAt(RenameRows(w.db, w.db.items[id].path, p), q)
  {
    hide RenameRows, Tree, MovedDisk, LiteralOnly, Incomparable, Mergeable, MkdirOk, LiveAt, NoTombstoneUnder;
    var src := w.db.items[id].path;
    MovedFrom(w.disk, src, p, q);
    if Within(q, p) && Rebase(q, p, src) in w.disk {
      RebaseWithin(q, p, src);
      RowFollows(w.db, src, p, Rebase(q, p, src));
    } else {
      RowFollows(w.db, src, p, q);
    }
  }

  lemma NotBoth(q: string, src: string, p: string)
    requires Incomparable(src, p) && Within(q, p)
    ensures !Within(q, src)
  {
    if Within(q, src) { CommonDescendant(q, src, p); }
  }

  // Disk and index agree before and after, in both directions. The only nodes without a row are
  // parents of the destination the operation had to create.
  lemma RenameKeepsAgreement(w: World, o: nat, id: nat, p: string, a: Answers, clock: nat -> int)
    requires Movable(w, id, p) && Holds(w.db, o, id, RenameLocal(p))
    requires OverlapAgrees(w.disk, w.db.items[id].path, p) && NoTombstoneUnder(w.db, p)
    requires RowsNameNodes(w.db, w.disk) && NodesHaveRows(w.db, w.disk)
    ensures var v := ExecOp(w, o, a, clock);
      && RowsNameNodes(v.db, v.disk)
      && (forall q :: q in v.disk && !(q !in w.disk && Below(p, q)) ==> LiveAt(v.db, q))
      && (forall q :: q in v.disk ==> !Within(q, w.db.items[id].path))
  {
    hide Movable, ExecOp, RenameRows, MovedDisk, Below, Names, Within;
    var src := w.db.items[id].path;
    RenameRuns(w, o, id, p, a, clock);
    RowsStayNamed(w, id, p);
    SourceIsEmpty(w, id, p);
    forall q | q in MovedDisk(w.disk, src, p) && !(q !in w.disk && Below(p, q))
      ensures LiveAt(RenameRows(w.db, src, p), q)
    {
      NodesStayCovered(w, id, p, q);
    }
  }

  lemma SourceIsEmpty(w: World, id: nat, p: string)
    requires Movable(w, id, p)
    ensures var src := w.db.items[id].path; forall q :: q in MovedDisk(w.disk, src, p) ==> !Within(q, src)
  {
    var src := w.db.items[id].path;
    hide MoveTree, MkdirAll, ParentDir, Tree, LiteralOnly, Mergeable;
    forall q | q in MovedDisk(w.disk, src, p) ensures !Within(q, src) {
      MoveTreeAt(MkdirAll(w.disk, ParentDir(p)), src, p, q);
      if Within(q, p) { NotBoth(q, src, p); }
    }
  }
}
