// End to end: one change on either side, the operation it queues, and what the other side looks
// like once that operation has run.
module Propagation {
  import opened Paths
  import opened Tables
  import opened RenameSubtree
  import opened Disk
  import opened MergeMove
  import opened World
  import opened Continuous
  import opened Runtime
  import opened Invariants
  import opened Draining
  import opened Redelivery
  import opened RedeliveryCases
  import opened Idempotence
  import opened RemoteFolders
  import opened DiskIndex

  ghost function Delivered(w: World, c: Change, now: int, a: Answers, clock: nat -> int): World {
    Drain(Deliver(w, c, now), a, clock)
  }

  ghost function Observed(w: World, e: WatchEvent, now: int, a: Answers, clock: nat -> int): World {
    Drain(Run(w, LocalActs(w, e, [], now)), a, clock)
  }

  // Nothing is queued, and the node is new to the index under a free path.
  ghost predicate IsNew(w: World, c: Change, rel: string) {
    EmptyQueue(w) && Live(w, c) && FindRemote(w.db, c.fileId).None? && FindPath(w.db, rel).None?
  }

  // ---- from Drive to disk ----------------------------------------------------------------

  lemma ImportDrains(w: World, c: Change, now: int, row: Row, op: Operation, a: Answers, clock: nat -> int)
    requires EmptyQueue(w) && FindPath(w.db, row.path).None?
    requires RemoteActs(w, c, now) == Some([InsertItem(row), Queue(w.db.nextItem, op, now)])
    ensures var w1, id, o := Deliver(w, c, now), w.db.nextItem, w.db.nextOp;
      && w1.disk == w.disk && w1.drive == w.drive && w1.db.items == w.db.items[id := row] && id !in w.db.items
      && Holds(w1.db, o, id, op) && Delivered(w, c, now, a, clock) == ExecOp(w1, o, a, clock)
  {
    hide Run, RemoteActs, Inv, ExecOp, Drain, FindPath;
    InsertThenQueue(w, row, op, now);
    RunTwo(w, InsertItem(row), Queue(w.db.nextItem, op, now));
    OnlyOne(Deliver(w, c, now), w.db.nextOp, w.db.nextItem, op, a, clock);
    assert Inv(w.db);
    NextIsFree(w.db);
  }

  lemma NextIsFree(db: Db)
    requires Inv(db)
    ensures db.nextItem !in db.items
  {
  }

  // A new file: its bytes at its path, and a row that records them.
  lemma NewFileArrives(w: World, c: Change, now: int, rel: string, a: Answers, clock: nat -> int)
    requires IsNew(w, c, rel) && rel == Default(c.path, c.file.value.name) && c.file.value.mime.Opaque?
    requires c.file.value.md5.Some?
    requires a.reply.Accepted? && c.fileId in w.drive && MkdirOk(w.disk, ParentDir(rel)) && !IsDir(w.disk, rel)
    ensures var v, bytes := Delivered(w, c, now, a, clock), w.drive[c.fileId].bytes;
      && v.disk == MkdirAll(w.disk, ParentDir(rel))[rel := FileNode(bytes)] && v.drive == w.drive
      && v.db.items == w.db.items[w.db.nextItem :=
           Row(rel, File, Some(c.fileId), Some(|bytes|), Some(Md5(bytes)), clock(w.db.nextOp), PendingLocal, None)]
  {
    hide Run, Inv, ExecOp, Delivered, FindPath, FindRemote, MkdirAll, MkdirOk, ParentDir;
    var f := c.file.value;
    var row := NewRemote(rel, File, f.id, Some(Default(f.size, 0)), f.md5, PendingLocal);
    var op := PullOf(f, rel);
    assert RemoteActs(w, c, now) == FileActs(w, c, None, now);
    ImportDrains(w, c, now, row, op, a, clock);
    var w1 := Deliver(w, c, now);
    assert ExecEffect(w1, w.db.nextItem, op, a, clock(w.db.nextOp)).ok;
    hide ExecEffect, RemoteActs, Deliver;
    ExecDownloadOp(w1, w.db.nextOp, w.db.nextItem, op, a, clock);
  }

  // A new folder: a directory, and a synced row.
  lemma NewFolderArrives(w: World, c: Change, now: int, rel: string, a: Answers, clock: nat -> int)
    requires IsNew(w, c, rel) && rel == Default(c.path, c.file.value.name) && c.file.value.mime.FolderMime?
    requires MkdirOk(w.disk, rel)
    ensures var v := Delivered(w, c, now, a, clock);
      && v.disk == MkdirAll(w.disk, rel) && v.drive == w.drive
      && v.db.items == w.db.items[w.db.nextItem := Row(rel, Dir, Some(c.fileId), None, None, 0, Synced, None)]
  {
    hide Run, Inv, Delivered, FindPath, FindRemote, MkdirAll, MkdirOk;
    var row := NewRemote(rel, Dir, c.file.value.id, None, None, PendingLocal);
    assert RemoteActs(w, c, now) == Some(FolderActs(w, c, None, now));
    ImportDrains(w, c, now, row, CreateDirLocal, a, clock);
    var w1, id := Deliver(w, c, now), w.db.nextItem;
    hide RemoteActs, Deliver;
    RunTwo(w1, MakeDirs(rel), Lifecycle(id, Synced));
    FinishRuns(Run(w1, [MakeDirs(rel), Lifecycle(id, Synced)]), w.db.nextOp);
  }

  // A new native document: its pointer under the extended name, and a skipped row.
  lemma NewNativeArrives(w: World, c: Change, now: int, rel: string, a: Answers, clock: nat -> int)
    requires IsNew(w, c, rel) && c.file.value.mime.NativeDoc?
    requires rel == ShortcutPath(Default(c.path, c.file.value.name), c.file.value.mime.ext)
    requires MkdirOk(w.disk, ParentDir(rel)) && !IsDir(w.disk, rel)
    ensures var v, f := Delivered(w, c, now, a, clock), c.file.value;
      && v.disk == MkdirAll(w.disk, ParentDir(rel))[rel := FileNode(f.mime.pointer)] && v.drive == w.drive
      && v.db.items == w.db.items[w.db.nextItem := Row(rel, File, Some(c.fileId), None, None, 0, Skipped, None)]
  {
    hide Run, Inv, Delivered, FindPath, FindRemote, MkdirAll, MkdirOk, ParentDir, ShortcutPath;
    var f := c.file.value;
    var row := NewRemote(rel, File, f.id, None, None, Skipped);
    assert RemoteActs(w, c, now) == NativeActs(w, c, None, now);
    ImportDrains(w, c, now, row, WriteShortcut(f.mime.pointer), a, clock);
    var w1 := Deliver(w, c, now);
    hide RemoteActs, Deliver;
    var up := MakeDirs(ParentDir(rel));
    RunTwo(w1, up, WriteFile(rel, f.mime.pointer));
    FinishRuns(Run(w1, [up, WriteFile(rel, f.mime.pointer)]), w.db.nextOp);
  }

  lemma QueuedDrains(w: World, c: Change, now: int, id: nat, op: Operation, a: Answers, clock: nat -> int)
    requires EmptyQueue(w) && id in w.db.items && RemoteActs(w, c, now) == Some([Queue(id, op, now)])
    ensures var w1, o := Deliver(w, c, now), w.db.nextOp;
      && EqButOps(w1, w) && Holds(w1.db, o, id, op) && Delivered(w, c, now, a, clock) == ExecOp(w1, o, a, clock)
  {
    hide Run, RemoteActs, Inv, ExecOp, Drain;
    QueueOne(w, id, op, now);
    OnlyOne(Deliver(w, c, now), w.db.nextOp, id, op, a, clock);
  }

  // A permanent removal, or a folder put in the trash: nothing is left at the path or below it, and the
  // row is gone.
  lemma RemovalArrives(w: World, c: Change, now: int, id: nat, a: Answers, clock: nat -> int)
    requires EmptyQueue(w) && c.fileId !in w.inFlight && FindRemote(w.db, c.fileId) == Some(id)
    requires c.removed || (c.file.Some? && c.file.value.trashed && w.db.items[id].kind.Dir?)
    requires w.db.items[id].kind.File? ==> !IsDir(w.disk, w.db.items[id].path)
    requires w.db.items[id].kind.Dir? ==> !IsFile(w.disk, w.db.items[id].path)
    ensures var v := Delivered(w, c, now, a, clock);
      v.disk == Removed(w.disk, w.db.items[id].path) && v.drive == w.drive && v.db.items == w.db.items - {id}
  {
    hide Run, Delivered, FindRemote, Removed, ExecOp;
    assert w.db.items[id].kind.Dir? ==> w.db.items[id].trashedAt.None? by { InvRow(w.db, id); }
    hide Inv;
    QueuedDrains(w, c, now, id, DeleteLocal(false), a, clock);
    RemovalRuns(Deliver(w, c, now), w.db.nextOp, id, a, clock);
  }

  lemma RemovalRuns(w: World, o: nat, id: nat, a: Answers, clock: nat -> int)
    requires Holds(w.db, o, id, DeleteLocal(false))
    requires w.db.items[id].kind.File? ==> !IsDir(w.disk, w.db.items[id].path)
    requires w.db.items[id].kind.Dir? ==> !IsFile(w.disk, w.db.items[id].path)
    ensures var v := ExecOp(w, o, a, clock);
      v.disk == Removed(w.disk, w.db.items[id].path) && v.drive == w.drive && v.db.items == w.db.items - {id}
  {
    hide Run, Removed;
    var path := w.db.items[id].path;
    RunTwo(w, RemoveTree(path), DeleteItem(id));
    FinishRuns(Run(w, [RemoveTree(path), DeleteItem(id)]), o);
  }

  // Node by node: what lay under src lies under p, over whatever was there; the rest is untouched.
  ghost predicate SubtreeMoved(d: Disk, e: Disk, src: string, p: string) {
    && (forall q :: q in d && Within(q, src) ==> At(e, Rebase(q, src, p)) == Some(d[q]))
    && (forall q :: q in e ==> !Within(q, src))
    && (forall q :: q in d && !Within(q, src) && !(Within(q, p) && Rebase(q, p, src) in d) ==> At(e, q) == Some(d[q]))
  }

  // Row by row, likewise: a row that finds its new path taken is dropped.
  ghost predicate RowsMoved(db: Db, items: map<nat, Row>, src: string, p: string) {
    && (forall j :: j in items ==> j in db.items && !Within(items[j].path, src))
    && (forall j :: j in db.items && !Within(db.items[j].path, src) ==> j in items && items[j] == db.items[j])
    && (forall j :: j in db.items && Within(db.items[j].path, src) ==>
          var q := Rebase(db.items[j].path, src, p);
          && (j in items <==> FindPath(db, q).None?)
          && (j in items ==> items[j] == db.items[j].(path := q)))
  }

  lemma DiskMoves(d: Disk, src: string, p: string)
    requires Incomparable(src, p) && p != ""
    ensures SubtreeMoved(d, MovedDisk(d, src, p), src, p)
  {
    hide MoveTree, MkdirAll, ParentDir;
    var e, m := MkdirAll(d, ParentDir(p)), MovedDisk(d, src, p);
    MkdirAddsAncestors(d, ParentDir(p));
    forall q | q in d && Within(q, src) ensures At(m, Rebase(q, src, p)) == Some(d[q]) {
      RebaseWithin(q, src, p);
      MoveTreeAt(e, src, p, Rebase(q, src, p));
    }
    forall q | q in m ensures !Within(q, src) {
      MoveTreeAt(e, src, p, q);
      if Within(q, p) { NotBoth(q, src, p); }
    }
    forall q | q in d && !Within(q, src) && !(Within(q, p) && Rebase(q, p, src) in d) ensures At(m, q) == Some(d[q]) {
      MoveTreeAt(e, src, p, q);
      if Within(q, p) {
        RebaseWithin(q, p, src);
        MkdirSpares(d, src, p, Rebase(q, p, src));
      }
    }
  }

  lemma RowsMove(db: Db, src: string, p: string)
    requires Valid(db) && LiteralOnly(db, src) && Incomparable(src, p)
    ensures RowsMoved(db, RenameRows(db, src, p).items, src, p)
  {
    hide RenameLoop, FindPath;
    RenameMeaning(db, src, p, ScanOrder(db, src, db.nextItem));
  }

  lemma MovableIgnoresQueue(w: World, v: World, id: nat, p: string)
    requires Movable(w, id, p) && EqButOps(v, w) && Valid(v.db)
    ensures Movable(v, id, p)
  {
    hide Valid, Incomparable, Mergeable, Tree, MkdirOk;
    forall src | LiteralOnly(w.db, src) ensures LiteralOnly(v.db, src) { LiteralByPaths(w.db, v.db, src); }
  }

  // A queued rename and its turn.
  lemma RenameDrains(w: World, c: Change, now: int, id: nat, rel: string, a: Answers, clock: nat -> int)
    requires EmptyQueue(w) && Movable(w, id, rel) && RemoteActs(w, c, now) == Some([Queue(id, RenameLocal(rel), now)])
    ensures var v, src := Delivered(w, c, now, a, clock), w.db.items[id].path;
      SubtreeMoved(w.disk, v.disk, src, rel) && RowsMoved(w.db, v.db.items, src, rel) && v.drive == w.drive
  {
    hide Run, Inv, Delivered, RenameRows, ExecOp, Movable, MovedDisk, SubtreeMoved, RowsMoved, RemoteActs, Deliver,
      ExecEffect;
    Apart(w, id, rel);
    var w1, src := Deliver(w, c, now), w.db.items[id].path;
    QueuedDrains(w, c, now, id, RenameLocal(rel), a, clock);
    DeliverKeepsInv(w, c, now);
    InvIsValid(w1.db);
    MovableIgnoresQueue(w, w1, id, rel);
    RenameRuns(w1, w.db.nextOp, id, rel, a, clock);
    DiskMoves(w.disk, src, rel);
    RowsMove(w1.db, src, rel);
    SameRowsMoved(w1.db, w.db, RenameRows(w1.db, src, rel).items, src, rel);
  }

  // A folder renamed or moved on Drive: the subtree moves on disk and in the index.
  lemma FolderMoveArrives(w: World, c: Change, now: int, id: nat, rel: string, a: Answers, clock: nat -> int)
    requires EmptyQueue(w) && Live(w, c) && c.file.value.mime.FolderMime? && rel == Default(c.path, c.file.value.name)
    requires FindRemote(w.db, c.fileId) == Some(id) && Movable(w, id, rel)
    ensures var v, src := Delivered(w, c, now, a, clock), w.db.items[id].path;
      SubtreeMoved(w.disk, v.disk, src, rel) && RowsMoved(w.db, v.db.items, src, rel) && v.drive == w.drive
  {
    hide Inv, Delivered, FindRemote, Movable, SubtreeMoved, RowsMoved;
    Apart(w, id, rel);
    RenameDrains(w, c, now, id, rel, a, clock);
  }

  // A file's directory was renamed on Drive, not the file: it is still in the folder the index has at
  // its old parent path.
  ghost predicate CameAlong(db: Db, f: Snapshot, src: string, p: string) {
    && ParentDir(src) != "" && ParentDir(p) != ParentDir(src) && f.parents != []
    && exists i :: i in db.items && db.items[i].path == ParentDir(src) && db.items[i].remoteId == Some(f.parents[0])
  }

  // One node moved from src to p, directories made for it where there were none ...
  ghost predicate NodeMoved(d: Disk, e: Disk, src: string, p: string, bytes: Bytes) {
    && At(e, src) == None && At(e, p) == Some(FileNode(bytes))
    && (forall q :: q in d && q != src ==> At(e, q) == Some(d[q]))
    && (forall q :: q in e && q !in d && q != p ==> Below(p, q) && e[q] == DirNode)
  }

  // ... and one row with it; the rest is untouched.
  ghost predicate FileMoved(w: World, v: World, id: nat, src: string, p: string, bytes: Bytes, row: Row) {
    && NodeMoved(w.disk, v.disk, src, p, bytes) && v.drive == w.drive
    && id in v.db.items && v.db.items[id] == row && (forall j :: j in v.db.items ==> j in w.db.items)
    && (forall j :: j in w.db.items && !Within(w.db.items[j].path, src) ==>
          j in v.db.items && v.db.items[j] == w.db.items[j])
  }

  // A file renamed or moved on Drive: its row follows, and so does the local copy, with Drive's bytes
  // if they are new.
  lemma FileMoveArrives(w: World, c: Change, now: int, id: nat, p: string, a: Answers, clock: nat -> int)
    requires EmptyQueue(w) && Live(w, c) && c.file.value.mime.Opaque? && c.file.value.md5.Some? && c.path == Some(p)
    requires FindRemote(w.db, c.fileId) == Some(id) && w.db.items[id].trashedAt.None?
    requires IsFile(w.disk, w.db.items[id].path) && Movable(w, id, p) && p !in w.disk && FindPath(w.db, p).None?
    requires !CameAlong(w.db, c.file.value, w.db.items[id].path, p) && a.reply.Accepted? && c.fileId in w.drive
    ensures var v, row, bytes := Delivered(w, c, now, a, clock), w.db.items[id], w.drive[c.fileId].bytes;
      if row.md5 != c.file.value.md5 || row.size != Some(Default(c.file.value.size, 0)) then
        FileMoved(w, v, id, row.path, p, bytes, row.(path := p, size := Some(|bytes|), md5 := Some(Md5(bytes)),
            syncedAt := clock(w.db.nextOp + 1)))
      else FileMoved(w, v, id, row.path, p, w.disk[row.path].bytes, row.(path := p))
  {
    hide EmptyQueue, Inv, Live, Movable, CameAlong, Deliver, Drain, ExecOp, FileMoved, Holds, EqButOps, RemoteActs,
      FindRemote, FindPath, ParentDir;
    SameId(w, c);
    Apart(w, id, p);
    var f, row := c.file.value, w.db.items[id];
    var w1, src, n := Deliver(w, c, now), row.path, w.db.nextOp;
    MoveQueues(w, c, now, id, p);
    RenameLands(w, w1, n, id, p, a, clock);
    if row.md5 != f.md5 || row.size != Some(Default(f.size, 0)) {
      TwoTurns(w1, n, a, clock);
      PullLands(w, ExecOp(w1, n, a, clock), n + 1, id, src, p, w.disk[src].bytes, row.(path := p), f, a, clock);
    } else {
      OneTurn(w1, n, a, clock);
    }
  }

  lemma SameId(w: World, c: Change)
    requires Live(w, c)
    ensures c.file.Some? && c.file.value.id == c.fileId
  {
  }

  lemma NotAlong(w: World, f: Snapshot, src: string, p: string)
    requires !CameAlong(w.db, f, src, p)
    ensures RenamedParent(w, f, src, p) == None
  {
    hide ParentDir;
  }

  // What the report queues: the rename, and the download behind it if the bytes are new.
  lemma MoveQueues(w: World, c: Change, now: int, id: nat, p: string)
    requires EmptyQueue(w) && Live(w, c) && c.file.value.mime.Opaque? && c.file.value.md5.Some? && c.path == Some(p)
    requires FindRemote(w.db, c.fileId) == Some(id) && w.db.items[id].trashedAt.None? && w.db.items[id].path != p
    requires !CameAlong(w.db, c.file.value, w.db.items[id].path, p)
    ensures var w1, n, f := Deliver(w, c, now), w.db.nextOp, c.file.value;
      var news := w.db.items[id].md5 != f.md5 || w.db.items[id].size != Some(Default(f.size, 0));
      && EqButOps(w1, w) && Inv(w1.db) && Holds(w1.db, n, id, RenameLocal(p))
      && w1.db.nextOp == n + (if news then 2 else 1) && (forall o :: o in w1.db.ops <==> n <= o < w1.db.nextOp)
      && (news ==> Holds(w1.db, n + 1, id, PullOf(f, p)))
  {
    var f, row := c.file.value, w.db.items[id];
    NotAlong(w, f, row.path, p);
    hide Inv, FindRemote, FindPath, CameAlong, RenamedParent, Run;
    var news := row.md5 != f.md5 || row.size != Some(Default(f.size, 0));
    var rename, pull := RenameLocal(p), PullOf(f, p);
    assert RemoteActs(w, c, now) ==
        Some(if news then [Queue(id, rename, now), Queue(id, pull, now)] else [Queue(id, rename, now)]);
    hide RemoteActs;
    DeliverKeepsInv(w, c, now);
    if news { QueueTwo(w, id, rename, pull, now); } else { QueueOne(w, id, rename, now); }
    assert [(id, rename), (id, pull)][0] == (id, rename) && [(id, rename), (id, pull)][1] == (id, pull);
    assert [(id, rename)][0] == (id, rename);
  }

  lemma OneTurn(w: World, n: nat, a: Answers, clock: nat -> int)
    requires w.db.nextOp == n + 1 && forall o :: o in w.db.ops ==> o >= n
    ensures Drain(w, a, clock) == ExecOp(w, n, a, clock)
  {
    hide ExecOp;
    ShortDrain(w, n, a, clock);
  }

  lemma TwoTurns(w: World, n: nat, a: Answers, clock: nat -> int)
    requires w.db.nextOp == n + 2 && forall o :: o in w.db.ops ==> o >= n
    ensures Drain(w, a, clock) == ExecOp(ExecOp(w, n, a, clock), n + 1, a, clock)
  {
    hide ExecOp;
    ShortDrain(w, n, a, clock);
  }

  // A single file: nothing lies below it, and nothing below its free destination.
  lemma OneNodeMoves(d: Disk, src: string, p: string)
    requires Tree(d) && IsFile(d, src) && Incomparable(src, p) && p != "" && p !in d && MkdirOk(d, ParentDir(p))
    ensures var e := MovedDisk(d, src, p);
      NodeMoved(d, e, src, p, d[src].bytes) && (ParentDir(p) == "" || IsDir(e, ParentDir(p)))
  {
    hide MoveTree, MkdirAll, MkdirOk, ParentDir, Tree, Rebase, Incomparable;
    var up, e := ParentDir(p), MovedDisk(d, src, p);
    var made := MkdirAll(d, up);
    MkdirAddsAncestors(d, up);
    MkdirKeepsTree(d, up);
    RebaseSelf(src, p);
    RebaseSelf(p, src);
    forall q ensures At(e, q) == if q == p then Some(d[src]) else if q == src then None else At(made, q) {
      MoveTreeAt(made, src, p, q);
      if Within(q, p) && Rebase(q, p, src) in made { OnlyTheFile(made, src, p, q); }
      if Within(q, src) && q in made && q != src { NothingBelow(made, src, q); }
    }
    forall q | q in e && q !in d && q != p ensures Below(p, q) && e[q] == DirNode {
      assert At(e, q) == At(made, q);
      BelowTransitive(p, up, q);
    }
    if up != "" {
      assert At(e, up) == At(made, up) by { UpIsNeither(src, p); }
    }
  }

  lemma NothingBelow(d: Disk, src: string, q: string)
    requires Tree(d) && IsFile(d, src) && Within(q, src) && q in d
    ensures q == src
  {
    assert src != "";
    hide Tree;
    if Below(q, src) { AncestorIsDir(d, q, src); }
  }

  lemma OnlyTheFile(d: Disk, src: string, p: string, q: string)
    requires Tree(d) && IsFile(d, src) && Within(q, p) && Rebase(q, p, src) in d
    ensures q == p
  {
    hide Tree;
    var x := Rebase(q, p, src);
    RebaseWithin(q, p, src);
    if x != src { NothingBelow(d, src, x); }
  }

  lemma UpIsNeither(src: string, p: string)
    requires Incomparable(src, p) && p != "" && ParentDir(p) != ""
    ensures ParentDir(p) != src && ParentDir(p) != p
  {
  }

  lemma OneRowMoves(db: Db, id: nat, p: string)
    requires Inv(db) && id in db.items && FindPath(db, p).None?
    requires var src := db.items[id].path; LiteralOnly(db, src) && Incomparable(src, p)
    ensures var src, after := db.items[id].path, RenameRows(db, db.items[id].path, p);
      && id in after.items && after.items[id] == db.items[id].(path := p)
      && (forall j :: j in after.items ==> j in db.items)
      && (forall j :: j in db.items && !Within(db.items[j].path, src) ==>
            j in after.items && after.items[j] == db.items[j])
      && (forall o, op :: Holds(db, o, id, op) ==> Holds(after, o, id, op))
  {
    hide RenameLoop, LiteralOnly, Incomparable, FindPath, Inv;
    var src := db.items[id].path;
    InvIsValid(db);
    RowsMove(db, src, p);
    RebaseSelf(src, p);
    LoopKeepsOps(db, src, p, ScanOrder(db, src, db.nextItem));
    assert Within(src, src);
  }

  lemma RenameLands(w: World, w1: World, n: nat, id: nat, p: string, a: Answers, clock: nat -> int)
    requires EqButOps(w1, w) && Inv(w1.db) && Movable(w, id, p) && Holds(w1.db, n, id, RenameLocal(p))
    requires IsFile(w.disk, w.db.items[id].path) && p !in w.disk && FindPath(w.db, p).None?
    ensures var u, row := ExecOp(w1, n, a, clock), w.db.items[id];
      && FileMoved(w, u, id, row.path, p, w.disk[row.path].bytes, row.(path := p))
      && (ParentDir(p) == "" || IsDir(u.disk, ParentDir(p)))
      && (forall o, op :: o != n && Holds(w1.db, o, id, op) ==> Holds(u.db, o, id, op))
  {
    hide ExecOp, ExecEffect, Inv, MovedDisk, RenameRows, Mergeable, Tree, LiteralOnly, Incomparable, MkdirOk, ParentDir,
      FindPath, NodeMoved, Within;
    InvIsValid(w1.db);
    MovableIgnoresQueue(w, w1, id, p);
    RenameRuns(w1, n, id, p, a, clock);
    OneNodeMoves(w.disk, w.db.items[id].path, p);
    SameFinds(w1.db, w.db);
    OneRowMoves(w1.db, id, p);
  }

  lemma PullLands(w: World, u: World, o: nat, id: nat, src: string, p: string, bytes: Bytes, row: Row, f: Snapshot,
                  a: Answers, clock: nat -> int)
    requires FileMoved(w, u, id, src, p, bytes, row) && src != p && p !in w.disk
    requires id in w.db.items && w.db.items[id].path == src
    requires f.md5.Some? && Holds(u.db, o, id, PullOf(f, p)) && row.remoteId == Some(f.id)
    requires a.reply.Accepted? && f.id in w.drive && (ParentDir(p) == "" || IsDir(u.disk, ParentDir(p)))
    ensures var v, bytes := ExecOp(u, o, a, clock), w.drive[f.id].bytes;
      FileMoved(w, v, id, src, p, bytes, row.(size := Some(|bytes|), md5 := Some(Md5(bytes)), syncedAt := clock(o)))
  {
    hide ExecOp, MkdirAll, MkdirOk, ParentDir, Inv, FileMoved, NodeMoved, Within;
    Landed(w, u, id, src, p, bytes, row);
    MkdirIdle(u.disk, ParentDir(p));
    assert ExecEffect(u, id, PullOf(f, p), a, clock(o)).ok;
    hide ExecEffect;
    ExecDownloadOp(u, o, id, PullOf(f, p), a, clock);
    Rewritten(w, u, ExecOp(u, o, a, clock), id, src, p, bytes, row);
  }

  lemma Landed(w: World, u: World, id: nat, src: string, p: string, bytes: Bytes, row: Row)
    requires FileMoved(w, u, id, src, p, bytes, row)
    ensures At(u.disk, p) == Some(FileNode(bytes)) && u.drive == w.drive && id in u.db.items && u.db.items[id] == row
  {
  }

  // Other bytes and another row at the destination.
  lemma Rewritten(w: World, u: World, v: World, id: nat, src: string, p: string, bytes: Bytes, row: Row)
    requires FileMoved(w, u, id, src, p, bytes, row) && src != p && p !in w.disk && p in v.disk && v.disk[p].FileNode?
    requires id in w.db.items && w.db.items[id].path == src && id in v.db.items
    requires v.disk == u.disk[p := v.disk[p]] && v.drive == u.drive && v.db.items == u.db.items[id := v.db.items[id]]
    ensures FileMoved(w, v, id, src, p, v.disk[p].bytes, v.db.items[id])
  {
    assert Within(src, src);
    hide Below;
  }

  lemma Apart(w: World, id: nat, rel: string)
    requires Movable(w, id, rel)
    ensures id in w.db.items && w.db.items[id].path != rel && rel != "" && Incomparable(w.db.items[id].path, rel)
    ensures LiteralOnly(w.db, w.db.items[id].path)
  {
  }

  lemma SameRowsMoved(db: Db, e: Db, items: map<nat, Row>, src: string, p: string)
    requires RowsMoved(db, items, src, p) && db.items == e.items
    ensures RowsMoved(e, items, src, p)
  {
    hide Within, Rebase, FindPath;
    SameFinds(db, e);
  }

  // ---- from disk to Drive ----------------------------------------------------------------

  lemma EventDrains(w: World, e: WatchEvent, now: int, id: nat, op: Operation, a: Answers, clock: nat -> int)
    requires EmptyQueue(w) && id in w.db.items && LocalActs(w, e, [], now) == [Queue(id, op, now)]
    ensures var w1, o := Run(w, LocalActs(w, e, [], now)), w.db.nextOp;
      && EqButOps(w1, w) && Holds(w1.db, o, id, op) && Observed(w, e, now, a, clock) == ExecOp(w1, o, a, clock)
  {
    hide Run, LocalActs, Inv, ExecOp, Drain;
    QueueOne(w, id, op, now);
    OnlyOne(Run(w, LocalActs(w, e, [], now)), w.db.nextOp, id, op, a, clock);
  }

  // The event says that something appeared or changed at p; a rename from outside the index does too.
  ghost predicate Shows(w: World, e: WatchEvent, p: string) {
    e == Created(p) || e == Modified(p) || (e.Renamed? && e.to == p && FindPath(w.db, e.from).None?)
  }

  lemma ShowsActs(w: World, e: WatchEvent, p: string, now: int)
    requires Shows(w, e, p)
    ensures IsFile(w.disk, p) ==> LocalActs(w, e, [], now) == EntryActs(w, p, now)
    ensures IsDir(w.disk, p) ==> LocalActs(w, e, [], now) == WalkActs(w, [p], now)
  {
    hide EntryActs, FindPath, WalkActs;
    assert [p] + [] == [p];
  }

  // An edit: Drive has the new bytes under the same id, and the row records them.
  lemma EditIsUploaded(w: World, e: WatchEvent, p: string, now: int, id: nat, rid: string, a: Answers,
          clock: nat -> int)
    requires Shows(w, e, p) && EmptyQueue(w) && IsFile(w.disk, p) && FindPath(w.db, p) == Some(id)
    requires !w.db.items[id].state.Skipped?
    requires w.db.items[id].remoteId == Some(rid) && rid in w.drive && a.reply.Accepted?
    requires w.db.items[id].md5 != Some(Md5(w.disk[p].bytes))
    ensures var v, bytes := Observed(w, e, now, a, clock), w.disk[p].bytes;
      && v.drive == w.drive[rid := w.drive[rid].(bytes := bytes)] && v.disk == w.disk
      && v.db.items == w.db.items[id := w.db.items[id].(size := Some(|bytes|), md5 := Some(Md5(bytes)),
          syncedAt := clock(w.db.nextOp))]
  {
    hide Run, Inv, Observed, FindPath, FolderFor, FolderId, FirstUpload, UpdateActs, ParentDir;
    ShowsActs(w, e, p, now);
    hide LocalActs;
    EventDrains(w, e, now, id, Upload, a, clock);
    var w1, bytes, at := Run(w, LocalActs(w, e, [], now)), w.disk[p].bytes, clock(w.db.nextOp);
    UpdateRuns(w1, id, rid, bytes, at);
    FinishRuns(Run(w1, UpdateActs(id, rid, bytes, at)), w.db.nextOp);
  }

  lemma UpdateRuns(w: World, id: nat, rid: string, bytes: Bytes, now: int)
    requires id in w.db.items && rid in w.drive
    ensures var v := Run(w, UpdateActs(id, rid, bytes, now));
      && v.drive == w.drive[rid := w.drive[rid].(bytes := bytes)] && v.disk == w.disk
      && v.db == SetFingerprint(w.db, id, |bytes|, Md5(bytes), now)
  {
    hide Run;
    RunFour(w, Mark(rid), PutContent(rid, bytes), Fingerprint(id, |bytes|, Md5(bytes), now), Unmark(rid));
  }

  // A deletion: the node is in the trash and the row is gone.
  lemma DeletionIsPropagated(w: World, p: string, now: int, id: nat, rid: string, a: Answers, clock: nat -> int)
    requires EmptyQueue(w) && FindPath(w.db, p) == Some(id) && w.db.items[id].trashedAt.None?
    requires w.db.items[id].remoteId == Some(rid) && rid in w.drive && a.reply.Accepted?
    ensures var v := Observed(w, Deleted(p), now, a, clock);
      && v.drive == w.drive[rid := w.drive[rid].(trashed := true)] && v.disk == w.disk
      && v.db.items == w.db.items - {id}
  {
    hide Run, Inv, FindPath, Drain, DropConflicts, ExecOp, ExecEffect;
    var cleared := w.(db := DropConflicts(w.db, p));
    ClearedQueue(w.db, p);
    RunTwo(w, CloseConflicts(p), Queue(id, DeleteRemote, now));
    QueueAny(cleared, id, DeleteRemote, now);
    var w1 := Run(w, LocalActs(w, Deleted(p), [], now));
    hide LocalActs;
    OnlyOne(w1, w.db.nextOp, id, DeleteRemote, a, clock);
    DeleteRuns(w1, w.db.nextOp, id, rid, a, clock);
  }

  lemma DeleteRuns(w: World, o: nat, id: nat, rid: string, a: Answers, clock: nat -> int)
    requires Holds(w.db, o, id, DeleteRemote) && w.db.items[id].remoteId == Some(rid) && rid in w.drive
    requires a.reply.Accepted?
    ensures var v := ExecOp(w, o, a, clock);
      && v.drive == w.drive[rid := w.drive[rid].(trashed := true)] && v.disk == w.disk
      && v.db.items == w.db.items - {id}
  {
    hide Run;
    DeleteActsRun(w, id, rid);
    FinishRuns(Run(w, [Mark(rid), TrashNode(rid), DeleteItem(id), Unmark(rid)]), o);
  }

  lemma DeleteActsRun(w: World, id: nat, rid: string)
    requires rid in w.drive
    ensures var v := Run(w, [Mark(rid), TrashNode(rid), DeleteItem(id), Unmark(rid)]);
      v.drive == w.drive[rid := w.drive[rid].(trashed := true)] && v.disk == w.disk && v.db == DropRows(w.db, {id})
  {
    hide Run, DropRows;
    RunFour(w, Mark(rid), TrashNode(rid), DeleteItem(id), Unmark(rid));
  }

  lemma ClearedQueue(db: Db, p: string)
    ensures DropConflicts(db, p).items == db.items && DropConflicts(db, p).ops == db.ops
    ensures DropConflicts(db, p).nextOp == db.nextOp
  {
  }

  // ---- into folders Drive may not have yet -----------------------------------------------

  // The folders of a path are all listed and known; every node that was there is as it was, and no
  // row but theirs was linked.
  ghost predicate Reached(w: World, v: World, rel: string, a: Answers, ids: seq<string>) {
    var segs := Segments(rel);
    && |ids| == |segs| && Finds(v.drive, a.root, segs, ids, a) && AllKnown(v.db, "", segs, ids)
    && OnlyLinks(w.db, v.db, FolderPaths("", segs))
  }

  // Beside the item and its node nothing is new but those folders.
  ghost predicate OnlyFoldersBeside(w: World, v: World, rel: string, ids: seq<string>, id: nat, rid: string) {
    && (forall n :: n in w.drive && n != rid ==> n in v.drive && v.drive[n] == w.drive[n])
    && (forall n :: n in v.drive && n !in w.drive && n != rid ==> n in ids && v.drive[n].folder && !v.drive[n].trashed)
    && (forall i :: i in v.db.items && i !in w.db.items && i != id ==>
        v.db.items[i].path in FolderPaths("", Segments(rel)))
  }

  lemma FoldersAreMade(w: World, rel: string, a: Answers, now: int) returns (ids: seq<string>)
    requires Inv(w.db) && FreshIds(w.drive, "", a) && FolderId(w.drive, rel, a).Some?
    ensures var u := Run(w, FolderFor(w, rel, a, now));
      && Reached(w, u, rel, a, ids) && FolderId(w.drive, rel, a) == Some(Last(a.root, ids))
      && OnlyNewFolders(w.drive, u.drive, ids) && OnlyFolders(w.db, u.db, FolderPaths("", Segments(rel)))
      && Inv(u.db) && u.disk == w.disk
    ensures forall p :: p in FolderPaths("", Segments(rel)) ==> |p| <= |rel|
    ensures forall p {:trigger a.newId(p)} :: |p| > |rel| ==> a.newId(p) !in Run(w, FolderFor(w, rel, a, now)).drive
  {
    hide Run, EnsureActs, EnsuredId, AllKnown, Finds, Segments, Inv, Visited, EnsuredDrive, FreshIds, OnlyNewFolders,
      OnlyLinks, OnlyFolders, FolderPaths, JoinAll;
    var segs := Segments(rel);
    ids := Visited(w.drive, a.root, "", segs, a);
    SegmentsAreNames(rel);
    SuccessIff(w.drive, a.root, "", segs, a);
    EnsureKnows(w, a.root, "", segs, a, now);
    EnsureRuns(w, a.root, "", segs, a, now);
    EnsureFinds(w.drive, a.root, "", segs, a);
    EnsureLinks(w, a.root, "", segs, a, now);
    EnsureAddsFolders(w.drive, a.root, "", segs, a);
    FolderPathsAreShort(rel);
  }

  // A file among them changes nothing about how folders are found.
  lemma {:induction false} FindsPastFile(drive: map<string, DriveNode>, rid: string, node: DriveNode, current: string,
                                         segs: seq<string>, ids: seq<string>, a: Answers)
    requires |ids| <= |segs| && Finds(drive, current, segs, ids, a) && rid !in drive && !node.folder
    ensures Finds(drive[rid := node], current, segs, ids, a)
    decreases |segs|
  {
    if ids != [] {
      assert FoldersNamed(drive[rid := node], current, segs[0]) == FoldersNamed(drive, current, segs[0]);
      FindsPastFile(drive, rid, node, ids[0], segs[1..], ids[1..], a);
    }
  }

  lemma {:induction false} KnownGrows(db: Db, after: Db, done: string, segs: seq<string>, ids: seq<string>)
    requires |ids| <= |segs| && AllKnown(db, done, segs, ids)
    requires forall i :: i in db.items && db.items[i].remoteId.Some? ==>
        i in after.items && after.items[i] == db.items[i]
    ensures AllKnown(after, done, segs, ids)
    decreases |segs|
  {
    if ids != [] { KnownGrows(db, after, Join(done, segs[0]), segs[1..], ids[1..]); }
  }

  // A new file: the folders on the way, one node with its name and bytes in the last of them, and one
  // linked row that records them. Nothing else changes on either side.
  lemma NewFileIsUploaded(w: World, e: WatchEvent, p: string, now: int, a: Answers, clock: nat -> int)
    returns (ids: seq<string>)
    requires Shows(w, e, p) && EmptyQueue(w) && IsFile(w.disk, p) && p != "" && FindPath(w.db, p).None?
    requires a.reply.Accepted?
    requires FreshIds(w.drive, "", a) && FolderId(w.drive, ParentDir(p), a).Some?
    ensures var v, bytes, rid, id := Observed(w, e, now, a, clock), w.disk[p].bytes, a.newId(p), w.db.nextItem;
      && v.disk == w.disk && rid !in w.drive && id !in w.db.items
      && rid in v.drive && v.drive[rid] == DriveNode(FileName(p), [Last(a.root, ids)], false, bytes, false)
      && id in v.db.items
      && v.db.items[id] == Row(p, File, Some(rid), Some(|bytes|), Some(Md5(bytes)), clock(w.db.nextOp), PendingLocal,
          None)
      && Reached(w, v, ParentDir(p), a, ids) && OnlyFoldersBeside(w, v, ParentDir(p), ids, id, rid)
  {
    var id, o, rid, up := w.db.nextItem, w.db.nextOp, a.newId(p), ParentDir(p);
    assert p in w.disk && |p| > |up| && |p| > 0;
    assert rid !in w.drive by { NoneHandedOut(w.drive, "", a); }
    hide *;
    NewFileQueues(w, e, p, now, a, clock);
    var w1 := Run(w, LocalActs(w, e, [], now));
    ids := FoldersAreMade(w1, up, a, clock(o));
    var u := Run(w1, FolderFor(w1, up, a, clock(o)));
    RowStays(w1, u, up, a, ids, id);
    assert Draft(w1, id, p) && w1.db.items[id] == NewLocal(p, File) by { NewFileIsDraft(w, w1, id, p); }
    FirstUploadArrives(w1, u, o, id, p, Last(a.root, ids), a, clock);
    UploadedRow(p, rid, w.disk[p].bytes, clock(o));
    var v := ExecOp(w1, o, a, clock);
    UploadedBeside(w, w1, u, v, up, id, p, rid, a, ids);
  }

  lemma NewFileIsDraft(w: World, w1: World, id: nat, p: string)
    requires w1.disk == w.disk && IsFile(w.disk, p) && w1.db.items == w.db.items[id := NewLocal(p, File)]
    ensures Draft(w1, id, p) && w1.db.items[id] == NewLocal(p, File)
  {
  }

  // The item's own row is not one of the folders'.
  lemma RowStays(w: World, u: World, rel: string, a: Answers, ids: seq<string>, id: nat)
    requires Reached(w, u, rel, a, ids) && id in w.db.items && w.db.items[id].path !in FolderPaths("", Segments(rel))
    ensures id in u.db.items && u.db.items[id] == w.db.items[id]
  {
    hide Finds, AllKnown, Segments, FolderPaths;
  }

  lemma UploadedBeside(w: World, w1: World, u: World, v: World, rel: string, id: nat, p: string, rid: string,
          a: Answers, ids: seq<string>)
    requires w1.db.items == w.db.items[id := NewLocal(p, File)] && id !in w.db.items && w1.drive == w.drive
    requires Reached(w1, u, rel, a, ids) && OnlyNewFolders(w1.drive, u.drive, ids)
    requires OnlyFolders(w1.db, u.db, FolderPaths("", Segments(rel)))
    requires id in u.db.items && u.db.items[id] == NewLocal(p, File) && rid !in u.drive
    requires rid in v.drive && !v.drive[rid].folder && v.drive == u.drive[rid := v.drive[rid]]
    requires id in v.db.items && v.db.items == u.db.items[id := v.db.items[id]]
    ensures Reached(w, v, rel, a, ids) && OnlyFoldersBeside(w, v, rel, ids, id, rid)
  {
    hide Finds, AllKnown, Segments, FolderPaths, OnlyNewFolders, OnlyLinks, OnlyFolders, OnlyFoldersBeside;
    FindsPastFile(u.drive, rid, v.drive[rid], a.root, Segments(rel), ids, a);
    KnownGrows(u.db, v.db, "", Segments(rel), ids);
    LinksBeside(w.db, w1.db, u.db, v.db, id, FolderPaths("", Segments(rel)));
    NodesAndRowsBeside(w, w1, u, v, rel, id, rid, ids);
  }

  lemma LinksBeside(db: Db, queued: Db, after: Db, last: Db, id: nat, paths: seq<string>)
    requires OnlyLinks(queued, after, paths) && id !in db.items && id in last.items
    requires id in queued.items && queued.items == db.items[id := queued.items[id]]
    requires last.items == after.items[id := last.items[id]]
    ensures OnlyLinks(db, last, paths)
  {
    forall i | i in db.items ensures i in queued.items && queued.items[i] == db.items[i] {}
  }

  lemma NodesAndRowsBeside(w: World, w1: World, u: World, v: World, rel: string, id: nat, rid: string, ids: seq<string>)
    requires w1.drive == w.drive && OnlyNewFolders(w1.drive, u.drive, ids)
    requires OnlyFolders(w1.db, u.db, FolderPaths("", Segments(rel)))
    requires forall i :: i in w1.db.items && i != id ==> i in w.db.items
    requires rid in v.drive && v.drive == u.drive[rid := v.drive[rid]]
    requires forall i :: i in v.db.items && i !in w.db.items && i != id ==>
        i in u.db.items && v.db.items[i].path == u.db.items[i].path
    ensures OnlyFoldersBeside(w, v, rel, ids, id, rid)
  {
    hide Segments, FolderPaths;
  }

  lemma NewFileQueues(w: World, e: WatchEvent, p: string, now: int, a: Answers, clock: nat -> int)
    requires Shows(w, e, p) && EmptyQueue(w) && IsFile(w.disk, p) && FindPath(w.db, p).None?
    ensures var w1, id, o := Run(w, LocalActs(w, e, [], now)), w.db.nextItem, w.db.nextOp;
      && w1.disk == w.disk && w1.drive == w.drive && IsFile(w1.disk, p) && Inv(w1.db) && id !in w.db.items
      && w1.db.items == w.db.items[id := NewLocal(p, File)] && Holds(w1.db, o, id, Upload)
      && Observed(w, e, now, a, clock) == ExecOp(w1, o, a, clock)
  {
    hide Run, Inv, FindPath, Drain, ExecOp;
    var id, o := w.db.nextItem, w.db.nextOp;
    var row := NewLocal(p, File);
    InsertThenQueue(w, row, Upload, now);
    RunTwo(w, InsertItem(row), Queue(id, Upload, now));
    ShowsActs(w, e, p, now);
    assert LocalActs(w, e, [], now) == [InsertItem(row), Queue(id, Upload, now)];
    hide LocalActs;
    NextIsFree(w.db);
    OnlyOne(Run(w, [InsertItem(row), Queue(id, Upload, now)]), o, id, Upload, a, clock);
    InsertKeepsTables(w, row, Upload, now);
  }

  lemma InsertKeepsTables(w: World, row: Row, op: Operation, now: int)
    requires EmptyQueue(w) && SoundRow(row) && row.trashedAt.None? && !op.DeleteLocal?
    ensures Inv(Run(w, [InsertItem(row), Queue(w.db.nextItem, op, now)]).db)
  {
    hide Run, Inv, Licensed;
    assert AllLicensed(w.db, [InsertItem(row), Queue(w.db.nextItem, op, now)]) by { BothLicensed(w.db, row, op, now); }
    RunKeepsInv(w, [InsertItem(row), Queue(w.db.nextItem, op, now)]);
  }

  lemma BothLicensed(db: Db, row: Row, op: Operation, now: int)
    requires SoundRow(row) && row.trashedAt.None? && !op.DeleteLocal?
    ensures AllLicensed(db, [InsertItem(row), Queue(db.nextItem, op, now)])
  {
  }

  // An operation whose writes are known, from its folders on.
  lemma ExecRuns(w: World, u: World, o: nat, id: nat, op: Operation, folder: seq<Act>, acts: seq<Act>, a: Answers,
          clock: nat -> int)
    requires Holds(w.db, o, id, op) && ExecEffect(w, id, op, a, clock(o)) == Effect(folder + acts, true)
    requires u == Run(w, folder)
    ensures var v := Run(u, acts); ExecOp(w, o, a, clock) == v.(db := FinishOp(v.db, o))
  {
    hide Run, ExecEffect;
    RunConcat(w, folder, acts);
    FinishRuns(Run(w, folder + acts), o);
  }

  // A file that is not on Drive yet, with bytes its row does not record.
  ghost predicate Draft(w: World, id: nat, p: string) {
    && id in w.db.items && w.db.items[id].path == p && w.db.items[id].remoteId.None? && IsFile(w.disk, p)
    && w.db.items[id].md5 != Some(Md5(w.disk[p].bytes))
  }

  lemma FirstUploadEffect(w: World, id: nat, p: string, parent: string, a: Answers, now: int)
    requires Draft(w, id, p) && a.reply.Accepted? && FolderId(w.drive, ParentDir(p), a) == Some(parent)
    ensures ExecEffect(w, id, Upload, a, now) == Effect(
      FolderFor(w, ParentDir(p), a, now) + FirstUpload(id, a.newId(p), p, w.disk[p].bytes, parent, now), true)
  {
    hide FolderFor, FolderId, ParentDir, FirstUpload, UpdateActs;
  }

  lemma FirstUploadArrives(w: World, u: World, o: nat, id: nat, p: string, parent: string, a: Answers,
          clock: nat -> int)
    requires Holds(w.db, o, id, Upload) && Draft(w, id, p) && a.reply.Accepted?
    requires FolderId(w.drive, ParentDir(p), a) == Some(parent) && u == Run(w, FolderFor(w, ParentDir(p), a, clock(o)))
    requires id in u.db.items && u.db.items[id] == w.db.items[id]
    ensures var v, bytes, rid := ExecOp(w, o, a, clock), w.disk[p].bytes, a.newId(p);
      && v.drive == u.drive[rid := DriveNode(FileName(p), [parent], false, bytes, false)] && v.disk == u.disk
      && v.db.items == u.db.items[id := w.db.items[id].(remoteId := Some(rid), size := Some(|bytes|),
                                                        md5 := Some(Md5(bytes)), syncedAt := clock(o))]
      && v.db.ops == u.db.ops - {o} && v.db.nextOp == u.db.nextOp
  {
    assert id in w.db.items && p in w.disk;
    hide *;
    var rid, bytes := a.newId(p), w.disk[p].bytes;
    FirstUploadEffect(w, id, p, parent, a, clock(o));
    ExecRuns(w, u, o, id, Upload, FolderFor(w, ParentDir(p), a, clock(o)),
        FirstUpload(id, rid, p, bytes, parent, clock(o)), a, clock);
    NewNodeRuns(u, id, rid, p, bytes, parent, clock(o));
    FinishKeepsItems(Run(u, FirstUpload(id, rid, p, bytes, parent, clock(o))).db, o);
  }

  lemma UploadedRow(p: string, rid: string, bytes: Bytes, at: int)
    ensures NewLocal(p, File).(remoteId := Some(rid), size := Some(|bytes|), md5 := Some(Md5(bytes)), syncedAt := at)
      == Row(p, File, Some(rid), Some(|bytes|), Some(Md5(bytes)), at, PendingLocal, None)
  {
  }

  lemma FinishKeepsItems(db: Db, o: nat)
    ensures FinishOp(db, o).items == db.items && FinishOp(db, o).ops == db.ops - {o}
    ensures FinishOp(db, o).nextOp == db.nextOp
  {
  }

  lemma NewNodeRuns(w: World, id: nat, rid: string, p: string, bytes: Bytes, parent: string, now: int)
    requires id in w.db.items
    ensures var v, row := Run(w, FirstUpload(id, rid, p, bytes, parent, now)), w.db.items[id];
      && v.drive == w.drive[rid := DriveNode(FileName(p), [parent], false, bytes, false)] && v.disk == w.disk
      && v.db.items == w.db.items[id := row.(remoteId := Some(rid), size := Some(|bytes|), md5 := Some(Md5(bytes)),
          syncedAt := now)]
      && v.db.ops == w.db.ops && v.db.nextOp == w.db.nextOp
  {
    hide *;
    FirstUploadRuns(w, id, rid, p, bytes, parent, now);
    NodeIsRecorded(w, id, rid, DriveNode(FileName(p), [parent], false, bytes, false), bytes, now);
  }

  lemma NodeIsRecorded(w: World, id: nat, rid: string, node: DriveNode, bytes: Bytes, now: int)
    requires id in w.db.items
    ensures var v, row := Run(Step(w, CreateNode(rid, node)), RecordUpload(id, rid, bytes, now)), w.db.items[id];
      && v.drive == w.drive[rid := node] && v.disk == w.disk
      && v.db.items == w.db.items[id := row.(remoteId := Some(rid), size := Some(|bytes|), md5 := Some(Md5(bytes)),
          syncedAt := now)]
      && v.db.ops == w.db.ops && v.db.nextOp == w.db.nextOp
  {
    hide Run;
    RunFour(Step(w, CreateNode(rid, node)), Mark(rid), LinkRemote(id, rid), Fingerprint(id, |bytes|, Md5(bytes), now),
        Unmark(rid));
  }

  // A new directory: a live folder of its name in the last of the folders on the way, and one linked
  // row. Nothing else is new on either side but those folders.
  lemma NewFolderIsUploaded(w: World, e: WatchEvent, p: string, now: int, a: Answers, clock: nat -> int)
    returns (ids: seq<string>)
    requires Shows(w, e, p) && EmptyQueue(w) && IsDir(w.disk, p) && p != "" && CleanPath(p) && FindPath(w.db, p).None?
    requires FreshIds(w.drive, "", a) && FolderId(w.drive, p, a).Some?
    ensures |ids| == |Segments(ParentDir(p))| + 1
    ensures var v, id, rid := Observed(w, e, now, a, clock), w.db.nextItem, Last(a.root, ids);
      var up := ids[..|ids| - 1];
      && v.disk == w.disk && id !in w.db.items && id in v.db.items
      && v.db.items[id] == NewLocal(p, Dir).(remoteId := Some(rid))
      && Finds(v.drive, a.root, Segments(ParentDir(p)), up, a)
      && rid in FoldersNamed(v.drive, Last(a.root, up), FileName(p))
      && OnlyFoldersBeside(w, v, p, ids, id, rid) && OnlyLinks(w.db, v.db, FolderPaths("", Segments(p)))
  {
    hide EmptyQueue, Inv, Shows, FolderFor, FolderId, FolderPaths, Segments, ParentDir, FileName, FreshIds, Drain,
      ExecOp, FindPath, OnlyFoldersBeside, OnlyLinks, Finds, AllKnown, FindFolder, FoldersNamed, OnlyNewFolders,
      OnlyFolders, LocalActs, Run, Observed, WellNamed;
    var id, o := w.db.nextItem, w.db.nextOp;
    NewFolderQueues(w, e, p, now, a, clock);
    var w1 := Run(w, LocalActs(w, e, [], now));
    ids := FoldersAreMade(w1, p, a, clock(o));
    var u, v := Run(w1, FolderFor(w1, p, a, clock(o))), ExecOp(w1, o, a, clock);
    FolderTurn(w1, o, id, p, a, clock);
    CleanSegments(p);
    LastIsFound(v.drive, a.root, Segments(ParentDir(p)), FileName(p), ids, a);
    assert Last(a.root, ids) in v.drive by { NamedIsThere(v.drive, Last(a.root, ids[..|ids| - 1]), FileName(p)); }
    assert v.drive == v.drive[Last(a.root, ids) := v.drive[Last(a.root, ids)]];
    LastIsKnown(u.db, "", Segments(p), ids);
    FolderRow(w, w1, u, v, id, p, Last(a.root, ids));
    NodesAndRowsBeside(w, w1, u, v, p, id, Last(a.root, ids), ids);
    LinksBeside(w.db, w1.db, u.db, v.db, id, FolderPaths("", Segments(p)));
  }

  lemma NewFolderQueues(w: World, e: WatchEvent, p: string, now: int, a: Answers, clock: nat -> int)
    requires Shows(w, e, p) && EmptyQueue(w) && IsDir(w.disk, p) && FindPath(w.db, p).None?
    ensures var w1, id, o := Run(w, LocalActs(w, e, [], now)), w.db.nextItem, w.db.nextOp;
      && w1.disk == w.disk && w1.drive == w.drive && Inv(w1.db) && id !in w.db.items
      && w1.db.items == w.db.items[id := NewLocal(p, Dir)] && Holds(w1.db, o, id, CreateDirRemote)
      && Observed(w, e, now, a, clock) == ExecOp(w1, o, a, clock)
  {
    hide Run, Inv, FindPath, Drain, ExecOp;
    var id, o := w.db.nextItem, w.db.nextOp;
    var row := NewLocal(p, Dir);
    InsertThenQueue(w, row, CreateDirRemote, now);
    RunTwo(w, InsertItem(row), Queue(id, CreateDirRemote, now));
    ShowsActs(w, e, p, now);
    assert WalkActs(w, [p], now) == [InsertItem(row), Queue(id, CreateDirRemote, now)] by { OneEntry(w, p, now); }
    hide LocalActs, WalkActs;
    NextIsFree(w.db);
    OnlyOne(Run(w, [InsertItem(row), Queue(id, CreateDirRemote, now)]), o, id, CreateDirRemote, a, clock);
    InsertKeepsTables(w, row, CreateDirRemote, now);
  }

  lemma NamedIsThere(drive: map<string, DriveNode>, parent: string, name: string)
    ensures forall id :: id in FoldersNamed(drive, parent, name) ==> id in drive
  {
  }

  lemma OneEntry(w: World, p: string, now: int)
    ensures WalkActs(w, [p], now) == EntryActs(w, p, now)
  {
    hide EntryActs;
    assert [p][1..] == [];
    assert EntryActs(w, p, now) + [] == EntryActs(w, p, now);
  }

  lemma FolderTurn(w: World, o: nat, id: nat, p: string, a: Answers, clock: nat -> int)
    requires Holds(w.db, o, id, CreateDirRemote) && w.db.items[id].path == p && FolderId(w.drive, p, a).Some?
    ensures var u, v := Run(w, FolderFor(w, p, a, clock(o))), ExecOp(w, o, a, clock);
      v == u.(db := FinishOp(u.db, o))
  {
    hide FolderFor, FolderId, Run;
    FinishRuns(Run(w, FolderFor(w, p, a, clock(o))), o);
  }

  lemma FolderRow(w: World, w1: World, u: World, v: World, id: nat, p: string, rid: string)
    requires w1.db.items == w.db.items[id := NewLocal(p, Dir)] && Inv(u.db) && v.db.items == u.db.items
    requires OnlyLinks(w1.db, u.db, FolderPaths("", Segments(p))) && Known(u.db, p, rid)
    ensures id in v.db.items && v.db.items[id] == NewLocal(p, Dir).(remoteId := Some(rid))
  {
    InvIsValid(u.db);
    hide Inv, FolderPaths, Segments;
    assert w1.db.items[id] == NewLocal(p, Dir);
  }

  // The rows after a move: the item's, or its whole subtree, under the new path; the others where they
  // were, linked at most if they are folders on the way.
  ghost predicate RowsFollow(db: Db, items: map<nat, Row>, src: string, p: string, id: nat, folders: seq<string>)
    requires id in db.items
  {
    var dir := db.items[id].kind.Dir?;
    && (!dir ==> id in items && items[id] == db.items[id].(path := p))
    && (dir ==> forall j :: j in db.items && Within(db.items[j].path, src) ==>
          var q := Rebase(db.items[j].path, src, p);
          (j in items <==> FindPath(db, q).None?) && (j in items ==> items[j] == db.items[j].(path := q)))
    && (forall j :: j in db.items && j != id && !(dir && Within(db.items[j].path, src)) && db.items[j].path != p ==>
          j in items && (db.items[j].path !in folders ==> items[j] == db.items[j]))
  }

  // A rename or move, into folders Drive may not have yet: the node keeps its id and bytes under its new
  // name and parent, and its row, or the whole subtree of rows, follows.
  lemma RenameIsPropagated(w: World, src: string, p: string, now: int, id: nat, rid: string, a: Answers,
          clock: nat -> int)
    returns (ids: seq<string>)
    requires EmptyQueue(w) && FindPath(w.db, src) == Some(id) && w.db.items[id].remoteId == Some(rid)
    requires rid in w.drive && a.reply.Accepted? && p != "" && FreshIds(w.drive, "", a)
    requires FolderId(w.drive, ParentDir(p), a).Some?
    requires src !in FolderPaths("", Segments(ParentDir(p)))
    requires w.db.items[id].kind.Dir? ==> Incomparable(src, p) && LiteralOnly(w.db, src)
    requires w.db.items[id].kind.Dir? ==> forall q :: q in FolderPaths("", Segments(ParentDir(p))) ==> !Selected(q, src)
    ensures var v := Observed(w, Renamed(src, p), now, a, clock);
      && v.disk == w.disk && rid in v.drive
      && v.drive[rid] == w.drive[rid].(parents := [Last(a.root, ids)], name := FileName(p))
      && FolderId(w.drive, ParentDir(p), a) == Some(Last(a.root, ids))
      && OnlyFoldersBeside(w, v, ParentDir(p), ids, id, rid)
      && RowsFollow(w.db, v.db.items, src, p, id, FolderPaths("", Segments(ParentDir(p))))
  {
    var o, up := w.db.nextOp, ParentDir(p);
    assert |p| > |up|;
    hide *;
    RenameQueues(w, src, p, now, id, a, clock);
    var w1 := Run(w, LocalActs(w, Renamed(src, p), [], now));
    ids := FoldersAreMade(w1, up, a, clock(o));
    var u := Run(w1, FolderFor(w1, up, a, clock(o)));
    SameTables(w1, w, src, id);
    RowStays(w1, u, up, a, ids, id);
    NodesStay(w1, u, rid, ids);
    MoveEffect(w1, id, rid, p, Last(a.root, ids), a, clock(o));
    MovedOnDrive(w1, u, o, id, w.db.items[id], rid, p, Last(a.root, ids), FolderFor(w1, up, a, clock(o)), a, clock);
    var v := ExecOp(w1, o, a, clock);
    if w.db.items[id].kind.Dir? {
      FolderRowsMove(w, u, id, src, p, up, a, ids);
    } else {
      FileRowMoves(w, u, id, p, up, a, ids);
    }
    NodesAndRowsBeside(w, w1, u, v, up, id, rid, ids);
  }

  lemma SameTables(w1: World, w: World, src: string, id: nat)
    requires EqButOps(w1, w) && FindPath(w.db, src) == Some(id)
    ensures w1.db.items == w.db.items && w1.db.nextItem == w.db.nextItem && w1.drive == w.drive && w1.disk == w.disk
    ensures id in w.db.items && w.db.items[id].path == src
    ensures forall v, rel, a, ids :: Reached(w1, v, rel, a, ids) ==> Reached(w, v, rel, a, ids)
    ensures forall v: World, paths :: OnlyFolders(w1.db, v.db, paths) ==> OnlyFolders(w.db, v.db, paths)
  {
    hide Finds, AllKnown, Segments, FolderPaths;
  }

  lemma NodesStay(w: World, u: World, rid: string, ids: seq<string>)
    requires OnlyNewFolders(w.drive, u.drive, ids) && rid in w.drive
    ensures rid in u.drive && u.drive[rid] == w.drive[rid]
  {
  }

  lemma RenameQueues(w: World, src: string, p: string, now: int, id: nat, a: Answers, clock: nat -> int)
    requires EmptyQueue(w) && FindPath(w.db, src) == Some(id) && w.db.items[id].remoteId.Some?
    ensures var w1, o := Run(w, LocalActs(w, Renamed(src, p), [], now)), w.db.nextOp;
      && EqButOps(w1, w) && Inv(w1.db) && Holds(w1.db, o, id, RenameRemote(p))
      && Observed(w, Renamed(src, p), now, a, clock) == ExecOp(w1, o, a, clock)
  {
    hide Run, Inv, FindPath, Observed, ExecOp;
    EventDrains(w, Renamed(src, p), now, id, RenameRemote(p), a, clock);
    RunOne(w, Queue(id, RenameRemote(p), now));
    QueueKeepsInv(w.db, id, RenameRemote(p), now);
  }

  lemma MoveEffect(w: World, id: nat, rid: string, p: string, parent: string, a: Answers, now: int)
    requires id in w.db.items && w.db.items[id].remoteId == Some(rid) && a.reply.Accepted?
    requires FolderId(w.drive, ParentDir(p), a) == Some(parent)
    ensures ExecEffect(w, id, RenameRemote(p), a, now) == Effect(
      FolderFor(w, ParentDir(p), a, now) + MoveActs(id, w.db.items[id], rid, parent, p), true)
  {
    hide FolderFor, FolderId, ParentDir, MoveActs;
  }

  lemma MovedOnDrive(w: World, u: World, o: nat, id: nat, row: Row, rid: string, p: string, parent: string,
                     folder: seq<Act>, a: Answers, clock: nat -> int)
    requires Holds(w.db, o, id, RenameRemote(p)) && rid in u.drive && u == Run(w, folder)
    requires ExecEffect(w, id, RenameRemote(p), a, clock(o)) ==
        Effect(folder + MoveActs(id, row, rid, parent, p), true)
    ensures var v := ExecOp(w, o, a, clock);
      && v.drive == u.drive[rid := u.drive[rid].(parents := [parent], name := FileName(p))] && v.disk == u.disk
      && v.db.items == (if row.kind.Dir? then RenameRows(u.db, row.path, p) else SetPath(u.db, id, p)).items
  {
    hide *;
    var acts := MoveActs(id, row, rid, parent, p);
    ExecRuns(w, u, o, id, RenameRemote(p), folder, acts, a, clock);
    MoveActsRun(u, id, row, rid, parent, p);
    FinishKeepsItems(Run(u, acts).db, o);
  }

  lemma FileRowMoves(w: World, u: World, id: nat, p: string, rel: string, a: Answers, ids: seq<string>)
    requires Reached(w, u, rel, a, ids) && Inv(u.db) && id in w.db.items && w.db.items[id].kind.File?
    requires id in u.db.items && u.db.items[id] == w.db.items[id]
    ensures var items := SetPath(u.db, id, p).items;
      && RowsFollow(w.db, items, w.db.items[id].path, p, id, FolderPaths("", Segments(rel)))
      && (forall i :: i in items && i != id ==> i in u.db.items && items[i].path == u.db.items[i].path)
  {
    hide Finds, AllKnown, Segments, FolderPaths, SetPath, Inv, FindPath, Within;
    InvIsValid(u.db);
    MovedRowWins(u.db, id, p);
  }

  lemma FolderRowsMove(w: World, u: World, id: nat, src: string, p: string, rel: string, a: Answers, ids: seq<string>)
    requires Reached(w, u, rel, a, ids) && Inv(u.db) && LiteralOnly(w.db, src) && Incomparable(src, p)
    requires id in w.db.items && w.db.items[id].path == src && w.db.items[id].kind.Dir?
    requires OnlyFolders(w.db, u.db, FolderPaths("", Segments(rel)))
    requires forall q :: q in FolderPaths("", Segments(rel)) ==> !Selected(q, src) && |q| < |p|
    ensures var items := RenameRows(u.db, src, p).items;
      && RowsFollow(w.db, items, src, p, id, FolderPaths("", Segments(rel)))
      && (forall i :: i in items && i !in w.db.items ==> i in u.db.items && items[i].path == u.db.items[i].path)
  {
    hide Reached, OnlyFolders, Segments, FolderPaths, RenameRows, Selected, Within, FindPath, Incomparable, Inv,
        RowsMoved, LiteralOnly;
    FoldersStayLiteral(w, u, src, rel, a, ids);
    InvIsValid(u.db);
    RowsMove(u.db, src, p);
    var items := RenameRows(u.db, src, p).items;
    forall j | j in w.db.items && Within(w.db.items[j].path, src) ensures |src| <= |w.db.items[j].path| {
      WithinIsLonger(w.db.items[j].path, src);
    }
    forall j | j in w.db.items && Within(w.db.items[j].path, src)
      ensures var q := Rebase(w.db.items[j].path, src, p);
        (j in items <==> FindPath(w.db, q).None?) && (j in items ==> items[j] == w.db.items[j].(path := q))
    {
      SubtreeRowMoves(w, u, items, src, p, rel, a, ids, j);
    }
    forall j | j in w.db.items && !Within(w.db.items[j].path, src)
      ensures j in items && (w.db.items[j].path !in FolderPaths("", Segments(rel)) ==> items[j] == w.db.items[j])
    {
      OtherRowStays(w, u, items, src, p, rel, a, ids, j);
    }
    forall i | i in items && i !in w.db.items ensures i in u.db.items && items[i].path == u.db.items[i].path {
      FolderRowStays(w, u, items, src, p, rel, i);
    }
  }

  lemma WithinIsLonger(q: string, d: string)
    requires Within(q, d)
    ensures |d| <= |q|
  {
  }

  lemma SubtreeRowMoves(w: World, u: World, items: map<nat, Row>, src: string, p: string, rel: string, a: Answers,
          ids: seq<string>, j: nat)
    requires Reached(w, u, rel, a, ids) && RowsMoved(u.db, items, src, p)
    requires OnlyFolders(w.db, u.db, FolderPaths("", Segments(rel)))
    requires forall q :: q in FolderPaths("", Segments(rel)) ==> !Selected(q, src) && |q| < |p|
    requires j in w.db.items && Within(w.db.items[j].path, src)
    ensures var q := Rebase(w.db.items[j].path, src, p);
      (j in items <==> FindPath(w.db, q).None?) && (j in items ==> items[j] == w.db.items[j].(path := q))
  {
    hide Finds, AllKnown, Segments, FolderPaths, Selected, FindPath, Within;
    SelectClause(w.db.items[j].path, src);
    SameOccupant(w, u, rel, a, ids, w.db.items[j].path, src, p);
  }

  lemma OtherRowStays(w: World, u: World, items: map<nat, Row>, src: string, p: string, rel: string, a: Answers,
          ids: seq<string>, j: nat)
    requires Reached(w, u, rel, a, ids) && RowsMoved(u.db, items, src, p)
    requires j in w.db.items && !Within(w.db.items[j].path, src)
    ensures j in items && (w.db.items[j].path !in FolderPaths("", Segments(rel)) ==> items[j] == w.db.items[j])
  {
    hide Finds, AllKnown, Segments, FolderPaths, FindPath, Within, Rebase;
  }

  lemma FolderRowStays(w: World, u: World, items: map<nat, Row>, src: string, p: string, rel: string, i: nat)
    requires RowsMoved(u.db, items, src, p) && OnlyFolders(w.db, u.db, FolderPaths("", Segments(rel)))
    requires forall q :: q in FolderPaths("", Segments(rel)) ==> !Selected(q, src)
    requires i in items && i !in w.db.items
    ensures i in u.db.items && items[i].path == u.db.items[i].path
  {
    hide Segments, FolderPaths, Selected, FindPath, Within, Rebase;
    SelectClause(u.db.items[i].path, src);
  }

  lemma FoldersStayLiteral(w: World, u: World, src: string, rel: string, a: Answers, ids: seq<string>)
    requires Reached(w, u, rel, a, ids) && LiteralOnly(w.db, src)
    requires OnlyFolders(w.db, u.db, FolderPaths("", Segments(rel)))
    requires forall q :: q in FolderPaths("", Segments(rel)) ==> !Selected(q, src)
    ensures LiteralOnly(u.db, src)
  {
    hide Finds, AllKnown, Segments, FolderPaths, Selected, Within;
    forall i | Affected(u.db, src, i) ensures Within(u.db.items[i].path, src) {
      assert i in w.db.items;
      assert Affected(w.db, src, i);
    }
  }

  // No folder on the way lies at or below the destination.
  lemma SameOccupant(w: World, u: World, rel: string, a: Answers, ids: seq<string>, x: string, src: string, p: string)
    requires Reached(w, u, rel, a, ids) && OnlyFolders(w.db, u.db, FolderPaths("", Segments(rel))) && Within(x, src)
    requires forall q :: q in FolderPaths("", Segments(rel)) ==> |q| < |p|
    ensures FindPath(u.db, Rebase(x, src, p)).None? <==> FindPath(w.db, Rebase(x, src, p)).None?
  {
    hide Finds, AllKnown, Segments, FolderPaths;
    var q := Rebase(x, src, p);
    assert |q| >= |p|;
    if FindPath(w.db, q).Some? {
      assert u.db.items[FindPath(w.db, q).value].path == q;
    }
    if FindPath(u.db, q).Some? {
      var i := FindPath(u.db, q).value;
      assert i in w.db.items && w.db.items[i].path == q;
    }
  }

  lemma MoveActsRun(w: World, id: nat, row: Row, rid: string, parent: string, p: string)
    requires rid in w.drive
    ensures var v := Run(w, MoveActs(id, row, rid, parent, p));
      && v.drive == w.drive[rid := w.drive[rid].(parents := [parent], name := FileName(p))] && v.disk == w.disk
      && v.db == (if row.kind.Dir? then RenameRows(w.db, row.path, p) else SetPath(w.db, id, p))
  {
    hide *;
    var repath := if row.kind.Dir? then RepathTree(row.path, p) else Repath(id, p);
    MoveActsAre(id, row, rid, parent, p);
    MovedNode(w, id, repath, rid, parent, FileName(p));
    RepathSteps(w.db, row.path, id, p);
  }

  lemma MoveActsAre(id: nat, row: Row, rid: string, parent: string, p: string)
    ensures MoveActs(id, row, rid, parent, p) == [Mark(rid), MoveNode(rid, parent, FileName(p)),
      if row.kind.Dir? then RepathTree(row.path, p) else Repath(id, p), Unmark(rid)]
  {
    hide FileName;
  }

  lemma RepathSteps(db: Db, src: string, id: nat, p: string)
    ensures DbStep(db, RepathTree(src, p)) == RenameRows(db, src, p) && DbStep(db, Repath(id, p)) == SetPath(db, id, p)
  {
    hide RenameRows, SetPath;
  }

  lemma MovedNode(w: World, id: nat, repath: Act, rid: string, parent: string, name: string)
    requires rid in w.drive && (repath.RepathTree? || repath.Repath?)
    ensures var v := Run(w, [Mark(rid), MoveNode(rid, parent, name), repath, Unmark(rid)]);
      && v.drive == w.drive[rid := w.drive[rid].(parents := [parent], name := name)] && v.disk == w.disk
      && v.db == DbStep(w.db, repath)
  {
    hide Run, RenameRows, SetPath;
    RunFour(w, Mark(rid), MoveNode(rid, parent, name), repath, Unmark(rid));
  }
}
