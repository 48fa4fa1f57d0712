// The cases of one Drive change: what its first delivery queues, what the drain makes of it, and
// what a further delivery queues again.
module RedeliveryCases {
  import opened Paths
  import opened Tables
  import opened RenameSubtree
  import opened Disk
  import opened World
  import opened Continuous
  import opened Runtime
  import opened Invariants
  import opened Draining
  import opened Redelivery

  // A rename whose destination is free and whose names have no case variants in the index.
  ghost predicate RenameReady(w: World, id: nat, p: string) {
    id in w.db.items && p != "" && Incomparable(w.db.items[id].path, p) && FindPath(w.db, p).None?
    && LiteralOnly(w.db, w.db.items[id].path) && LiteralOnly(w.db, p)
  }

  ghost predicate Ok(w: World, o: nat, a: Answers, clock: nat -> int)
    requires o in w.db.ops && w.db.ops[o].item in w.db.items
  {
    ExecEffect(w, w.db.ops[o].item, w.db.ops[o].op, a, clock(o)).ok
  }

  ghost predicate Holds(db: Db, o: nat, id: nat, op: Operation) {
    o in db.ops && db.ops[o].item == id && db.ops[o].op == op && id in db.items
  }

  lemma AfterDelete(w: World, o: nat, id: nat, tombstone: bool, a: Answers, clock: nat -> int)
    requires Holds(w.db, o, id, DeleteLocal(tombstone)) && Ok(w, o, a, clock)
    ensures var v := ExecOp(w, o, a, clock);
      id in v.db.items ==> Inert(v, id, DeleteLocal(tombstone), a)
  {
    hide Run;
    var row := w.db.items[id];
    var last := if tombstone && row.kind.File? then Tombstone(id, Some(clock(o))) else DeleteItem(id);
    RunTwo(w, RemoveTree(row.path), last);
    RunOne(Step(Step(w, RemoveTree(row.path)), last), FinishOperation(o));
  }

  lemma RenamedRows(db: Db, id: nat, p: string)
    requires Valid(db) && id in db.items && Incomparable(db.items[id].path, p)
    requires LiteralOnly(db, db.items[id].path) && LiteralOnly(db, p)
    ensures var after := RenameRows(db, db.items[id].path, p);
      && (id in after.items <==> FindPath(db, p).None?)
      && (id in after.items ==> after.items[id] == db.items[id].(path := p))
      && LiteralOnly(after, p)
  {
    hide RenameLoop, Selected, FindPath;
    var src := db.items[id].path;
    var after := RenameRows(db, src, p);
    assert Within(src, src) && Rebase(src, src, p) == p;
    RenameMeaning(db, src, p, ScanOrder(db, src, db.nextItem));
    forall j | Affected(after, p, j) ensures Within(after.items[j].path, p) {
      if Within(db.items[j].path, src) {
        RebaseWithin(db.items[j].path, src, p);
      } else {
        assert Affected(db, p, j);
      }
    }
  }

  lemma ParentStays(d: Disk, src: string, dst: string)
    requires Incomparable(src, dst) && (ParentDir(dst) == "" || IsDir(d, ParentDir(dst)))
    ensures ParentDir(dst) == "" || IsDir(MoveTree(d, src, dst), ParentDir(dst))
  {
    hide MoveTree, ParentDir;
    var up := ParentDir(dst);
    MoveTreeAt(d, src, dst, up);
    if up != "" {
      assert Below(dst, up) && !Within(up, dst);
      if Within(up, src) { BelowTransitive(dst, up, src); }
      assert At(MoveTree(d, src, dst), up) == At(d, up);
    }
  }

  lemma AfterRename(w: World, o: nat, id: nat, p: string, a: Answers, clock: nat -> int)
    requires Inv(w.db) && Tree(w.disk) && Holds(w.db, o, id, RenameLocal(p)) && Ok(w, o, a, clock)
    requires RenameReady(w, id, p)
    ensures var v := ExecOp(w, o, a, clock);
      && Inert(v, id, RenameLocal(p), a) && v.drive == w.drive
      && v.db.items[id] == w.db.items[id].(path := p)
  {
    hide ExecOp, ExecEffect, Inv, Tree, RenameRows, RenamedDisk, LiteralOnly, Incomparable, FindPath, ParentDir;
    InvIsValid(w.db);
    var src := w.db.items[id].path;
    ExecRename(w, o, id, p, a, clock);
    RenamedRows(w.db, id, p);
    ParentAfterRename(w, id, p, a, clock(o));
    LiteralByPaths(RenameRows(w.db, src, p), ExecOp(w, o, a, clock).db, p);
  }

  lemma ParentAfterRename(w: World, id: nat, p: string, a: Answers, now: int)
    requires Tree(w.disk) && id in w.db.items && Incomparable(w.db.items[id].path, p)
    requires ExecEffect(w, id, RenameLocal(p), a, now).ok
    ensures ParentDir(p) == "" || IsDir(RenamedDisk(w.disk, w.db.items[id].path, p), ParentDir(p))
  {
    hide Tree, MoveTree, MkdirAll, MkdirOk, ParentDir, RenameOutcome, Incomparable;
    MkdirKeepsTree(w.disk, ParentDir(p));
    ParentStays(MkdirAll(w.disk, ParentDir(p)), w.db.items[id].path, p);
  }

  lemma AfterDownload(w: World, o: nat, id: nat, rid: string, size: int, md5: Hash, p: string, a: Answers,
          clock: nat -> int)
    requires Holds(w.db, o, id, Download(rid, size, md5, p)) && Ok(w, o, a, clock) && Tree(w.disk) && p != ""
    ensures var v := ExecOp(w, o, a, clock);
      && Inert(v, id, Download(rid, size, md5, p), a)
      && v.db.items.Keys == w.db.items.Keys
      && (forall j :: j in w.db.items ==> v.db.items[j].path == w.db.items[j].path)
  {
    hide ExecOp, ExecEffect, Tree, MkdirAll, MkdirOk, ParentDir;
    assert ParentDir(p) != p;
    ExecDownloadOp(w, o, id, Download(rid, size, md5, p), a, clock);
    MkdirKeepsTree(w.disk, ParentDir(p));
  }

  lemma LiteralByPaths(db: Db, e: Db, p: string)
    requires LiteralOnly(db, p) && e.items.Keys == db.items.Keys
    requires forall j :: j in db.items ==> e.items[j].path == db.items[j].path
    ensures LiteralOnly(e, p)
  {
    hide Selected, Within;
    forall j | Affected(e, p, j) ensures Within(e.items[j].path, p) {
      assert Affected(db, p, j);
    }
  }

  // ---- what sits in the queue after the first delivery ------------------------------------

  // Q is all there is from n on ...
  ghost predicate QueuedLast(db: Db, n: nat, Q: seq<(nat, Operation)>) {
    && db.nextOp == n + |Q|
    && (forall o :: o >= n ==> (o in db.ops <==> o < n + |Q|))
    && (forall i :: 0 <= i < |Q| ==> db.ops[n + i].item == Q[i].0 && db.ops[n + i].op == Q[i].1 && Q[i].0 in db.items)
  }

  // ... and all there is.
  ghost predicate Queued(db: Db, n: nat, Q: seq<(nat, Operation)>) {
    QueuedLast(db, n, Q) && forall o :: o in db.ops ==> o >= n
  }

  // The lists one change can queue.
  ghost predicate KnownShape(Q: seq<(nat, Operation)>) {
    || Q == []
    || (|Q| == 1 && (Q[0].1.DeleteLocal? || Q[0].1.Download? || Q[0].1.RenameLocal?))
    || (|Q| == 2 && Q[0].0 == Q[1].0 && Q[0].1.RenameLocal? && Q[1].1.Download? && Q[1].1.rel == Q[0].1.newRel)
  }

  ghost predicate TargetsReady(w: World, Q: seq<(nat, Operation)>) {
    forall i :: 0 <= i < |Q| ==>
      && (Q[i].1.RenameLocal? ==> RenameReady(w, Q[i].0, Q[i].1.newRel))
      && (Q[i].1.Download? ==> Q[i].1.rel != "")
  }

  lemma {:induction false} SkipTo(w: World, k: nat, m: nat, n: nat, a: Answers, clock: nat -> int)
    requires k <= m <= n && forall o :: o in w.db.ops ==> o >= m
    ensures DrainTo(w, k, n, a, clock) == DrainTo(w, m, n, a, clock)
    ensures AllSucceed(w, k, n, a, clock) <==> AllSucceed(w, m, n, a, clock)
    decreases m - k
  {
    hide ExecOp, ExecEffect;
    if k < m {
      SkipIsIdle(w, k, a, clock);
      SkipTo(w, k + 1, m, n, a, clock);
    }
  }

  lemma FirstOf(w: World, n: nat, Q: seq<(nat, Operation)>, a: Answers, clock: nat -> int)
    requires QueuedLast(w.db, n, Q) && |Q| >= 1 && AllSucceed(w, n, n + |Q|, a, clock)
    ensures Holds(w.db, n, Q[0].0, Q[0].1) && Ok(w, n, a, clock)
    ensures DrainTo(w, n, n + |Q|, a, clock) == DrainTo(ExecOp(w, n, a, clock), n + 1, n + |Q|, a, clock)
    ensures AllSucceed(ExecOp(w, n, a, clock), n + 1, n + |Q|, a, clock)
  {
    hide ExecOp, ExecEffect;
  }

  lemma OnlyOne(w: World, n: nat, id: nat, op: Operation, a: Answers, clock: nat -> int)
    requires Queued(w.db, n, [(id, op)])
    ensures Holds(w.db, n, id, op) && Drain(w, a, clock) == ExecOp(w, n, a, clock)
    ensures forall o :: o in w.db.ops <==> o == n
  {
    hide ExecOp;
    assert [(id, op)][0] == (id, op);
    SkipTo(w, 0, n, n + 1, a, clock);
    assert DrainTo(w, n, n + 1, a, clock) == DrainTo(ExecOp(w, n, a, clock), n + 1, n + 1, a, clock);
  }

  // At most two operations are drained, one after the other.
  lemma ShortDrain(u: World, n: nat, a: Answers, clock: nat -> int)
    requires n < u.db.nextOp <= n + 2 && forall o :: o in u.db.ops ==> o >= n
    ensures Drain(u, a, clock) == if u.db.nextOp == n + 1 then ExecOp(u, n, a, clock)
      else ExecOp(ExecOp(u, n, a, clock), n + 1, a, clock)
  {
    hide ExecOp;
    SkipTo(u, 0, n, u.db.nextOp, a, clock);
    var mid := ExecOp(u, n, a, clock);
    assert DrainTo(mid, n + 1, n + 1, a, clock) == mid;
    assert DrainTo(mid, n + 1, n + 2, a, clock) == ExecOp(mid, n + 1, a, clock);
  }

  lemma OneSettles(w: World, n: nat, Q: seq<(nat, Operation)>, a: Answers, clock: nat -> int)
    requires Inv(w.db) && Tree(w.disk) && KnownShape(Q) && TargetsReady(w, Q) && QueuedLast(w.db, n, Q) && |Q| == 1
    requires AllSucceed(w, n, n + 1, a, clock)
    ensures var v := DrainTo(w, n, n + 1, a, clock); Q[0].0 in v.db.items ==> Inert(v, Q[0].0, Q[0].1, a)
  {
    hide Inv, Tree, ExecOp, Inert, RenameReady, QueuedLast, Ok, AllSucceed;
    FirstOf(w, n, Q, a, clock);
    match Q[0].1 {
      case DeleteLocal(t) => AfterDelete(w, n, Q[0].0, t, a, clock);
      case Download(rid, size, md5, rel) => AfterDownload(w, n, Q[0].0, rid, size, md5, rel, a, clock);
      case RenameLocal(p) => AfterRename(w, n, Q[0].0, p, a, clock);
    }
  }

  lemma RenameKeepsRest(w: World, o: nat, id: nat, p: string, a: Answers, clock: nat -> int)
    requires Tree(w.disk) && Holds(w.db, o, id, RenameLocal(p)) && Ok(w, o, a, clock)
    requires Incomparable(w.db.items[id].path, p) && p != ""
    ensures var v := ExecOp(w, o, a, clock);
      && Tree(v.disk)
      && (forall q :: q in w.db.ops && q != o && w.db.ops[q].item in v.db.items ==>
          q in v.db.ops && v.db.ops[q] == w.db.ops[q])
  {
    hide ExecOp, ExecEffect, Tree, RenameLoop, RenamedDisk, Incomparable;
    var src := w.db.items[id].path;
    ExecRename(w, o, id, p, a, clock);
    LoopKeepsOps(w.db, src, p, ScanOrder(w.db, src, w.db.nextItem));
    RenamedTree(w, id, p, a, clock(o));
  }

  lemma RenamedTree(w: World, id: nat, p: string, a: Answers, now: int)
    requires Tree(w.disk) && id in w.db.items && Incomparable(w.db.items[id].path, p) && p != ""
    requires ExecEffect(w, id, RenameLocal(p), a, now).ok
    ensures Tree(RenamedDisk(w.disk, w.db.items[id].path, p))
  {
    hide Tree, MoveTree, Mergeable, Incomparable, MkdirAll, MkdirOk, ParentDir, RenameOutcome;
    MkdirKeepsTree(w.disk, ParentDir(p));
    var d := MkdirAll(w.disk, ParentDir(p));
    if !RenameOutcome(d, w.db.items[id].path, p).NotFound? { MergedTree(d, w.db.items[id].path, p); }
  }

  lemma {:induction false} MergedTree(d: Disk, src: string, dst: string)
    requires Tree(d) && Incomparable(src, dst) && dst != "" && (ParentDir(dst) == "" || IsDir(d, ParentDir(dst)))
    requires RenameOutcome(d, src, dst).Done? || (RenameOutcome(d, src, dst).NotEmpty? && Mergeable(d, src, dst))
    ensures Tree(MoveTree(d, src, dst))
  {
    hide Mergeable, MoveTree, ParentDir, Within;
    assert src != "" by { hide Incomparable; }
    if RenameOutcome(d, src, dst).Done? { RenameIsMergeable(d, src, dst); }
    MoveKeepsTree(d, src, dst);
  }

  lemma TwoSettle(w: World, n: nat, Q: seq<(nat, Operation)>, a: Answers, clock: nat -> int)
    requires Inv(w.db) && Tree(w.disk) && KnownShape(Q) && TargetsReady(w, Q) && QueuedLast(w.db, n, Q) && |Q| == 2
    requires AllSucceed(w, n, n + 2, a, clock)
    ensures var v := DrainTo(w, n, n + 2, a, clock); Inert(v, Q[0].0, Q[0].1, a) && Inert(v, Q[1].0, Q[1].1, a)
  {
    hide Inv, Tree, ExecOp, LiteralOnly, Incomparable, FindPath, Ok, AllSucceed, ExecEffect;
    FirstOf(w, n, Q, a, clock);
    var id, p := Q[0].0, Q[0].1.newRel;
    var u := ExecOp(w, n, a, clock);
    AfterRename(w, n, id, p, a, clock);
    RenameKeepsRest(w, n, id, p, a, clock);
    assert Holds(u.db, n + 1, id, Q[1].1);
    SecondOf(u, n + 1, a, clock);
    AfterDownload(u, n + 1, id, Q[1].1.remoteId, Q[1].1.size, Q[1].1.md5, p, a, clock);
    LiteralByPaths(u.db, ExecOp(u, n + 1, a, clock).db, p);
  }

  lemma SecondOf(u: World, n: nat, a: Answers, clock: nat -> int)
    requires AllSucceed(u, n, n + 1, a, clock)
    requires n in u.db.ops && u.db.ops[n].item in u.db.items
    ensures Ok(u, n, a, clock) && DrainTo(u, n, n + 1, a, clock) == ExecOp(u, n, a, clock)
  {
    hide ExecOp, ExecEffect;
  }

  // The first delivery queues Q; every further one queues nothing but operations from Q again.
  ghost predicate FirstDelivery(w: World, w1: World, c: Change, Q: seq<(nat, Operation)>, R: seq<(nat, Operation)>) {
    && Queued(w1.db, w.db.nextOp, Q)
    && OnlyRequeues(w1, c, R) && (R == [] || (R == Q && KnownShape(Q)))
  }

  // ---- the first delivery, case by case ---------------------------------------------------

  ghost predicate EmptyQueue(w: World) { Inv(w.db) && w.db.ops == map[] }

  lemma QueueAny(w: World, id: nat, op: Operation, now: int)
    requires w.db.ops == map[] && id in w.db.items
    ensures var v := Step(w, Queue(id, op, now));
      EqButOps(v, w) && Queued(v.db, w.db.nextOp, [(id, op)])
  {
  }

  lemma QueueOne(w: World, id: nat, op: Operation, now: int)
    requires EmptyQueue(w) && id in w.db.items
    ensures var v := Run(w, [Queue(id, op, now)]);
      EqButOps(v, w) && Queued(v.db, w.db.nextOp, [(id, op)])
  {
    hide Run, Inv;
    RunOne(w, Queue(id, op, now));
    QueueAny(w, id, op, now);
  }

  lemma TwoQueued(db: Db, n: nat, id: nat, op: Operation, op': Operation)
    requires db.nextOp == n + 2 && id in db.items && db.ops.Keys == {n, n + 1}
    requires db.ops[n].item == id && db.ops[n].op == op && db.ops[n + 1].item == id && db.ops[n + 1].op == op'
    ensures Queued(db, n, [(id, op), (id, op')])
  {
  }

  lemma QueueTwoAny(w: World, id: nat, op: Operation, op': Operation, now: int)
    requires w.db.ops == map[] && id in w.db.items
    ensures var v := Step(Step(w, Queue(id, op, now)), Queue(id, op', now));
      && EqButOps(v, w) && v.db.nextOp == w.db.nextOp + 2
      && v.db.ops == map[w.db.nextOp := Pending(id, op, 0, now, now), w.db.nextOp + 1 := Pending(id, op', 0, now, now)]
  {
    hide Inv;
  }

  lemma QueueTwo(w: World, id: nat, op: Operation, op': Operation, now: int)
    requires EmptyQueue(w) && id in w.db.items
    ensures var v := Run(w, [Queue(id, op, now), Queue(id, op', now)]);
      EqButOps(v, w) && Queued(v.db, w.db.nextOp, [(id, op), (id, op')])
  {
    hide Run, Inv, Step, Queued;
    RunTwo(w, Queue(id, op, now), Queue(id, op', now));
    QueueTwoAny(w, id, op, op', now);
    TwoQueued(Run(w, [Queue(id, op, now), Queue(id, op', now)]).db, w.db.nextOp, id, op, op');
  }

  // A change whose writes only queue operations repeats itself.
  lemma QueueOnlyCase(w: World, c: Change, now: int, Q: seq<(nat, Operation)>)
    requires EmptyQueue(w) && KnownShape(Q)
    requires forall i :: 0 <= i < |Q| ==> Q[i].0 in w.db.items
    requires |Q| == 0 ==> forall t :: RemoteActs(w, c, t) == Some([]) || RemoteActs(w, c, t) == None
    requires |Q| == 1 ==> forall t :: RemoteActs(w, c, t) == Some([Queue(Q[0].0, Q[0].1, t)])
    requires |Q| == 2 ==> forall t :: RemoteActs(w, c, t) == Some([Queue(Q[0].0, Q[0].1, t), Queue(Q[0].0, Q[1].1, t)])
    ensures FirstDelivery(w, Deliver(w, c, now), c, Q, Q)
  {
    hide RemoteActs, Run, Inv;
    var w1 := Deliver(w, c, now);
    RunShort(w);
    if |Q| == 1 {
      QueueOne(w, Q[0].0, Q[0].1, now);
      assert Q == [(Q[0].0, Q[0].1)];
    } else if |Q| == 2 {
      QueueTwo(w, Q[0].0, Q[0].1, Q[1].1, now);
      assert Q == [(Q[0].0, Q[0].1), (Q[0].0, Q[1].1)];
    }
    forall t ensures RemoteActs(w1, c, t) == RemoteActs(w, c, t) {
      ReconcilerIgnoresQueue(w1, w, c, t);
    }
    assert Q != [] ==> Q[0] in Q;
    assert |Q| == 2 ==> Q[1] in Q;
  }

  lemma InsertThenQueue(w: World, row: Row, op: Operation, now: int)
    requires EmptyQueue(w) && FindPath(w.db, row.path).None?
    ensures var v := Run(w, [InsertItem(row), Queue(w.db.nextItem, op, now)]);
      && v.disk == w.disk && v.inFlight == w.inFlight
      && v.db.items == w.db.items[w.db.nextItem := row]
      && Queued(v.db, w.db.nextOp, [(w.db.nextItem, op)])
  {
    hide Run, Inv, FindPath;
    RunTwo(w, InsertItem(row), Queue(w.db.nextItem, op, now));
    var u := Step(w, InsertItem(row));
    assert u.db == w.db.(items := w.db.items[w.db.nextItem := row], nextItem := w.db.nextItem + 1);
    QueueAny(u, w.db.nextItem, op, now);
  }

  // A new node on Drive: afterwards its row answers every repetition.
  lemma ImportCase(w: World, c: Change, now: int, row: Row, op: Operation)
    requires EmptyQueue(w) && c.fileId !in w.inFlight
    requires !c.removed && c.file.Some? && !c.file.value.trashed && FindRemote(w.db, c.fileId).None?
    requires RemoteActs(w, c, now) == Some([InsertItem(row), Queue(w.db.nextItem, op, now)])
    requires FindPath(w.db, row.path).None? && row.remoteId == Some(c.fileId)
    ensures FirstDelivery(w, Deliver(w, c, now), c, [(w.db.nextItem, op)], [])
  {
    hide Run;
    InsertThenQueue(w, row, op, now);
    var w1 := Deliver(w, c, now);
    assert w1.db.items[w.db.nextItem] == row;
    FoundAgain(w, w1, c.fileId, row);
    ImportedAnswers(w, w1, c, now, row, op);
  }

  lemma FoundAgain(w: World, w1: World, rid: string, row: Row)
    requires FindRemote(w.db, rid).None? && row.remoteId == Some(rid)
    requires w1.db.items == w.db.items[w.db.nextItem := row]
    ensures FindRemote(w1.db, rid) == Some(w.db.nextItem)
  {
    assert w1.db.items[w.db.nextItem].remoteId == Some(rid);
    assert forall i :: i in w1.db.items && i != w.db.nextItem ==> w1.db.items[i].remoteId != Some(rid);
  }

  // The row a change was imported as, read back off the acts that imported it.
  lemma ImportedRow(w: World, c: Change, now: int, row: Row, op: Operation)
    requires c.fileId !in w.inFlight && !c.removed && c.file.Some? && !c.file.value.trashed
    requires FindRemote(w.db, c.fileId).None?
    requires RemoteActs(w, c, now) == Some([InsertItem(row), Queue(w.db.nextItem, op, now)])
    ensures row.trashedAt.None?
    ensures var f := c.file.value;
      var rel := Default(c.path, f.name);
      match f.mime
      case FolderMime => row.path == rel
      case NativeDoc(ext, _) => row.path == ShortcutPath(rel, ext)
      case Opaque => f.md5.Some? && row.path == rel && row.md5 == f.md5 && row.size == Some(Default(f.size, 0))
  {
    hide FindRemote, FindPath, ParentDir, ShortcutPath;
    assert RemoteActs(w, c, now).value[0] == InsertItem(row);
  }

  lemma ImportedAnswers(w: World, w1: World, c: Change, now: int, row: Row, op: Operation)
    requires c.fileId !in w1.inFlight && !c.removed && c.file.Some? && !c.file.value.trashed
    requires c.fileId !in w.inFlight
    requires FindRemote(w.db, c.fileId).None? && FindRemote(w1.db, c.fileId) == Some(w.db.nextItem)
    requires RemoteActs(w, c, now) == Some([InsertItem(row), Queue(w.db.nextItem, op, now)])
    requires w.db.nextItem in w1.db.items && w1.db.items[w.db.nextItem] == row
    ensures forall t :: RemoteActs(w1, c, t) == Some([])
  {
    hide FindRemote, FindPath, ParentDir, ShortcutPath, MovedFileActs, EditedFileActs;
    ImportedRow(w, c, now, row, op);
    var f := c.file.value;
    forall t ensures RemoteActs(w1, c, t) == Some([]) {
      match f.mime {
        case FolderMime => assert FolderActs(w1, c, Some(w.db.nextItem), t) == [];
        case NativeDoc(ext, _) => assert NativeActs(w1, c, Some(w.db.nextItem), t) == Some([]);
        case Opaque => assert FileActs(w1, c, Some(w.db.nextItem), t) == Some([]);
      }
    }
  }

  // The restored tombstone of a file: cleared once, downloaded as often as it is reported.
  lemma RestoreCase(w: World, c: Change, now: int, id: nat)
    requires EmptyQueue(w) && c.fileId !in w.inFlight && !c.removed && c.file.Some? && !c.file.value.trashed
    requires FindRemote(w.db, c.fileId) == Some(id) && w.db.items[id].trashedAt.Some?
    requires c.file.value.mime.Opaque? && c.file.value.md5.Some?
    requires (c.path.Some? ==> c.path.value == w.db.items[id].path) && !IsFile(w.disk, w.db.items[id].path)
    ensures var f := c.file.value;
      var Q := [(id, Download(f.id, Default(f.size, 0), f.md5.value, w.db.items[id].path))];
      FirstDelivery(w, Deliver(w, c, now), c, Q, Q) || FirstDelivery(w, Deliver(w, c, now), c, Q, [])
  {
    hide Run, Inv, EqButOps, Queued, OnlyRequeues, FindRemote, FindPath;
    var f, row := c.file.value, w.db.items[id];
    var op := Download(f.id, Default(f.size, 0), f.md5.value, row.path);
    RunTwo(w, Tombstone(id, None), Queue(id, op, now));
    var u := Step(w, Tombstone(id, None));
    QueueAny(u, id, op, now);
    var w1 := Deliver(w, c, now);
    SameRemotes(w, w1, c.fileId);
    RestoredAnswers(w1, c, id, op);
  }

  lemma SameRemotes(w: World, w1: World, rid: string)
    requires w.db.items.Keys == w1.db.items.Keys
    requires forall j :: j in w.db.items ==> w1.db.items[j].remoteId == w.db.items[j].remoteId
    ensures FindRemote(w1.db, rid) == FindRemote(w.db, rid)
  {
  }

  lemma RestoredAnswers(w1: World, c: Change, id: nat, op: Operation)
    requires c.fileId !in w1.inFlight && !c.removed && c.file.Some? && !c.file.value.trashed
    requires c.file.value.mime.Opaque? && c.file.value.md5.Some?
    requires FindRemote(w1.db, c.fileId) == Some(id) && w1.db.items[id].trashedAt.None?
    requires (c.path.Some? ==> c.path.value == w1.db.items[id].path) && !IsFile(w1.disk, w1.db.items[id].path)
    requires op == Download(c.file.value.id, Default(c.file.value.size, 0), c.file.value.md5.value,
        w1.db.items[id].path)
    ensures OnlyRequeues(w1, c, [(id, op)]) || OnlyRequeues(w1, c, [])
  {
    hide FindRemote, FindPath, ParentDir;
    var same := w1.db.items[id].md5 == Some(c.file.value.md5.value) &&
        w1.db.items[id].size == Some(Default(c.file.value.size, 0));
    forall t ensures RemoteActs(w1, c, t) == Some(if same then [] else [Queue(id, op, t)]) {}
  }
}
