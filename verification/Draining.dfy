// Draining the queue: the operations run one after another, oldest first; an operation whose item
// was deleted meanwhile is gone with it (src/daemon/runtime.rs, src/state/ops.rs).
module Draining {
  import opened Paths
  import opened Tables
  import opened RenameSubtree
  import opened Disk
  import opened World
  import opened Runtime

  // Operation o runs. It is removed from the queue if it succeeds, and stays for a later retry if not.
  ghost function ExecOp(w: World, o: nat, a: Answers, clock: nat -> int): World {
    if o !in w.db.ops || w.db.ops[o].item !in w.db.items then w
    else
      var e := ExecEffect(w, w.db.ops[o].item, w.db.ops[o].op, a, clock(o));
      Run(Run(w, e.acts), [if e.ok then FinishOperation(o) else Reschedule(o, a.retryAt(o))])
  }

  // The operations with ids from k up to n, each once, in the order they were queued.
  ghost function DrainTo(w: World, k: nat, n: nat, a: Answers, clock: nat -> int): World
    decreases n - k
  {
    if k >= n then w else DrainTo(ExecOp(w, k, a, clock), k + 1, n, a, clock)
  }

  ghost function Drain(w: World, a: Answers, clock: nat -> int): World {
    DrainTo(w, 0, w.db.nextOp, a, clock)
  }

  ghost predicate AllSucceed(w: World, k: nat, n: nat, a: Answers, clock: nat -> int)
    decreases n - k
  {
    k >= n ||
    ((k in w.db.ops && w.db.ops[k].item in w.db.items ==>
        ExecEffect(w, w.db.ops[k].item, w.db.ops[k].op, a, clock(k)).ok)
     && AllSucceed(ExecOp(w, k, a, clock), k + 1, n, a, clock))
  }

  lemma RescheduleRuns(w: World, o: nat, at: int)
    ensures Run(w, [Reschedule(o, at)]) == w.(db := MarkAttempt(w.db, o, at))
  {
    hide Run;
    RunOne(w, Reschedule(o, at));
  }

  lemma FinishRuns(w: World, o: nat)
    ensures Run(w, [FinishOperation(o)]) == w.(db := FinishOp(w.db, o))
  {
    hide Run;
    RunOne(w, FinishOperation(o));
  }

  // What a successful local rename leaves on disk.
  ghost function RenamedDisk(d: Disk, src: string, p: string): Disk {
    var made := MkdirAll(d, ParentDir(p));
    if RenameOutcome(made, src, p).NotFound? then made else MoveTree(made, src, p)
  }

  lemma RenameRunsTo(w: World, id: nat, p: string)
    requires id in w.db.items && RenameLocalEffect(w, id, p).ok
    ensures var src := w.db.items[id].path;
      Run(w, RenameLocalEffect(w, id, p).acts) ==
          w.(disk := RenamedDisk(w.disk, src, p), db := RenameRows(w.db, src, p))
  {
    hide Run, MkdirAll, MkdirOk, ParentDir, RenameOutcome, Mergeable, MoveTree, RenameRows;
    var src, made := w.db.items[id].path, MakeDirs(ParentDir(p));
    RunThree(w, made, MoveLocal(src, p), RepathTree(src, p));
    RunTwo(w, made, RepathTree(src, p));
  }

  lemma ExecRename(w: World, o: nat, id: nat, p: string, a: Answers, clock: nat -> int)
    requires o in w.db.ops && w.db.ops[o].item == id && w.db.ops[o].op == RenameLocal(p) && id in w.db.items
    requires ExecEffect(w, id, RenameLocal(p), a, clock(o)).ok
    ensures var src := w.db.items[id].path;
      ExecOp(w, o, a, clock) == w.(disk := RenamedDisk(w.disk, src, p), db := FinishOp(RenameRows(w.db, src, p), o))
  {
    hide Run, RenamedDisk, RenameRows, RenameLocalEffect;
    RenameRunsTo(w, id, p);
    FinishRuns(Run(w, RenameLocalEffect(w, id, p).acts), o);
  }

  lemma DownloadRuns(w: World, id: nat, p: string, bytes: Bytes, now: int)
    requires id in w.db.items
    ensures Run(w, DownloadActs(id, p, bytes, now)) ==
      w.(disk := MkdirAll(w.disk, ParentDir(p))[p := FileNode(bytes)],
         db := SetFingerprint(w.db, id, |bytes|, Md5(bytes), now))
  {
    hide Run, MkdirAll, ParentDir;
    RunThree(w, MakeDirs(ParentDir(p)), WriteFile(p, bytes), Fingerprint(id, |bytes|, Md5(bytes), now));
  }

  // The row a successful download leaves.
  function Fetched(row: Row, rid: string, bytes: Bytes, now: int): Row {
    row.(size := Some(|bytes|), md5 := Some(Md5(bytes)), syncedAt := now, remoteId := Some(rid))
  }

  lemma DownloadRunsTo(w: World, id: nat, rid: string, p: string, a: Answers, now: int)
    requires id in w.db.items && DownloadEffect(w, id, rid, p, a, now).ok
    ensures rid in w.drive && var bytes := w.drive[rid].bytes;
      Run(w, DownloadEffect(w, id, rid, p, a, now).acts) ==
        w.(disk := MkdirAll(w.disk, ParentDir(p))[p := FileNode(bytes)],
           db := w.db.(items := w.db.items[id := Fetched(w.db.items[id], rid, bytes, now)]))
  {
    hide Run, MkdirAll, MkdirOk, ParentDir, DownloadActs;
    var bytes := w.drive[rid].bytes;
    var acts := DownloadActs(id, p, bytes, now);
    DownloadRuns(w, id, p, bytes, now);
    if w.db.items[id].remoteId != Some(rid) {
      RunConcat(w, acts, [LinkRemote(id, rid)]);
      RunOne(Run(w, acts), LinkRemote(id, rid));
    } else {
      assert acts + [] == acts;
    }
  }

  lemma ExecDownloadOp(w: World, o: nat, id: nat, op: Operation, a: Answers, clock: nat -> int)
    requires op.Download? && o in w.db.ops && w.db.ops[o].item == id && w.db.ops[o].op == op && id in w.db.items
    requires ExecEffect(w, id, op, a, clock(o)).ok
    ensures op.remoteId in w.drive && var bytes := w.drive[op.remoteId].bytes;
      ExecOp(w, o, a, clock) ==
        w.(disk := MkdirAll(w.disk, ParentDir(op.rel))[op.rel := FileNode(bytes)],
           db := FinishOp(w.db.(items := w.db.items[id := Fetched(w.db.items[id], op.remoteId, bytes, clock(o))]), o))
    ensures a.reply.Accepted? && MkdirOk(w.disk, ParentDir(op.rel))
  {
    hide Run, MkdirAll, MkdirOk, ParentDir, DownloadActs, Fetched;
    DownloadRunsTo(w, id, op.remoteId, op.rel, a, clock(o));
    FinishRuns(Run(w, DownloadEffect(w, id, op.remoteId, op.rel, a, clock(o)).acts), o);
  }

  lemma {:induction false} DrainSplits(w: World, k: nat, m: nat, n: nat, a: Answers, clock: nat -> int)
    requires k <= m <= n
    ensures DrainTo(w, k, n, a, clock) == DrainTo(DrainTo(w, k, m, a, clock), m, n, a, clock)
    decreases m - k
  {
    hide ExecOp;
    if k < m {
      DrainSplits(ExecOp(w, k, a, clock), k + 1, m, n, a, clock);
    }
  }

  // ---- worlds that differ in the queue only ----------------------------------------------

  ghost predicate EqButOps(w: World, v: World) {
    && w.disk == v.disk && w.drive == v.drive && w.inFlight == v.inFlight
    && w.db.items == v.db.items && w.db.conflicts == v.db.conflicts
    && w.db.nextItem == v.db.nextItem && w.db.nextConflict == v.db.nextConflict
  }

  // ... and agree on the operations queued before m.
  ghost predicate Agree(w: World, v: World, m: nat) {
    EqButOps(w, v)
    && forall o :: o < m ==> (o in w.db.ops <==> o in v.db.ops) && (o in w.db.ops ==> w.db.ops[o] == v.db.ops[o])
  }

  // The writes of an operation neither queue nor reschedule nor finish anything.
  predicate Quiet(acts: seq<Act>) {
    forall a :: a in acts ==> !a.Queue? && !a.Reschedule? && !a.FinishOperation?
  }

  lemma SameFinds(db: Db, e: Db)
    requires db.items == e.items
    ensures forall p :: FindPath(db, p) == FindPath(e, p)
    ensures forall r :: FindRemote(db, r) == FindRemote(e, r)
  {
  }

  lemma SameScan(db: Db, e: Db, src: string, n: nat)
    requires db.items == e.items
    ensures ScanOrder(db, src, n) == ScanOrder(e, src, n)
  {
  }

  lemma AgreeDrop(w: World, v: World, ids: set<nat>, m: nat)
    requires Agree(w, v, m)
    ensures Agree(w.(db := DropRows(w.db, ids)), v.(db := DropRows(v.db, ids)), m)
  {
  }

  lemma {:induction false} AgreeLoop(w: World, v: World, src: string, dst: string, order: seq<nat>, m: nat)
    requires Agree(w, v, m)
    ensures Agree(w.(db := RenameLoop(w.db, src, dst, order)), v.(db := RenameLoop(v.db, src, dst, order)), m)
    decreases |order|
  {
    if order != [] {
      var id := order[0];
      var w1, v1 := w.(db := RenameOne(w.db, src, dst, id)), v.(db := RenameOne(v.db, src, dst, id));
      assert Agree(w1, v1, m) by {
        hide Agree;
        AgreeOne(w, v, src, dst, id, m);
      }
      AgreeLoop(w1, v1, src, dst, order[1..], m);
    }
  }

  lemma AgreeOne(w: World, v: World, src: string, dst: string, id: nat, m: nat)
    requires Agree(w, v, m)
    ensures Agree(w.(db := RenameOne(w.db, src, dst, id)), v.(db := RenameOne(v.db, src, dst, id)), m)
  {
    hide Selected, Rebase;
    AgreeDrop(w, v, {id}, m);
  }

  lemma AgreeRows(w: World, v: World, src: string, dst: string, m: nat)
    requires Agree(w, v, m)
    ensures Agree(w.(db := RenameRows(w.db, src, dst)), v.(db := RenameRows(v.db, src, dst)), m)
  {
    hide RenameLoop;
    SameScan(w.db, v.db, src, w.db.nextItem);
    AgreeLoop(w, v, src, dst, ScanOrder(w.db, src, w.db.nextItem), m);
  }

  lemma AgreePath(w: World, v: World, id: nat, p: string, m: nat)
    requires Agree(w, v, m)
    ensures Agree(w.(db := SetPath(w.db, id, p)), v.(db := SetPath(v.db, id, p)), m)
  {
    AgreeDrop(w, v, (set j | j in w.db.items && j != id && w.db.items[j].path == p), m);
  }

  lemma AgreeOther(w: World, v: World, act: Act, m: nat)
    requires Agree(w, v, m) && !act.Queue? && !act.Reschedule? && !act.RepathTree? && !act.Repath? && !act.DeleteItem?
    ensures Agree(w.(db := DbStep(w.db, act)), v.(db := DbStep(v.db, act)), m)
  {
    hide FindPath;
    SameFinds(w.db, v.db);
  }

  lemma AgreeStep(w: World, v: World, act: Act, m: nat)
    requires Agree(w, v, m) && !act.Queue? && !act.Reschedule?
    ensures Agree(Step(w, act), Step(v, act), m)
  {
    assert Agree(w.(db := DbStep(w.db, act)), v.(db := DbStep(v.db, act)), m) by {
      hide RenameRows, DropRows, SetPath, Agree;
      match act
      case RepathTree(src, dst) => AgreeRows(w, v, src, dst, m);
      case Repath(id, p) => AgreePath(w, v, id, p, m);
      case DeleteItem(id) => AgreeDrop(w, v, {id}, m);
      case _ => AgreeOther(w, v, act, m);
    }
    hide DbStep, DiskStep, DriveStep;
  }

  lemma {:induction false} AgreeRun(w: World, v: World, acts: seq<Act>, m: nat)
    requires Agree(w, v, m) && Quiet(acts)
    ensures Agree(Run(w, acts), Run(v, acts), m)
    decreases |acts|
  {
    hide Agree, Step;
    if acts != [] {
      AgreeStep(w, v, acts[0], m);
      AgreeRun(Step(w, acts[0]), Step(v, acts[0]), acts[1..], m);
    }
  }

  // ---- no operation looks at the queue ---------------------------------------------------

  lemma SegmentIgnoresQueue(w: World, v: World, current: string, rel: string, seg: string, a: Answers, now: int)
    requires EqButOps(w, v)
    ensures SegmentActs(w, current, rel, seg, a, now) == SegmentActs(v, current, rel, seg, a, now)
    ensures Quiet(SegmentActs(w, current, rel, seg, a, now))
  {
    hide FindPath, FindFolder;
    SameFinds(w.db, v.db);
  }

  lemma {:induction false} EnsureIgnoresQueue(w: World, v: World, current: string, done: string, segs: seq<string>,
          a: Answers, now: int)
    requires EqButOps(w, v)
    ensures EnsureActs(w, current, done, segs, a, now) == EnsureActs(v, current, done, segs, a, now)
    ensures Quiet(EnsureActs(w, current, done, segs, a, now))
    decreases |segs|
  {
    hide Run, Join, SegmentActs, SegmentId;
    if segs != [] {
      var rel := Join(done, segs[0]);
      var first, next := SegmentActs(w, current, rel, segs[0], a, now), SegmentId(w.drive, current, rel, segs[0], a);
      if next.Some? {
        SegmentIgnoresQueue(w, v, current, rel, segs[0], a, now);
        AgreeRun(w, v, first, 0);
        EnsureIgnoresQueue(Run(w, first), Run(v, first), next.value, rel, segs[1..], a, now);
      }
    }
  }

  lemma FolderIgnoresQueue(w: World, v: World, rel: string, a: Answers, now: int)
    requires EqButOps(w, v)
    ensures FolderFor(w, rel, a, now) == FolderFor(v, rel, a, now) && Quiet(FolderFor(w, rel, a, now))
    ensures FolderId(w.drive, rel, a) == FolderId(v.drive, rel, a)
  {
    hide EnsureActs, EnsuredId, Segments;
    EnsureIgnoresQueue(w, v, a.root, "", Segments(rel), a, now);
  }

  lemma QuietConcat(acts: seq<Act>, more: seq<Act>)
    requires Quiet(acts) && Quiet(more)
    ensures Quiet(acts + more)
  {
  }

  lemma UploadIgnoresQueue(w: World, v: World, id: nat, a: Answers, now: int)
    requires EqButOps(w, v) && id in w.db.items
    ensures UploadEffect(w, id, a, now) == UploadEffect(v, id, a, now) && Quiet(UploadEffect(w, id, a, now).acts)
  {
    hide FolderFor, FolderId, ParentDir, FileName;
    FolderIgnoresQueue(w, v, ParentDir(w.db.items[id].path), a, now);
  }

  lemma RenameRemoteIgnoresQueue(w: World, v: World, id: nat, newRel: string, a: Answers, now: int)
    requires EqButOps(w, v) && id in w.db.items
    ensures RenameRemoteEffect(w, id, newRel, a, now) == RenameRemoteEffect(v, id, newRel, a, now)
    ensures Quiet(RenameRemoteEffect(w, id, newRel, a, now).acts)
  {
    hide FolderFor, FolderId, ParentDir, MoveActs, Quiet;
    FolderIgnoresQueue(w, v, ParentDir(newRel), a, now);
    var row, folder := w.db.items[id], FolderFor(w, ParentDir(newRel), a, now);
    var parent := FolderId(w.drive, ParentDir(newRel), a);
    QuietForgetting(id);
    if row.remoteId.Some? && parent.Some? {
      QuietMoves(id, row, row.remoteId.value, parent.value, newRel);
      QuietConcat(folder, MoveActs(id, row, row.remoteId.value, parent.value, newRel));
      QuietConcat(folder, [Mark(row.remoteId.value), Unmark(row.remoteId.value)]);
    }
  }

  lemma QuietForgetting(id: nat)
    ensures Quiet([DeleteItem(id)])
  {
  }

  lemma QuietMoves(id: nat, row: Row, rid: string, parent: string, newRel: string)
    ensures Quiet(MoveActs(id, row, rid, parent, newRel)) && Quiet([Mark(rid), Unmark(rid)])
  {
    hide FileName;
  }

  lemma OthersIgnoreQueue(w: World, v: World, id: nat, op: Operation, a: Answers, now: int)
    requires EqButOps(w, v) && id in w.db.items && !op.Upload? && !op.RenameRemote? && !op.CreateDirRemote?
    ensures ExecEffect(w, id, op, a, now) == ExecEffect(v, id, op, a, now)
    ensures Quiet(ExecEffect(w, id, op, a, now).acts)
  {
    hide MkdirOk, MkdirAll, ParentDir, RenameOutcome, Mergeable;
  }

  // What an operation does depends on everything but the queue, and it neither queues nor
  // reschedules another one.
  lemma EffectIgnoresQueue(w: World, v: World, id: nat, op: Operation, a: Answers, now: int)
    requires EqButOps(w, v) && id in w.db.items
    ensures ExecEffect(w, id, op, a, now) == ExecEffect(v, id, op, a, now)
    ensures Quiet(ExecEffect(w, id, op, a, now).acts)
  {
    hide UploadEffect, RenameRemoteEffect, DownloadEffect, DeleteRemoteEffect, DeleteLocalEffect, RenameLocalEffect,
      CreateDirLocalEffect, WriteShortcutEffect, EnsureActs, EnsuredId, Segments, Quiet;
    match op {
      case Upload => UploadIgnoresQueue(w, v, id, a, now);
      case RenameRemote(newRel) => RenameRemoteIgnoresQueue(w, v, id, newRel, a, now);
      case CreateDirRemote => EnsureIgnoresQueue(w, v, a.root, "", Segments(w.db.items[id].path), a, now);
      case _ => OthersIgnoreQueue(w, v, id, op, a, now);
    }
  }

  lemma OpsShrinkStep(w: World, act: Act)
    requires !act.Queue? && !act.Reschedule?
    ensures forall o :: o in Step(w, act).db.ops ==> o in w.db.ops && Step(w, act).db.ops[o] == w.db.ops[o]
    ensures Step(w, act).db.nextOp == w.db.nextOp
  {
    hide RenameLoop, MoveTree, MkdirAll;
    if act.RepathTree? {
      OpsShrinkLoop(w.db, act.src, act.dst, ScanOrder(w.db, act.src, w.db.nextItem));
    }
  }

  lemma {:induction false} OpsShrinkLoop(db: Db, src: string, dst: string, order: seq<nat>)
    ensures var after := RenameLoop(db, src, dst, order);
      after.nextOp == db.nextOp && forall o :: o in after.ops ==> o in db.ops && after.ops[o] == db.ops[o]
    decreases |order|
  {
    hide Selected, Rebase;
    if order != [] {
      OpsShrinkLoop(RenameOne(db, src, dst, order[0]), src, dst, order[1..]);
    }
  }

  lemma {:induction false} OpsShrink(w: World, acts: seq<Act>)
    requires Quiet(acts)
    ensures forall o :: o in Run(w, acts).db.ops ==> o in w.db.ops && Run(w, acts).db.ops[o] == w.db.ops[o]
    ensures Run(w, acts).db.nextOp == w.db.nextOp
    decreases |acts|
  {
    hide Step;
    if acts != [] {
      OpsShrinkStep(w, acts[0]);
      OpsShrink(Step(w, acts[0]), acts[1..]);
    }
  }

  // The same operation for the same item, however often it was tried.
  predicate SameWork(p: Pending, q: Pending) { p.item == q.item && p.op == q.op }

  lemma ExecShrinksQueue(w: World, o: nat, a: Answers, clock: nat -> int)
    ensures var v := ExecOp(w, o, a, clock);
      && v.db.nextOp == w.db.nextOp
      && (forall p :: p in v.db.ops ==>
          p in w.db.ops && SameWork(v.db.ops[p], w.db.ops[p]) && (p != o ==> v.db.ops[p] == w.db.ops[p]))
  {
    hide ExecEffect, Run;
    if o in w.db.ops && w.db.ops[o].item in w.db.items {
      var id, op := w.db.ops[o].item, w.db.ops[o].op;
      var acts := ExecEffect(w, id, op, a, clock(o)).acts;
      EffectIgnoresQueue(w, w, id, op, a, clock(o));
      OpsShrink(w, acts);
      FinishRuns(Run(w, acts), o);
      RescheduleRuns(Run(w, acts), o, a.retryAt(o));
    }
  }

  lemma AgreeReschedule(w: World, v: World, o: nat, at: int, m: nat)
    requires Agree(w, v, m) && o < m
    ensures Agree(w.(db := MarkAttempt(w.db, o, at)), v.(db := MarkAttempt(v.db, o, at)), m)
  {
  }

  lemma AgreeExec(w: World, v: World, o: nat, m: nat, a: Answers, clock: nat -> int)
    requires Agree(w, v, m) && o < m
    ensures Agree(ExecOp(w, o, a, clock), ExecOp(v, o, a, clock), m)
  {
    hide ExecEffect, Run;
    if o in w.db.ops && w.db.ops[o].item in w.db.items {
      var id, op := w.db.ops[o].item, w.db.ops[o].op;
      var acts := ExecEffect(w, id, op, a, clock(o)).acts;
      EffectIgnoresQueue(w, v, id, op, a, clock(o));
      var w', v' := Run(w, acts), Run(v, acts);
      AgreeRun(w, v, acts, m);
      FinishRuns(w', o);
      FinishRuns(v', o);
      AgreeStep(w', v', FinishOperation(o), m);
      RescheduleRuns(w', o, a.retryAt(o));
      RescheduleRuns(v', o, a.retryAt(o));
      AgreeReschedule(w', v', o, a.retryAt(o), m);
    }
  }

  lemma {:induction false} AgreeDrain(w: World, v: World, k: nat, m: nat, a: Answers, clock: nat -> int)
    requires Agree(w, v, m)
    ensures Agree(DrainTo(w, k, m, a, clock), DrainTo(v, k, m, a, clock), m)
    ensures forall o :: o in DrainTo(w, k, m, a, clock).db.ops ==>
        o in w.db.ops && SameWork(DrainTo(w, k, m, a, clock).db.ops[o], w.db.ops[o])
    decreases m - k
  {
    hide ExecOp, Agree;
    if k < m {
      ExecShrinksQueue(w, k, a, clock);
      AgreeExec(w, v, k, m, a, clock);
      AgreeDrain(ExecOp(w, k, a, clock), ExecOp(v, k, a, clock), k + 1, m, a, clock);
    }
  }

  // ---- what waits in the queue stays there -----------------------------------------------

  // Keys are never handed out twice, so an item that is there afterwards was there all the time, and
  // what was queued for it, except from k up to m, still is.
  ghost predicate Survives(db: Db, after: Db, k: nat, m: nat) {
    && db.nextItem <= after.nextItem && db.nextOp == after.nextOp
    && (forall i :: i in after.items && i < db.nextItem ==> i in db.items)
    && (forall o :: o in after.ops ==> o in db.ops && SameWork(after.ops[o], db.ops[o]))
    && (forall o :: o in after.ops && !(k <= o < m) ==> after.ops[o] == db.ops[o])
    && (forall o :: o in db.ops && !(k <= o < m) && db.ops[o].item in after.items ==> o in after.ops)
  }

  ghost predicate KeysUsed(db: Db) {
    forall o :: o in db.ops ==> db.ops[o].item < db.nextItem
  }

  lemma SurvivesOn(a: Db, b: Db, c: Db, k: nat, m: nat)
    requires KeysUsed(a) && Survives(a, b, k, m) && Survives(b, c, k, m)
    ensures Survives(a, c, k, m) && KeysUsed(b)
  {
  }

  lemma SurvivesWider(a: Db, b: Db, k: nat, m: nat, k': nat, m': nat)
    requires Survives(a, b, k, m) && k' <= k && m <= m'
    ensures Survives(a, b, k', m')
  {
  }

  lemma {:induction false} LoopKeepsOps(db: Db, src: string, dst: string, order: seq<nat>)
    ensures var after := RenameLoop(db, src, dst, order);
      && after.nextItem == db.nextItem && (forall i :: i in after.items ==> i in db.items)
      && (forall o :: o in db.ops && db.ops[o].item in after.items ==> o in after.ops && after.ops[o] == db.ops[o])
    decreases |order|
  {
    hide Selected, Rebase;
    if order != [] {
      LoopKeepsOps(RenameOne(db, src, dst, order[0]), src, dst, order[1..]);
    }
  }

  lemma StepSurvives(w: World, act: Act, k: nat, m: nat)
    requires !act.Queue? && (act.FinishOperation? ==> k <= act.o < m) && (act.Reschedule? ==> k <= act.o < m)
    ensures Survives(w.db, Step(w, act).db, k, m)
  {
    hide RenameLoop, MoveTree, MkdirAll;
    if !act.Reschedule? { OpsShrinkStep(w, act); }
    if act.RepathTree? {
      LoopKeepsOps(w.db, act.src, act.dst, ScanOrder(w.db, act.src, w.db.nextItem));
    }
  }

  lemma {:induction false} RunSurvives(w: World, acts: seq<Act>, k: nat, m: nat)
    requires KeysUsed(w.db) && Quiet(acts)
    ensures Survives(w.db, Run(w, acts).db, k, m)
    decreases |acts|
  {
    hide Survives, KeysUsed, Step;
    if acts == [] {
      SurvivesSelf(w.db, k, m);
    } else {
      var v := Step(w, acts[0]);
      StepSurvives(w, acts[0], k, m);
      SurvivesSelf(v.db, k, m);
      SurvivesOn(w.db, v.db, v.db, k, m);
      RunSurvives(v, acts[1..], k, m);
      SurvivesOn(w.db, v.db, Run(v, acts[1..]).db, k, m);
    }
  }

  lemma SurvivesSelf(db: Db, k: nat, m: nat)
    ensures Survives(db, db, k, m)
  {
  }

  lemma ExecSurvives(w: World, o: nat, a: Answers, clock: nat -> int)
    requires KeysUsed(w.db)
    ensures Survives(w.db, ExecOp(w, o, a, clock).db, o, o + 1) && KeysUsed(ExecOp(w, o, a, clock).db)
  {
    hide ExecEffect, Run, Survives, KeysUsed, Step;
    SurvivesSelf(w.db, o, o + 1);
    if o in w.db.ops && w.db.ops[o].item in w.db.items {
      var id, op := w.db.ops[o].item, w.db.ops[o].op;
      var e := ExecEffect(w, id, op, a, clock(o));
      var v, last := Run(w, e.acts), if e.ok then FinishOperation(o) else Reschedule(o, a.retryAt(o));
      EffectIgnoresQueue(w, w, id, op, a, clock(o));
      RunSurvives(w, e.acts, o, o + 1);
      RunOne(v, last);
      StepSurvives(v, last, o, o + 1);
      SurvivesOn(w.db, v.db, Step(v, last).db, o, o + 1);
      SurvivesSelf(Step(v, last).db, o, o + 1);
      SurvivesOn(w.db, Step(v, last).db, Step(v, last).db, o, o + 1);
    }
  }

  // Draining a stretch of the queue leaves everything outside it as it was, short of what went with
  // its item.
  lemma {:induction false} DrainSurvives(w: World, k: nat, m: nat, a: Answers, clock: nat -> int)
    requires KeysUsed(w.db)
    ensures Survives(w.db, DrainTo(w, k, m, a, clock).db, k, m) && KeysUsed(DrainTo(w, k, m, a, clock).db)
    decreases m - k
  {
    hide ExecOp, Survives, KeysUsed;
    if k >= m {
      SurvivesSelf(w.db, k, m);
    } else {
      var v := ExecOp(w, k, a, clock);
      ExecSurvives(w, k, a, clock);
      DrainSurvives(v, k + 1, m, a, clock);
      SurvivesWider(w.db, v.db, k, k + 1, k, m);
      SurvivesWider(v.db, DrainTo(v, k + 1, m, a, clock).db, k + 1, m, k, m);
      SurvivesOn(w.db, v.db, DrainTo(w, k, m, a, clock).db, k, m);
    }
  }
}
