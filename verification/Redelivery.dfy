// At-least-once delivery is harmless: handing the reconciler one Drive change several times before
// the queue drains ends in the same rows, files and conflict records as handing it over once.
module Redelivery {
  import opened Paths
  import opened Tables
  import opened RenameSubtree
  import opened Disk
  import opened World
  import opened Continuous
  import opened Runtime
  import opened Invariants
  import opened Draining
  import opened Timestamps

  // Rows are compared up to the two clock readings they carry.
  ghost predicate SameRow(r: Row, s: Row) {
    r.(syncedAt := 0, trashedAt := None) == s.(syncedAt := 0, trashedAt := None)
    && (r.trashedAt.Some? <==> s.trashedAt.Some?)
  }

  ghost predicate Same(w: World, v: World) {
    && w.disk == v.disk && w.drive == v.drive && w.inFlight == v.inFlight
    && w.db.conflicts == v.db.conflicts
    && w.db.items.Keys == v.db.items.Keys
    && forall i :: i in w.db.items ==> SameRow(w.db.items[i], v.db.items[i])
  }

  ghost function Deliver(w: World, c: Change, now: int): World {
    var acts := RemoteActs(w, c, now);
    if acts.None? then w else Run(w, acts.value)
  }

  ghost function DeliverAll(w: World, c: Change, times: seq<int>): World
    decreases |times|
  {
    if times == [] then w else DeliverAll(Deliver(w, c, times[0]), c, times[1..])
  }

  // An operation whose effect has already happened.
  ghost predicate Inert(w: World, id: nat, op: Operation, a: Answers) {
    id in w.db.items &&
    match op
    case DeleteLocal(tombstone) =>
      tombstone && w.db.items[id].kind.File? && w.db.items[id].trashedAt.Some?
      && forall q :: q in w.disk ==> !Within(q, w.db.items[id].path)
    case RenameLocal(p) =>
      w.db.items[id].path == p && LiteralOnly(w.db, p) && (ParentDir(p) == "" || IsDir(w.disk, ParentDir(p)))
    case Download(rid, _, _, p) =>
      a.reply.Accepted? && rid in w.drive && w.db.items[id].remoteId == Some(rid)
      && p in w.disk && w.disk[p] == FileNode(w.drive[rid].bytes)
      && (ParentDir(p) == "" || IsDir(w.disk, ParentDir(p)))
      && w.db.items[id].md5 == Some(Md5(w.drive[rid].bytes)) && w.db.items[id].size == Some(|w.drive[rid].bytes|)
    case _ => false
  }

  lemma InertSurvives(w: World, v: World, id: nat, op: Operation, a: Answers)
    requires Same(w, v) && Inert(w, id, op, a)
    ensures Inert(v, id, op, a)
  {
    hide Selected, Within, ParentDir;
  }

  lemma SelfRename(db: Db, p: string)
    requires Valid(db) && LiteralOnly(db, p)
    ensures RenameRows(db, p, p) == db
  {
    hide RenameLoop, LiteralOnly;
    var order := ScanOrder(db, p, db.nextItem);
    LiteralRenameIsRegular(db, p, p);
    LoopIsOneShot(db, p, p, order);
    forall id | Affected(db, p, id)
      ensures Target(db, p, p, id) == db.items[id].path && !Taken(db, db.items[id].path, id)
    {
      SelfTarget(db, p, id);
    }
    RenamedInPlace(db, p);
  }

  lemma SelfTarget(db: Db, p: string, id: nat)
    requires Valid(db) && LiteralOnly(db, p) && Affected(db, p, id)
    ensures Target(db, p, p, id) == db.items[id].path && !Taken(db, db.items[id].path, id)
  {
    var q := db.items[id].path;
    assert Within(q, p);
    assert q[..|p|] + q[|p|..] == q;
  }

  lemma RenamedInPlace(db: Db, p: string)
    requires Valid(db)
    requires forall id :: Affected(db, p, id) ==>
        Target(db, p, p, id) == db.items[id].path && !Taken(db, db.items[id].path, id)
    ensures RenamedTable(db, p, p) == db
  {
    hide Selected, Rebase;
    var all := set id | id in db.items && Affected(db, p, id);
    assert Lost(db, p, p, all) == {};
    assert RenamedTable(db, p, p).items == db.items;
    assert RenamedTable(db, p, p).ops == db.ops;
    assert RenamedTable(db, p, p).conflicts == db.conflicts;
  }

  lemma RunInertDelete(w: World, id: nat, op: Operation, a: Answers, now: int)
    requires op.DeleteLocal? && Inert(w, id, op, a)
    ensures var e := ExecEffect(w, id, op, a, now); e.ok && Same(w, Run(w, e.acts)) && Quiet(e.acts)
  {
    assert Within(w.db.items[id].path, w.db.items[id].path);
    hide Run, Within;
    RunTwo(w, RemoveTree(w.db.items[id].path), Tombstone(id, Some(now)));
    assert Removed(w.disk, w.db.items[id].path) == w.disk;
  }

  // A directory renamed onto itself, from the first micro-step to the last.
  lemma SelfRenameRuns(w: World, id: nat, p: string)
    requires Valid(w.db) && id in w.db.items && w.db.items[id].path == p && LiteralOnly(w.db, p)
    requires ParentDir(p) == "" || IsDir(w.disk, ParentDir(p))
    ensures RenameLocalEffect(w, id, p).ok && Run(w, RenameLocalEffect(w, id, p).acts) == w
  {
    hide Run, ParentDir, RenameRows, MoveTree, LiteralOnly, MkdirAll, MkdirOk;
    MkdirIdle(w.disk, ParentDir(p));
    MoveNothing(w.disk, p, p);
    SelfRename(w.db, p);
    assert RenameLocalEffect(w, id, p).ok;
    RenameRunsTo(w, id, p);
  }

  lemma RunInertRename(w: World, id: nat, op: Operation, a: Answers, now: int)
    requires op.RenameLocal? && Inert(w, id, op, a) && Valid(w.db)
    ensures var e := ExecEffect(w, id, op, a, now); e.ok && Same(w, Run(w, e.acts)) && Quiet(e.acts)
  {
    hide Run, RenameLocalEffect, LiteralOnly, ParentDir, Same;
    SelfRenameRuns(w, id, op.newRel);
    EffectIgnoresQueue(w, w, id, op, a, now);
    SameSelf(w);
  }

  lemma MkdirIdle(d: Disk, p: string)
    requires p == "" || IsDir(d, p)
    ensures MkdirOk(d, p) && MkdirAll(d, p) == d
  {
  }

  lemma RunInertDownload(w: World, id: nat, op: Operation, a: Answers, now: int)
    requires op.Download? && Inert(w, id, op, a)
    ensures var e := ExecEffect(w, id, op, a, now); e.ok && Same(w, Run(w, e.acts)) && Quiet(e.acts)
  {
    hide Run, ParentDir, MkdirOk, MkdirAll;
    var p := op.rel;
    MkdirIdle(w.disk, ParentDir(p));
    assert DownloadEffect(w, id, op.remoteId, p, a, now).ok;
    hide DownloadEffect;
    DownloadRunsTo(w, id, op.remoteId, p, a, now);
    EffectIgnoresQueue(w, w, id, op, a, now);
  }

  // Running it once more changes no row but a clock reading, no file and no conflict record.
  lemma InertExec(w: World, o: nat, a: Answers, clock: nat -> int)
    requires o in w.db.ops && Valid(w.db) && Inert(w, w.db.ops[o].item, w.db.ops[o].op, a)
    ensures Same(w, ExecOp(w, o, a, clock))
    ensures ExecEffect(w, w.db.ops[o].item, w.db.ops[o].op, a, clock(o)).ok
  {
    hide Run, Same, ExecEffect;
    var id, op := w.db.ops[o].item, w.db.ops[o].op;
    match op {
      case DeleteLocal(_) => RunInertDelete(w, id, op, a, clock(o));
      case RenameLocal(_) => RunInertRename(w, id, op, a, clock(o));
      case Download(_, _, _, _) => RunInertDownload(w, id, op, a, clock(o));
    }
    FinishIsSame(w, Run(w, ExecEffect(w, id, op, a, clock(o)).acts), o);
  }

  lemma FinishIsSame(w: World, v: World, o: nat)
    requires Same(w, v)
    ensures Same(w, Run(v, [FinishOperation(o)]))
  {
    hide Run, SameRow;
    RunOne(v, FinishOperation(o));
  }

  lemma SameTransitive(u: World, v: World, w: World)
    requires Same(u, v) && Same(v, w)
    ensures Same(u, w)
  {
  }

  lemma ExecKeepsInv(w: World, o: nat, a: Answers, clock: nat -> int)
    requires Inv(w.db)
    ensures Inv(ExecOp(w, o, a, clock).db)
  {
    hide Inv, ExecEffect, Licensed, Run;
    if o in w.db.ops && w.db.ops[o].item in w.db.items {
      var acts := ExecEffect(w, w.db.ops[o].item, w.db.ops[o].op, a, clock(o)).acts;
      ExecIsLicensed(w, o, a, clock(o));
      RunKeepsInv(w, acts);
      ClosingKeepsInv(Run(w, acts), FinishOperation(o));
      ClosingKeepsInv(Run(w, acts), Reschedule(o, a.retryAt(o)));
    }
  }

  lemma ClosingKeepsInv(w: World, act: Act)
    requires Inv(w.db) && (act.FinishOperation? || act.Reschedule?)
    ensures Inv(Run(w, [act]).db)
  {
    hide Inv, Run;
    RunOne(w, act);
    StepKeepsInv(w.db, act);
  }

  lemma {:induction false} InertDrain(w: World, k: nat, n: nat, a: Answers, clock: nat -> int)
    requires Inv(w.db)
    requires forall o :: o in w.db.ops && o >= k ==> Inert(w, w.db.ops[o].item, w.db.ops[o].op, a)
    ensures Same(w, DrainTo(w, k, n, a, clock))
    decreases n - k
  {
    hide ExecOp, Same, Inert, Inv;
    if k >= n {
      SameSelf(w);
    } else {
      var v := ExecOp(w, k, a, clock);
      if k in w.db.ops {
        InvIsValid(w.db);
        InertExec(w, k, a, clock);
      } else {
        SameSelf(w);
        SkipIsIdle(w, k, a, clock);
      }
      ExecKeepsInv(w, k, a, clock);
      ExecShrinksQueue(w, k, a, clock);
      forall o | o in v.db.ops && o >= k + 1 ensures Inert(v, v.db.ops[o].item, v.db.ops[o].op, a) {
        InertSurvives(w, v, v.db.ops[o].item, v.db.ops[o].op, a);
      }
      InertDrain(v, k + 1, n, a, clock);
      SameTransitive(w, v, DrainTo(v, k + 1, n, a, clock));
    }
  }

  lemma SkipIsIdle(w: World, k: nat, a: Answers, clock: nat -> int)
    requires k !in w.db.ops
    ensures ExecOp(w, k, a, clock) == w
  {
  }

  lemma SameSelf(w: World)
    ensures Same(w, w)
  {
  }

  // ---- deliveries after the first --------------------------------------------------------

  lemma ReconcilerIgnoresQueue(w: World, v: World, c: Change, now: int)
    requires EqButOps(w, v)
    ensures RemoteActs(w, c, now) == RemoteActs(v, c, now)
  {
    hide ConflictPath, ParentDir, FindPath, FindRemote;
    SameFinds(w.db, v.db);
  }

  // Applying c once more only queues operations from R again.
  ghost predicate OnlyRequeues(w: World, c: Change, R: seq<(nat, Operation)>) {
    forall now :: RemoteActs(w, c, now).Some? ==>
      forall act :: act in RemoteActs(w, c, now).value ==> act.Queue? && (act.id, act.op) in R
  }

  // The queue holds, from m on, only operations from R.
  ghost predicate TailFrom(db: Db, m: nat, R: seq<(nat, Operation)>) {
    m <= db.nextOp && forall o :: o in db.ops && o >= m ==> (db.ops[o].item, db.ops[o].op) in R
  }

  lemma QueueKeepsTail(w: World, v: World, act: Act, m: nat, R: seq<(nat, Operation)>)
    requires Agree(w, v, m) && TailFrom(w.db, m, R) && act.Queue? && (act.id, act.op) in R
    ensures Agree(Step(w, act), v, m) && TailFrom(Step(w, act).db, m, R)
  {
  }

  lemma {:induction false} QueuesKeepTail(w: World, v: World, acts: seq<Act>, m: nat, R: seq<(nat, Operation)>)
    requires Agree(w, v, m) && TailFrom(w.db, m, R)
    requires forall act :: act in acts ==> act.Queue? && (act.id, act.op) in R
    ensures Agree(Run(w, acts), v, m) && TailFrom(Run(w, acts).db, m, R)
    decreases |acts|
  {
    hide Agree, TailFrom, Step;
    if acts != [] {
      QueueKeepsTail(w, v, acts[0], m, R);
      QueuesKeepTail(Step(w, acts[0]), v, acts[1..], m, R);
    }
  }

  lemma {:induction false} RedeliveryOnlyQueues(w: World, v: World, c: Change, times: seq<int>, m: nat,
          R: seq<(nat, Operation)>)
    requires Agree(w, v, m) && TailFrom(w.db, m, R) && OnlyRequeues(v, c, R)
    ensures Agree(DeliverAll(w, c, times), v, m) && TailFrom(DeliverAll(w, c, times).db, m, R)
    decreases |times|
  {
    hide TailFrom, Run, RemoteActs;
    if times != [] {
      ReconcilerIgnoresQueue(w, v, c, times[0]);
      var acts := RemoteActs(w, c, times[0]);
      if acts.Some? {
        QueuesKeepTail(w, v, acts.value, m, R);
      }
      RedeliveryOnlyQueues(Deliver(w, c, times[0]), v, c, times[1..], m, R);
    }
  }

  lemma DeliverKeepsInv(w: World, c: Change, now: int)
    requires Inv(w.db)
    ensures Inv(Deliver(w, c, now).db)
  {
    hide Inv, RemoteActs, Run, Licensed;
    RemoteIsLicensed(w, c, now);
    if RemoteActs(w, c, now).Some? {
      RunKeepsInv(w, RemoteActs(w, c, now).value);
    }
  }

  lemma {:induction false} DeliverAllKeepsInv(w: World, c: Change, times: seq<int>)
    requires Inv(w.db)
    ensures Inv(DeliverAll(w, c, times).db)
    decreases |times|
  {
    hide Inv, Deliver;
    if times != [] {
      DeliverKeepsInv(w, c, times[0]);
      DeliverAllKeepsInv(Deliver(w, c, times[0]), c, times[1..]);
    }
  }

  lemma {:induction false} DrainKeepsInv(w: World, k: nat, n: nat, a: Answers, clock: nat -> int)
    requires Inv(w.db)
    ensures Inv(DrainTo(w, k, n, a, clock).db)
    decreases n - k
  {
    hide Inv, ExecOp;
    if k < n {
      ExecKeepsInv(w, k, a, clock);
      DrainKeepsInv(ExecOp(w, k, a, clock), k + 1, n, a, clock);
    }
  }

  // What the first delivery and its drain must achieve for the repetitions to be harmless.
  ghost predicate SettledFor(w1: World, c: Change, R: seq<(nat, Operation)>, a: Answers, clock: nat -> int) {
    && Inv(w1.db) && OnlyRequeues(w1, c, R)
    && var v := Drain(w1, a, clock);
       forall p :: p in R && p.0 in v.db.items ==> Inert(v, p.0, p.1, a)
  }

  lemma RepetitionsAreHarmless(w1: World, c: Change, times: seq<int>, R: seq<(nat, Operation)>, a: Answers,
          clock: nat -> int)
    requires SettledFor(w1, c, R, a, clock)
    ensures Same(Drain(w1, a, clock), Drain(DeliverAll(w1, c, times), a, clock))
  {
    hide Inv, OnlyRequeues, Inert, Same, ExecOp;
    var m := w1.db.nextOp;
    var wk := DeliverAll(w1, c, times);
    StartTail(w1, R);
    RedeliveryOnlyQueues(w1, w1, c, times, m, R);
    DeliverAllKeepsInv(w1, c, times);
    var v, A := Drain(w1, a, clock), DrainTo(wk, 0, m, a, clock);
    AgreeDrain(wk, w1, 0, m, a, clock);
    DrainKeepsInv(wk, 0, m, a, clock);
    LeftoversAreInert(wk, A, v, m, R, a);
    InertDrain(A, m, wk.db.nextOp, a, clock);
    DrainSplits(wk, 0, m, wk.db.nextOp, a, clock);
    EqButOpsIsSame(v, A);
    SameTransitive(v, A, Drain(wk, a, clock));
  }

  lemma StartTail(w: World, R: seq<(nat, Operation)>)
    requires Inv(w.db)
    ensures Agree(w, w, w.db.nextOp) && TailFrom(w.db, w.db.nextOp, R)
  {
  }

  lemma LeftoversAreInert(wk: World, A: World, v: World, m: nat, R: seq<(nat, Operation)>, a: Answers)
    requires TailFrom(wk.db, m, R) && EqButOps(A, v) && Inv(A.db)
    requires forall o :: o in A.db.ops ==> o in wk.db.ops && SameWork(A.db.ops[o], wk.db.ops[o])
    requires forall p :: p in R && p.0 in v.db.items ==> Inert(v, p.0, p.1, a)
    ensures forall o :: o in A.db.ops && o >= m ==> Inert(A, A.db.ops[o].item, A.db.ops[o].op, a)
  {
    hide Inert, SameRow;
    forall o | o in A.db.ops && o >= m ensures Inert(A, A.db.ops[o].item, A.db.ops[o].op, a) {
      var p := (A.db.ops[o].item, A.db.ops[o].op);
      assert p in R && p.0 in A.db.items;
      EqButOpsIsSame(v, A);
      InertSurvives(v, A, p.0, p.1, a);
    }
  }

  lemma EqButOpsIsSame(w: World, v: World)
    requires EqButOps(w, v) || EqButOps(v, w)
    ensures Same(w, v)
  {
  }
}
