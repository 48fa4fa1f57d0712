// When a file trashed on Drive and restored later comes back: the local removal, the write of its
// tombstone, the watcher's echo of it and the restore, in every order, with other tasks in between.
module TrashRuns {
  import opened Paths
  import opened Tables
  import opened Disk
  import opened World
  import opened Continuous
  import opened Runtime
  import opened Invariants
  import opened Draining
  import opened Redelivery
  import opened Idempotence
  import opened Timestamps
  import opened Trash
  import Echo

  // One file: its row, its Drive id, its path, the queued removal, what is reported later, and the
  // clock readings.
  datatype Story = Story(
    id: nat, rid: string, path: string, removal: nat, trashedAt: int, restore: Change, echoedAt: int, restoredAt: int)

  // The removal runs in three acts. The watcher reports it once the file is gone; the restore may be
  // reported at any time. Every further operation of the file gets its turn after the removal, and
  // between any two events other tasks do something else.
  datatype Event = Removal | TombstoneWrite | Completion | WatcherEcho | Restore | Turn(o: nat) | Other(act: Act)

  ghost function After(x: Story, u: World, e: Event, a: Answers, clock: nat -> int): World {
    match e
    case Removal => Step(u, RemoveTree(x.path))
    case TombstoneWrite => Step(u, Tombstone(x.id, Some(x.trashedAt)))
    case Completion => Step(u, FinishOperation(x.removal))
    case WatcherEcho => Run(u, LocalActs(u, Deleted(x.path), [], x.echoedAt))
    case Restore => Deliver(u, x.restore, x.restoredAt)
    case Turn(o) => ExecOp(u, o, a, clock)
    case Other(act) => Step(u, act)
  }

  ghost predicate Own(db: Db, id: nat, o: nat) { o in db.ops && db.ops[o].item == id }

  predicate DirReady(d: Disk, path: string) { ParentDir(path) == "" || IsDir(d, ParentDir(path)) }

  // A licensed write of another task: not to this row or its operations, nor to its node on Drive, nor
  // to its path on disk.
  ghost predicate Foreign(x: Story, u: World, act: Act) {
    && Licensed(u.db, act) && Echo.Foreign(act, Echo.Edit(x.id, x.rid, x.path, [], 0), u.db)
    && (match act
        case Queue(j, _, _) => j != x.id
        case FinishOperation(o) => !Own(u.db, x.id, o)
        case Reschedule(o, _) => !Own(u.db, x.id, o)
        case PutContent(r, _) => r != x.rid
        case CreateNode(r, _) => r != x.rid
        case MoveNode(r, _, _) => r != x.rid
        case TrashNode(r) => r != x.rid
        case UnlinkNode(r) => r != x.rid
        case Mark(r) => r != x.rid
        case Unmark(r) => r != x.rid
        case _ => true)
    && At(DiskStep(u.disk, act), x.path) == At(u.disk, x.path)
    && (DirReady(u.disk, x.path) ==> DirReady(DiskStep(u.disk, act), x.path))
  }

  ghost predicate MayHappen(x: Story, u: World, before: seq<Event>, e: Event) {
    match e
    case Removal => e !in before
    case TombstoneWrite => Removal in before && e !in before
    case Completion => TombstoneWrite in before && e !in before
    case WatcherEcho => Removal in before
    case Restore => e !in before
    case Turn(o) => Completion in before && Own(u.db, x.id, o)
    case Other(act) => Foreign(x, u, act)
  }

  ghost function Play(x: Story, u: World, s: seq<Event>, a: Answers, clock: nat -> int): World
    decreases |s|
  {
    if s == [] then u else After(x, Play(x, u, s[..|s| - 1], a, clock), s[|s| - 1], a, clock)
  }

  ghost predicate Legal(x: Story, u: World, s: seq<Event>, a: Answers, clock: nat -> int)
    decreases |s|
  {
    s == [] ||
    var n := |s| - 1;
    Legal(x, u, s[..n], a, clock) && MayHappen(x, Play(x, u, s[..n], a, clock), s[..n], s[n])
  }

  // The restore comes after the tombstone write, and every echo between the two.
  predicate Timely(s: seq<Event>)
    decreases |s|
  {
    s == [] ||
    var n := |s| - 1;
    && Timely(s[..n])
    && (s[n] == Restore ==> TombstoneWrite in s[..n])
    && (s[n] == WatcherEcho ==> TombstoneWrite in s[..n] && Restore !in s[..n])
  }

  // A tracked file in place, with nothing of its own queued; anything may be queued for others.
  ghost predicate Begins(x: Story, w: World, c: Change) {
    && Inv(w.db) && Tree(w.disk) && x.rid !in w.inFlight && x.rid in w.drive
    && Echo.Sole(w.db, x.id, x.rid) && w.db.items[x.id].path == x.path && w.db.items[x.id].kind.File?
    && w.db.items[x.id].trashedAt.None? && IsFile(w.disk, x.path)
    && (forall o :: o in w.db.ops ==> w.db.ops[o].item != x.id)
    && TrashReport(c, x.rid) && x.removal == w.db.nextOp && RestoreReport(x.restore, x.rid, x.path)
  }

  ghost predicate Back(x: Story, w: World, v: World)
    requires x.id in w.db.items && x.rid in w.drive
  {
    var bytes := w.drive[x.rid].bytes;
    && x.id in v.db.items && At(v.disk, x.path) == Some(FileNode(bytes))
    && v.db.items[x.id] == w.db.items[x.id].(size := Some(|bytes|), md5 := Some(Md5(bytes)),
                                             syncedAt := v.db.items[x.id].syncedAt)
    && x.rid in v.drive && v.drive[x.rid] == w.drive[x.rid]
  }

  // ---- what every run keeps --------------------------------------------------------------

  // The row as far as no event touches it, and what may be queued for it.
  ghost predicate Ours(x: Story, db: Db) {
    && Inv(db) && Echo.Sole(db, x.id, x.rid) && db.items[x.id].path == x.path && db.items[x.id].kind.File?
    && x.removal < db.nextOp && forall o :: Own(db, x.id, o) ==> OwnKind(x, o, db.ops[o].op)
  }

  predicate OwnKind(x: Story, o: nat, op: Operation) {
    if o == x.removal then op == DeleteLocal(true)
    else op == DeleteRemote || (op.Download? && op.remoteId == x.rid && op.rel == x.path)
  }

  ghost predicate Gone(x: Story, db: Db) { x.id < db.nextItem && x.id !in db.items }

  // The acts by which the file's own events change its row and queue.
  predicate Minor(x: Story, act: Act) {
    match act
    case Tombstone(id, _) => id == x.id
    case Fingerprint(id, _, _, _) => id == x.id
    case Queue(id, op, _) => id == x.id && (op == DeleteRemote ||
        (op.Download? && op.remoteId == x.rid && op.rel == x.path))
    case OpenConflict(_, _, _, _) => true
    case CloseConflicts(_) => true
    case FinishOperation(_) => true
    case Reschedule(_, _) => true
    case MakeDirs(_) => true
    case WriteFile(_, _) => true
    case RemoveTree(_) => true
    case MoveLocal(_, _) => true
    case _ => false
  }

  // What such an act does to the row and to the operations queued for it.
  ghost predicate Onward(x: Story, db: Db, after: Db, act: Act) {
    && x.id in db.items && x.id in after.items && after.items[x.id] == NextRow(db.items[x.id], act)
    && (forall o :: Own(after, x.id, o) <==>
          (Own(db, x.id, o) && act != FinishOperation(o)) || (act.Queue? && o == db.nextOp))
    && (forall o :: Own(db, x.id, o) && Own(after, x.id, o) ==> after.ops[o].op == db.ops[o].op)
    && (act.Queue? ==> Own(after, x.id, db.nextOp) && after.ops[db.nextOp].op == act.op)
  }

  function NextRow(row: Row, act: Act): Row {
    match act
    case Tombstone(_, since) => row.(trashedAt := since)
    case Fingerprint(_, size, md5, at) => row.(size := Some(size), md5 := Some(md5), syncedAt := at)
    case _ => row
  }

  lemma RowGoesOn(x: Story, db: Db, act: Act)
    requires Inv(db) && x.id in db.items && Minor(x, act)
    ensures var after := DbStep(db, act);
      && after.items == db.items[x.id := NextRow(db.items[x.id], act)]
      && db.nextOp <= after.nextOp
  {
    hide Inv;
  }

  lemma OpsGoOn(x: Story, db: Db, act: Act)
    requires Inv(db) && x.id in db.items && Minor(x, act)
    ensures var after := DbStep(db, act);
      && (forall o :: Own(after, x.id, o) <==>
            (Own(db, x.id, o) && act != FinishOperation(o)) || (act.Queue? && o == db.nextOp))
      && (forall o :: Own(db, x.id, o) && Own(after, x.id, o) ==> after.ops[o].op == db.ops[o].op)
      && (act.Queue? ==> Own(after, x.id, db.nextOp) && after.ops[db.nextOp].op == act.op)
  {
    assert OpsBelow(db) by { KeysAreUsed(db); }
    hide Inv;
  }

  lemma OursMeans(x: Story, db: Db)
    requires Ours(x, db)
    ensures Inv(db) && x.id in db.items && x.id < db.nextItem && x.removal < db.nextOp
    ensures var row := db.items[x.id]; row.remoteId == Some(x.rid) && row.path == x.path && row.kind.File?
    ensures forall o :: Own(db, x.id, o) ==> OwnKind(x, o, db.ops[o].op)
  {
    InvRow(db, x.id);
    hide Inv, Own, OwnKind;
  }

  lemma MinorIsLicensed(x: Story, db: Db, act: Act)
    requires Ours(x, db) && Minor(x, act)
    ensures Licensed(db, act)
  {
    OursMeans(x, db);
    hide Ours, Inv;
  }

  lemma QueuesOwnKind(x: Story, act: Act, o: nat)
    requires Minor(x, act) && act.Queue? && o > x.removal
    ensures OwnKind(x, o, act.op)
  {
  }

  lemma OursOn(x: Story, db: Db, after: Db, act: Act)
    requires Ours(x, db) && Inv(after) && Onward(x, db, after, act) && db.nextOp <= after.nextOp
    requires after.items == db.items[x.id := NextRow(db.items[x.id], act)]
    requires act.Queue? ==> OwnKind(x, db.nextOp, act.op)
    ensures Ours(x, after)
  {
    hide Inv, Own, OwnKind;
  }

  lemma MinorKeepsOurs(x: Story, u: World, act: Act)
    requires Ours(x, u.db) && Minor(x, act)
    ensures Ours(x, Step(u, act).db) && Onward(x, u.db, Step(u, act).db, act)
  {
    hide Ours, Inv, DbStep, DiskStep, DriveStep, Own, OwnKind, Minor;
    OursMeans(x, u.db);
    MinorIsLicensed(x, u.db, act);
    StepKeepsInv(u.db, act);
    RowGoesOn(x, u.db, act);
    OpsGoOn(x, u.db, act);
    if act.Queue? { QueuesOwnKind(x, act, u.db.nextOp); }
    OursOn(x, u.db, Step(u, act).db, act);
  }

  // Apart from the operation it is about, an act leaves in the queue what still has its item.
  lemma ActSurvives(u: World, act: Act)
    requires !act.Queue?
    ensures var o := if act.FinishOperation? then act.o else if act.Reschedule? then act.o else 0;
      var m := if act.FinishOperation? || act.Reschedule? then o + 1 else o;
      Survives(u.db, Step(u, act).db, o, m)
  {
    hide Step, Survives;
    var o := if act.FinishOperation? then act.o else if act.Reschedule? then act.o else 0;
    StepSurvives(u, act, o, if act.FinishOperation? || act.Reschedule? then o + 1 else o);
  }

  lemma GoneStays(x: Story, u: World, act: Act)
    requires Gone(x, u.db)
    ensures Gone(x, Step(u, act).db)
  {
    if !act.Queue? {
      hide DbStep, DiskStep, DriveStep;
      ActSurvives(u, act);
    }
  }

  lemma {:induction false} RunStaysGone(x: Story, u: World, acts: seq<Act>)
    requires Gone(x, u.db)
    ensures Gone(x, Run(u, acts).db)
    decreases |acts|
  {
    hide Gone, Step;
    if acts != [] {
      GoneStays(x, u, acts[0]);
      RunStaysGone(x, Step(u, acts[0]), acts[1..]);
    }
  }

  lemma EventStaysGone(x: Story, u: World, e: Event, a: Answers, clock: nat -> int)
    requires Gone(x, u.db)
    ensures Gone(x, After(x, u, e, a, clock).db)
  {
    hide Gone, Step, Run, LocalActs, RemoteActs, ExecEffect;
    match e
    case Removal => GoneStays(x, u, RemoveTree(x.path));
    case TombstoneWrite => GoneStays(x, u, Tombstone(x.id, Some(x.trashedAt)));
    case Completion => GoneStays(x, u, FinishOperation(x.removal));
    case WatcherEcho => RunStaysGone(x, u, LocalActs(u, Deleted(x.path), [], x.echoedAt));
    case Restore =>
      var acts := RemoteActs(u, x.restore, x.restoredAt);
      if acts.Some? { RunStaysGone(x, u, acts.value); }
    case Turn(o) =>
      if o in u.db.ops && u.db.ops[o].item in u.db.items {
        var e := ExecEffect(u, u.db.ops[o].item, u.db.ops[o].op, a, clock(o));
        RunStaysGone(x, u, e.acts);
        RunStaysGone(x, Run(u, e.acts), [if e.ok then FinishOperation(o) else Reschedule(o, a.retryAt(o))]);
      }
    case Other(act) => GoneStays(x, u, act);
  }

  // A foreign write leaves the row, its operations, its node and its path as they are.
  ghost predicate Beside(x: Story, u: World, v: World) {
    && Ours(x, v.db) && x.id in u.db.items && x.id in v.db.items && v.db.items[x.id] == u.db.items[x.id]
    && (forall o :: Own(v.db, x.id, o) <==> Own(u.db, x.id, o))
    && (forall o :: Own(v.db, x.id, o) ==> v.db.ops[o].op == u.db.ops[o].op)
    && At(v.disk, x.path) == At(u.disk, x.path) && (DirReady(u.disk, x.path) ==> DirReady(v.disk, x.path))
    && (x.rid in u.drive ==> x.rid in v.drive && v.drive[x.rid] == u.drive[x.rid])
    && (x.rid !in u.inFlight ==> x.rid !in v.inFlight)
  }

  lemma QueueKeepsOps(x: Story, db: Db, act: Act)
    requires Inv(db) && act.Queue? && act.id != x.id
    ensures var after := DbStep(db, act);
      && (forall o :: Own(after, x.id, o) <==> Own(db, x.id, o))
      && (forall o :: Own(after, x.id, o) ==> after.ops[o].op == db.ops[o].op)
      && db.nextOp <= after.nextOp
  {
    assert OpsBelow(db) by { KeysAreUsed(db); }
    hide Inv;
  }

  lemma SurvivorsKeepOps(x: Story, db: Db, after: Db, k: nat, m: nat)
    requires Survives(db, after, k, m) && x.id in after.items && forall o :: k <= o < m ==> !Own(db, x.id, o)
    ensures forall o :: Own(after, x.id, o) <==> Own(db, x.id, o)
    ensures forall o :: Own(after, x.id, o) ==> after.ops[o].op == db.ops[o].op
    ensures db.nextOp <= after.nextOp
  {
  }

  lemma OtherKeepsOps(x: Story, u: World, act: Act)
    requires Inv(u.db) && x.id in u.db.items && x.id in Step(u, act).db.items && Foreign(x, u, act)
    ensures var v := Step(u, act);
      && (forall o :: Own(v.db, x.id, o) <==> Own(u.db, x.id, o))
      && (forall o :: Own(v.db, x.id, o) ==> v.db.ops[o].op == u.db.ops[o].op)
      && u.db.nextOp <= v.db.nextOp
  {
    hide DbStep, DiskStep, DriveStep, Inv, Licensed, DirReady, Survives, Own;
    if act.Queue? {
      QueueKeepsOps(x, u.db, act);
    } else {
      ActSurvives(u, act);
      var k := if act.FinishOperation? then act.o else if act.Reschedule? then act.o else 0;
      SurvivorsKeepOps(x, u.db, Step(u, act).db, k, if act.FinishOperation? || act.Reschedule? then k + 1 else k);
    }
  }

  lemma OtherSparesNode(x: Story, u: World, act: Act)
    requires Foreign(x, u, act)
    ensures var v := Step(u, act);
      && (x.rid in u.drive ==> x.rid in v.drive && v.drive[x.rid] == u.drive[x.rid])
      && (x.rid !in u.inFlight ==> x.rid !in v.inFlight)
  {
    hide DbStep, DiskStep, Licensed, DirReady;
  }

  lemma OtherSparesRow(x: Story, db: Db, act: Act)
    requires Ours(x, db) && Echo.Foreign(act, Echo.Edit(x.id, x.rid, x.path, [], 0), db)
    ensures var after := DbStep(db, act);
      Echo.Sole(after, x.id, x.rid) && x.id in db.items && after.items[x.id] == db.items[x.id]
  {
    InvIsValid(db);
    hide DbStep, Inv, Own, OwnKind;
    Echo.ForeignSpares(Echo.Edit(x.id, x.rid, x.path, [], 0), db, act);
  }

  lemma OtherIsBeside(x: Story, u: World, act: Act)
    requires Ours(x, u.db) && Foreign(x, u, act)
    ensures Beside(x, u, Step(u, act))
  {
    OursMeans(x, u.db);
    OtherSparesRow(x, u.db, act);
    StepKeepsInv(u.db, act);
    OtherSparesNode(x, u, act);
    OtherKeepsOps(x, u, act);
    hide DbStep, DriveStep, DiskStep, Inv, Licensed, DirReady, Own, OwnKind;
  }

  // ---- while everything is in time -------------------------------------------------------

  ghost predicate Good(x: Story, w: World, v: World, s: seq<Event>)
    requires x.id in w.db.items && x.rid in w.drive
  {
    && Ours(x, v.db) && x.rid !in v.inFlight && DirReady(v.disk, x.path)
    && x.rid in v.drive && v.drive[x.rid] == w.drive[x.rid]
    && if Restore !in s then Trashing(x, w, v, s) else Fetching(x, w, v, s) || Home(x, w, v, s)
  }

  // Before the restore.
  ghost predicate Trashing(x: Story, w: World, v: World, s: seq<Event>)
    requires x.id in w.db.items && x.id in v.db.items
  {
    && v.db.items[x.id] == w.db.items[x.id].(trashedAt := if TombstoneWrite in s then Some(x.trashedAt) else None)
    && w.db.items[x.id].trashedAt.None?
    && At(v.disk, x.path) == (if Removal in s then None else At(w.disk, x.path))
    && forall o :: Own(v.db, x.id, o) ==> o == x.removal && Completion !in s
  }

  // The tombstone is cleared and the download queued ...
  ghost predicate Fetching(x: Story, w: World, v: World, s: seq<Event>)
    requires x.id in w.db.items && x.id in v.db.items
  {
    && TombstoneWrite in s && v.db.items[x.id] == w.db.items[x.id] && w.db.items[x.id].trashedAt.None?
    && At(v.disk, x.path) == None && exists k :: OnlyPull(x, v.db, s, k)
  }

  ghost predicate OnlyPull(x: Story, db: Db, s: seq<Event>, k: nat) {
    && Own(db, x.id, k) && db.ops[k].op.Download?
    && forall o :: Own(db, x.id, o) ==> o == k || (o == x.removal && Completion !in s)
  }

  // ... and done.
  ghost predicate Home(x: Story, w: World, v: World, s: seq<Event>)
    requires x.id in w.db.items && x.rid in w.drive
  {
    TombstoneWrite in s && Back(x, w, v) && w.db.items[x.id].trashedAt.None? && forall o :: !Own(v.db, x.id, o)
  }

  predicate Ordered(s: seq<Event>) {
    (TombstoneWrite in s ==> Removal in s) && (Completion in s ==> TombstoneWrite in s)
  }

  predicate InTime(s: seq<Event>, e: Event) {
    && (e == Restore ==> TombstoneWrite in s)
    && (e == WatcherEcho ==> TombstoneWrite in s && Restore !in s)
  }

  lemma Pushed(s: seq<Event>, e: Event)
    ensures forall y :: y in s + [e] <==> y in s || y == e
  {
  }

  lemma Found(x: Story, db: Db)
    requires Ours(x, db)
    ensures FindRemote(db, x.rid) == Some(x.id) && FindPath(db, x.path) == Some(x.id)
  {
    InvIsValid(db);
    hide Inv;
  }

  lemma DirAbove(path: string)
    requires path != ""
    ensures !Within(ParentDir(path), path)
  {
  }

  lemma GoodOther(x: Story, w: World, u: World, s: seq<Event>, act: Act)
    requires x.id in w.db.items && x.rid in w.drive && Good(x, w, u, s) && Foreign(x, u, act)
    ensures Good(x, w, Step(u, act), s + [Other(act)])
  {
    Pushed(s, Other(act));
    OtherIsBeside(x, u, act);
    GoodBeside(x, w, u, Step(u, act), s, s + [Other(act)]);
  }

  lemma GoodBeside(x: Story, w: World, u: World, v: World, s: seq<Event>, s': seq<Event>)
    requires x.id in w.db.items && x.rid in w.drive && Good(x, w, u, s) && Beside(x, u, v)
    requires forall e: Event :: !e.Other? ==> (e in s <==> e in s')
    ensures Good(x, w, v, s')
  {
    hide Ours, DirReady, Own;
    assert Restore in s <==> Restore in s';
    assert TombstoneWrite in s <==> TombstoneWrite in s';
    if Restore !in s {
      assert Trashing(x, w, v, s');
    } else if Fetching(x, w, u, s) {
      var k :| OnlyPull(x, u.db, s, k);
      assert OnlyPull(x, v.db, s', k);
      assert Fetching(x, w, v, s');
    } else {
      assert Home(x, w, v, s');
    }
  }

  lemma GoodRemoval(x: Story, w: World, u: World, s: seq<Event>)
    requires x.id in w.db.items && x.rid in w.drive && Good(x, w, u, s) && Removal !in s && Ordered(s) && x.path != ""
    ensures Good(x, w, Step(u, RemoveTree(x.path)), s + [Removal])
  {
    Pushed(s, Removal);
    DirAbove(x.path);
    hide Inv, ParentDir, Within;
    assert Within(x.path, x.path) by { WithinItself(x.path); }
  }

  lemma WithinItself(p: string)
    ensures Within(p, p)
  {
  }

  lemma GoodTombstone(x: Story, w: World, u: World, s: seq<Event>)
    requires x.id in w.db.items && x.rid in w.drive && Good(x, w, u, s) && TombstoneWrite !in s && Removal in s
    ensures Good(x, w, Step(u, Tombstone(x.id, Some(x.trashedAt))), s + [TombstoneWrite])
  {
    Pushed(s, TombstoneWrite);
    MinorKeepsOurs(x, u, Tombstone(x.id, Some(x.trashedAt)));
    hide Inv, Ours, DirReady, DbStep, Own;
  }

  lemma GoodCompletion(x: Story, w: World, u: World, s: seq<Event>)
    requires x.id in w.db.items && x.rid in w.drive && Good(x, w, u, s) && TombstoneWrite in s && Completion !in s
    ensures Good(x, w, Step(u, FinishOperation(x.removal)), s + [Completion])
  {
    Pushed(s, Completion);
    MinorKeepsOurs(x, u, FinishOperation(x.removal));
    var v := Step(u, FinishOperation(x.removal));
    if k :| OnlyPull(x, u.db, s, k) {
      assert k != x.removal;
      hide Inv, Ours, DirReady, DbStep, Own;
      if Restore in s && Fetching(x, w, u, s) { assert OnlyPull(x, v.db, s + [Completion], k); }
    }
    hide Inv, Ours, DirReady, DbStep, Own;
  }

  lemma TombstoneAbsorbs(x: Story, u: World, at: int)
    requires Ours(x, u.db)
    ensures var close := CloseConflicts(x.path);
      LocalActs(u, Deleted(x.path), [], at) ==
        if u.db.items[x.id].trashedAt.Some? then [close] else [close, Queue(x.id, DeleteRemote, at)]
  {
    Found(x, u.db);
    hide Inv, FindPath;
  }

  lemma GoodEcho(x: Story, w: World, u: World, s: seq<Event>)
    requires x.id in w.db.items && x.rid in w.drive && Good(x, w, u, s) && TombstoneWrite in s && Restore !in s
    ensures Good(x, w, Run(u, LocalActs(u, Deleted(x.path), [], x.echoedAt)), s + [WatcherEcho])
  {
    Pushed(s, WatcherEcho);
    TombstoneAbsorbs(x, u, x.echoedAt);
    RunOne(u, CloseConflicts(x.path));
    MinorKeepsOurs(x, u, CloseConflicts(x.path));
    hide Inv, Ours, DirReady, Run, LocalActs, DbStep, Own;
  }

  lemma TimelyRestoreActs(x: Story, u: World)
    requires Ours(x, u.db) && x.rid !in u.inFlight && u.db.items[x.id].trashedAt.Some?
    requires RestoreReport(x.restore, x.rid, x.path)
    ensures RemoteActs(u, x.restore, x.restoredAt) ==
      Some([Tombstone(x.id, None), Queue(x.id, PullOf(x.restore.file.value, x.path), x.restoredAt)])
  {
    Found(x, u.db);
    hide Inv, FindRemote;
  }

  lemma GoodRestore(x: Story, w: World, u: World, s: seq<Event>)
    requires x.id in w.db.items && x.rid in w.drive && Good(x, w, u, s) && TombstoneWrite in s && Restore !in s
    requires Removal in s && RestoreReport(x.restore, x.rid, x.path)
    ensures Good(x, w, Deliver(u, x.restore, x.restoredAt), s + [Restore])
  {
    Pushed(s, Restore);
    var clear, pull := Tombstone(x.id, None), Queue(x.id, PullOf(x.restore.file.value, x.path), x.restoredAt);
    TimelyRestoreActs(x, u);
    RunTwo(u, clear, pull);
    MinorKeepsOurs(x, u, clear);
    MinorKeepsOurs(x, Step(u, clear), pull);
    assert Step(u, clear).db.nextOp == u.db.nextOp;
    hide Inv, Ours, DirReady, Run, RemoteActs, DbStep, Own;
    assert OnlyPull(x, Step(Step(u, clear), pull).db, s + [Restore], u.db.nextOp);
  }

  // An own operation runs to its last act.
  lemma TurnRuns(x: Story, u: World, o: nat, a: Answers, clock: nat -> int)
    requires Own(u.db, x.id, o) && x.id in u.db.items
    ensures var e := ExecEffect(u, x.id, u.db.ops[o].op, a, clock(o));
      ExecOp(u, o, a, clock) ==
          Step(Run(u, e.acts), if e.ok then FinishOperation(o) else Reschedule(o, a.retryAt(o)))
  {
    hide Run, ExecEffect;
    var e := ExecEffect(u, x.id, u.db.ops[o].op, a, clock(o));
    RunOne(Run(u, e.acts), if e.ok then FinishOperation(o) else Reschedule(o, a.retryAt(o)));
  }

  lemma DownloadWorks(x: Story, u: World, a: Answers, now: int)
    requires x.id in u.db.items && u.db.items[x.id].remoteId == Some(x.rid)
    requires a.reply.Accepted? && x.rid in u.drive && DirReady(u.disk, x.path) && At(u.disk, x.path) == None
    ensures DownloadEffect(u, x.id, x.rid, x.path, a, now) ==
        Effect(DownloadActs(x.id, x.path, u.drive[x.rid].bytes, now), true)
  {
    hide ParentDir, MkdirOk, MkdirAll, DownloadActs;
    var acts := DownloadActs(x.id, x.path, u.drive[x.rid].bytes, now);
    MkdirIdle(u.disk, ParentDir(x.path));
    assert acts + [] == acts;
  }

  // The download, wherever it comes.
  lemma DownloadRunsAs(x: Story, u: World, o: nat, a: Answers, clock: nat -> int)
    requires Ours(x, u.db) && Own(u.db, x.id, o) && u.db.ops[o].op.Download? && o != x.removal
    requires a.reply.Accepted? && x.rid in u.drive && DirReady(u.disk, x.path) && At(u.disk, x.path) == None
    ensures var v, bytes := ExecOp(u, o, a, clock), u.drive[x.rid].bytes;
      var stamp := Fingerprint(x.id, |bytes|, Md5(bytes), clock(o));
      && v == Step(Step(u.(disk := u.disk[x.path := FileNode(bytes)]), stamp), FinishOperation(o))
  {
    OursMeans(x, u.db);
    hide Ours, Own, ExecOp, DownloadEffect, Run, ParentDir, MkdirAll, DownloadActs, Inv;
    DownloadWorks(x, u, a, clock(o));
    TurnRuns(x, u, o, a, clock);
    DownloadRuns(u, x.id, x.path, u.drive[x.rid].bytes, clock(o));
    MkdirIdle(u.disk, ParentDir(x.path));
  }

  lemma DownloadBrings(x: Story, u: World, o: nat, a: Answers, clock: nat -> int)
    requires Ours(x, u.db) && Own(u.db, x.id, o) && u.db.ops[o].op.Download? && o != x.removal
    requires a.reply.Accepted? && x.rid in u.drive && DirReady(u.disk, x.path) && At(u.disk, x.path) == None
    ensures var v, bytes := ExecOp(u, o, a, clock), u.drive[x.rid].bytes;
      && v.disk == u.disk[x.path := FileNode(bytes)] && v.drive == u.drive && v.inFlight == u.inFlight
      && Ours(x, v.db) && x.id in v.db.items && x.id in u.db.items
      && v.db.items[x.id] == u.db.items[x.id].(size := Some(|bytes|), md5 := Some(Md5(bytes)), syncedAt := clock(o))
      && forall p :: Own(v.db, x.id, p) ==> Own(u.db, x.id, p) && p != o
  {
    hide Ours, Own, OwnKind, DbStep, ExecOp, DirReady, Inv;
    OursMeans(x, u.db);
    var bytes, finish := u.drive[x.rid].bytes, FinishOperation(o);
    var stamp, there := Fingerprint(x.id, |bytes|, Md5(bytes), clock(o)), u.(disk := u.disk[x.path := FileNode(bytes)]);
    DownloadRunsAs(x, u, o, a, clock);
    MinorKeepsOurs(x, there, stamp);
    MinorKeepsOurs(x, Step(there, stamp), finish);
  }

  lemma OnlyPullDownloads(x: Story, db: Db, s: seq<Event>, o: nat)
    requires Ours(x, db) && Own(db, x.id, o) && Completion in s && exists k :: OnlyPull(x, db, s, k)
    ensures db.ops[o].op.Download? && o != x.removal
  {
    OursMeans(x, db);
    hide Ours;
  }

  lemma GoodDownload(x: Story, w: World, u: World, s: seq<Event>, o: nat, a: Answers, clock: nat -> int)
    requires x.id in w.db.items && x.rid in w.drive && Good(x, w, u, s) && Restore in s && Fetching(x, w, u, s)
    requires Own(u.db, x.id, o) && a.reply.Accepted? && Completion in s
    ensures Good(x, w, ExecOp(u, o, a, clock), s + [Turn(o)])
  {
    hide Ours, Own, ExecOp, DirReady, Inv, OwnKind;
    OursMeans(x, u.db);
    Pushed(s, Turn(o));
    OnlyPullDownloads(x, u.db, s, o);
    DownloadBrings(x, u, o, a, clock);
    DirAboveStays(u.disk, x.path, FileNode(u.drive[x.rid].bytes));
    assert Home(x, w, ExecOp(u, o, a, clock), s + [Turn(o)]);
  }

  lemma DirAboveStays(d: Disk, path: string, node: Node)
    requires DirReady(d, path)
    ensures DirReady(d[path := node], path)
  {
    if path != "" { assert |ParentDir(path)| < |path|; }
  }

  // ---- once something came at the wrong time ---------------------------------------------

  // A remote delete is queued for the file.
  ghost predicate Condemned(x: Story, db: Db) {
    exists o :: Own(db, x.id, o) && db.ops[o].op.DeleteRemote?
  }

  // The restore has come and gone, and the row is a tombstone or will be.
  ghost predicate Buried(x: Story, db: Db, s: seq<Event>) {
    Restore in s && x.id in db.items && (TombstoneWrite in s ==> db.items[x.id].trashedAt.Some?)
  }

  ghost predicate Late(x: Story, v: World, s: seq<Event>) {
    Gone(x, v.db) || (Ours(x, v.db) && (Condemned(x, v.db) || Buried(x, v.db, s)))
  }

  // Own acts short of the end of an operation keep it so.
  lemma MinorStaysLate(x: Story, u: World, act: Act, s: seq<Event>, s': seq<Event>)
    requires Ours(x, u.db) && Late(x, u, s) && Minor(x, act)
    requires act.FinishOperation? ==> forall o :: Own(u.db, x.id, o) && u.db.ops[o].op.DeleteRemote? ==> o != act.o
    requires Restore in s ==> Restore in s' && !(act.Tombstone? && act.since.None?)
    requires TombstoneWrite in s' ==> TombstoneWrite in s || act.Tombstone?
    ensures Late(x, Step(u, act), s')
  {
    MinorKeepsOurs(x, u, act);
    hide Ours, DbStep, Own, DiskStep, DriveStep, Minor;
    if o :| Own(u.db, x.id, o) && u.db.ops[o].op.DeleteRemote? {
      assert Own(Step(u, act).db, x.id, o);
    }
  }

  lemma {:induction false} MinorsStayLate(x: Story, u: World, acts: seq<Act>, s: seq<Event>)
    requires Ours(x, u.db) && Late(x, u, s)
    requires forall act :: act in acts ==>
      Minor(x, act) && !act.FinishOperation? && !(act.Tombstone? && act.since.None? && Restore in s)
    ensures Ours(x, Run(u, acts).db) && Late(x, Run(u, acts), s)
    decreases |acts|
  {
    hide Ours, Late, Step, Minor;
    if acts != [] {
      MinorStaysLate(x, u, acts[0], s, s);
      MinorKeepsOurs(x, u, acts[0]);
      MinorsStayLate(x, Step(u, acts[0]), acts[1..], s);
    }
  }

  lemma SameStage(x: Story, v: World, s: seq<Event>, s': seq<Event>)
    requires Late(x, v, s) && (TombstoneWrite in s <==> TombstoneWrite in s') && (Restore in s ==> Restore in s')
    ensures Late(x, v, s')
  {
    hide Ours;
  }

  // An echo that meets a live row condemns the file.
  lemma EchoOnLiveRow(x: Story, u: World, s: seq<Event>)
    requires Ours(x, u.db) && u.db.items[x.id].trashedAt.None?
    ensures var v := Run(u, LocalActs(u, Deleted(x.path), [], x.echoedAt));
      && Late(x, v, s) && Own(v.db, x.id, u.db.nextOp) && v.db.ops[u.db.nextOp].op == DeleteRemote
      && Ours(x, v.db) && v.drive == u.drive && v.disk == u.disk
  {
    hide Ours, Own, Run, LocalActs, Step;
    var close, delete := CloseConflicts(x.path), Queue(x.id, DeleteRemote, x.echoedAt);
    assert x.id in u.db.items by { OursMeans(x, u.db); }
    EchoQueuesDelete(x, u);
    assert Own(Step(Step(u, close), delete).db, x.id, u.db.nextOp);
  }

  lemma EchoQueuesDelete(x: Story, u: World)
    requires Ours(x, u.db) && x.id in u.db.items && u.db.items[x.id].trashedAt.None?
    ensures var close, delete := CloseConflicts(x.path), Queue(x.id, DeleteRemote, x.echoedAt);
      var v := Run(u, LocalActs(u, Deleted(x.path), [], x.echoedAt));
      && v == Step(Step(u, close), delete) && v.drive == u.drive && v.disk == u.disk
      && Ours(x, v.db) && Onward(x, Step(u, close).db, v.db, delete) && Step(u, close).db.nextOp == u.db.nextOp
  {
    hide *;
    var close, delete := CloseConflicts(x.path), Queue(x.id, DeleteRemote, x.echoedAt);
    TombstoneAbsorbs(x, u, x.echoedAt);
    RunTwo(u, close, delete);
    EchoActs(x, u);
    MinorKeepsOurs(x, u, close);
    MinorKeepsOurs(x, Step(u, close), delete);
  }

  lemma EchoActs(x: Story, u: World)
    ensures var close, delete := CloseConflicts(x.path), Queue(x.id, DeleteRemote, x.echoedAt);
      var v := Step(Step(u, close), delete);
      && Minor(x, close) && Minor(x, delete) && Step(u, close).db.nextOp == u.db.nextOp
      && v.drive == u.drive && v.disk == u.disk
  {
  }

  // Whatever the restore finds, it issues no other acts than these.
  lemma RestoreIsMinor(x: Story, u: World)
    requires Ours(x, u.db) && RestoreReport(x.restore, x.rid, x.path)
    ensures var acts := RemoteActs(u, x.restore, x.restoredAt);
      acts.Some? ==> forall act :: act in acts.value ==>
        Minor(x, act) && !act.FinishOperation?
        && (act.Tombstone? && act.since.None? ==> u.db.items[x.id].trashedAt.Some?)
  {
    hide Ours, Inv, Own, OwnKind, FindRemote, RemoteActs, ConflictPath, WellNamed;
    OursMeans(x, u.db);
    Found(x, u.db);
    if x.rid in u.inFlight {
      RegisteredIsIgnored(u, x.restore, x.restoredAt);
    } else if u.db.items[x.id].trashedAt.Some? {
      TimelyRestoreActs(x, u);
    } else {
      EarlyRestoreActs(u, x.id, x.rid, x.restore, x.restoredAt);
    }
  }

  lemma RegisteredIsIgnored(u: World, c: Change, now: int)
    requires c.fileId in u.inFlight
    ensures RemoteActs(u, c, now) == Some([])
  {
    hide FindRemote;
  }

  // A restore that meets a live row leaves the tombstone to be written after it.
  lemma RestoreOnLiveRow(x: Story, u: World, s: seq<Event>)
    requires Ours(x, u.db) && u.db.items[x.id].trashedAt.None? && RestoreReport(x.restore, x.rid, x.path)
    requires TombstoneWrite !in s
    ensures Late(x, Deliver(u, x.restore, x.restoredAt), s + [Restore])
  {
    Pushed(s, Restore);
    RestoreIsMinor(x, u);
    hide RemoteActs, Run, Minor, Own;
    var acts := RemoteActs(u, x.restore, x.restoredAt);
    assert Late(x, u, s + [Restore]);
    if acts.Some? { MinorsStayLate(x, u, acts.value, s + [Restore]); }
  }

  lemma LateEcho(x: Story, u: World, s: seq<Event>)
    requires Ours(x, u.db) && Late(x, u, s)
    ensures Late(x, Run(u, LocalActs(u, Deleted(x.path), [], x.echoedAt)), s + [WatcherEcho])
  {
    Pushed(s, WatcherEcho);
    if u.db.items[x.id].trashedAt.None? {
      EchoOnLiveRow(x, u, s + [WatcherEcho]);
    } else {
      TombstoneAbsorbs(x, u, x.echoedAt);
      RunOne(u, CloseConflicts(x.path));
      MinorStaysLate(x, u, CloseConflicts(x.path), s, s + [WatcherEcho]);
    }
  }

  lemma LateRestore(x: Story, u: World, s: seq<Event>)
    requires Ours(x, u.db) && Late(x, u, s) && Restore !in s && RestoreReport(x.restore, x.rid, x.path)
    ensures Late(x, Deliver(u, x.restore, x.restoredAt), s + [Restore])
  {
    Pushed(s, Restore);
    RestoreIsMinor(x, u);
    hide RemoteActs, Run, Minor, Own, Ours, Late;
    var acts := RemoteActs(u, x.restore, x.restoredAt);
    if acts.Some? { MinorsStayLate(x, u, acts.value, s); }
    SameStage(x, Deliver(u, x.restore, x.restoredAt), s, s + [Restore]);
  }

  lemma DropIsGone(x: Story, u: World)
    requires Inv(u.db) && x.id in u.db.items
    ensures Gone(x, Step(u, DeleteItem(x.id)).db)
  {
    InvRow(u.db, x.id);
    hide Inv;
  }

  lemma DeleteDrops(x: Story, u: World, o: nat, a: Answers, clock: nat -> int)
    requires Ours(x, u.db) && Own(u.db, x.id, o) && u.db.ops[o].op.DeleteRemote? && a.reply.Accepted?
    ensures var v := ExecOp(u, o, a, clock);
      Gone(x, v.db) && (x.rid in u.drive ==> x.rid in v.drive && v.drive[x.rid].trashed)
  {
    hide Ours, Own, OwnKind, Inv, ExecOp, Run, DbStep, Gone;
    OursMeans(x, u.db);
    var mark, trash, drop, unmark := Mark(x.rid), TrashNode(x.rid), DeleteItem(x.id), Unmark(x.rid);
    TurnRuns(x, u, o, a, clock);
    RunFour(u, mark, trash, drop, unmark);
    var trashed := Step(Step(u, mark), trash);
    assert trashed.db == u.db by { OnlyOnDrive(u, x.rid); }
    DropIsGone(x, trashed);
    GoneStays(x, Step(trashed, drop), unmark);
    GoneStays(x, Step(Step(trashed, drop), unmark), FinishOperation(o));
  }

  lemma OnlyOnDrive(u: World, rid: string)
    ensures Step(Step(u, Mark(rid)), TrashNode(rid)).db == u.db
  {
  }

  // The acts of an own operation other than a remote delete.
  lemma OwnActsAreMinor(x: Story, u: World, o: nat, a: Answers, now: int)
    requires Ours(x, u.db) && Own(u.db, x.id, o) && !u.db.ops[o].op.DeleteRemote?
    ensures forall act :: act in ExecEffect(u, x.id, u.db.ops[o].op, a, now).acts ==>
      Minor(x, act) && !act.FinishOperation? && !(act.Tombstone? && act.since.None?)
  {
    hide Inv, MkdirOk, ParentDir;
  }

  lemma LateTurn(x: Story, u: World, s: seq<Event>, o: nat, a: Answers, clock: nat -> int)
    requires Ours(x, u.db) && Late(x, u, s) && Own(u.db, x.id, o) && a.reply.Accepted?
    ensures Late(x, ExecOp(u, o, a, clock), s + [Turn(o)])
  {
    Pushed(s, Turn(o));
    assert x.id in u.db.items;
    if u.db.ops[o].op.DeleteRemote? {
      DeleteDrops(x, u, o, a, clock);
    } else {
      OwnActsAreMinor(x, u, o, a, clock(o));
      assert o in u.db.ops;
      hide *;
      TurnRuns(x, u, o, a, clock);
      var e := ExecEffect(u, x.id, u.db.ops[o].op, a, clock(o));
      var v, last := Run(u, e.acts), if e.ok then FinishOperation(o) else Reschedule(o, a.retryAt(o));
      MinorsStayLate(x, u, e.acts, s);
      EffectIgnoresQueue(u, u, x.id, u.db.ops[o].op, a, clock(o));
      OpsShrink(u, e.acts);
      assert Minor(x, last) by { LastIsMinor(x, last); }
      MinorStaysLate(x, v, last, s, s + [Turn(o)]);
    }
  }

  lemma LastIsMinor(x: Story, act: Act)
    requires act.FinishOperation? || act.Reschedule?
    ensures Minor(x, act)
  {
  }

  // ---- every run -------------------------------------------------------------------------

  lemma LateOther(x: Story, u: World, s: seq<Event>, act: Act)
    requires Ours(x, u.db) && Late(x, u, s) && Foreign(x, u, act)
    ensures Late(x, Step(u, act), s + [Other(act)])
  {
    hide Ours, Foreign, Step;
    Pushed(s, Other(act));
    OtherIsBeside(x, u, act);
    if o :| Own(u.db, x.id, o) && u.db.ops[o].op.DeleteRemote? { assert Own(Step(u, act).db, x.id, o); }
  }

  lemma LateRemoval(x: Story, u: World, s: seq<Event>)
    requires Late(x, u, s)
    ensures Late(x, Step(u, RemoveTree(x.path)), s + [Removal])
  {
    hide Ours;
    Pushed(s, Removal);
    SameStage(x, u, s, s + [Removal]);
  }

  lemma LateTombstone(x: Story, u: World, s: seq<Event>)
    requires Ours(x, u.db) && Late(x, u, s)
    ensures Late(x, Step(u, Tombstone(x.id, Some(x.trashedAt))), s + [TombstoneWrite])
  {
    hide Ours, Late, Step;
    Pushed(s, TombstoneWrite);
    MinorStaysLate(x, u, Tombstone(x.id, Some(x.trashedAt)), s, s + [TombstoneWrite]);
  }

  lemma LateCompletion(x: Story, u: World, s: seq<Event>)
    requires Ours(x, u.db) && Late(x, u, s)
    ensures Late(x, Step(u, FinishOperation(x.removal)), s + [Completion])
  {
    OursMeans(x, u.db);
    hide Ours, Late, Step;
    Pushed(s, Completion);
    MinorStaysLate(x, u, FinishOperation(x.removal), s, s + [Completion]);
  }

  lemma GoneIsLate(x: Story, v: World, s: seq<Event>)
    requires Gone(x, v.db)
    ensures Late(x, v, s)
  {
  }

  // Once late, always late.
  lemma LateStep(x: Story, u: World, s: seq<Event>, e: Event, a: Answers, clock: nat -> int)
    requires Late(x, u, s) && MayHappen(x, u, s, e) && a.reply.Accepted? && RestoreReport(x.restore, x.rid, x.path)
    ensures Late(x, After(x, u, e, a, clock), s + [e])
  {
    if !Ours(x, u.db) {
      EventStaysGone(x, u, e, a, clock);
      GoneIsLate(x, After(x, u, e, a, clock), s + [e]);
    } else {
      hide Ours, Late, Step, Run, ExecOp, LocalActs, Deliver, Foreign, Own;
      match e
      case Removal => LateRemoval(x, u, s);
      case TombstoneWrite => LateTombstone(x, u, s);
      case Completion => LateCompletion(x, u, s);
      case WatcherEcho => LateEcho(x, u, s);
      case Restore => LateRestore(x, u, s);
      case Turn(o) => LateTurn(x, u, s, o, a, clock);
      case Other(act) => LateOther(x, u, s, act);
    }
  }

  // As long as every restore and echo comes in time, all is well.
  lemma GoodStep(x: Story, w: World, u: World, s: seq<Event>, e: Event, a: Answers, clock: nat -> int)
    requires x.id in w.db.items && x.rid in w.drive && Good(x, w, u, s) && MayHappen(x, u, s, e) && InTime(s, e)
    requires Ordered(s) && a.reply.Accepted? && RestoreReport(x.restore, x.rid, x.path) && x.path != ""
    ensures Good(x, w, After(x, u, e, a, clock), s + [e])
  {
    if e.Turn? {
      assert Restore in s && Fetching(x, w, u, s);
    }
    hide Good, Ours, Step, Run, ExecOp, LocalActs, Deliver, Foreign, Own, Fetching;
    match e
    case Removal => GoodRemoval(x, w, u, s);
    case TombstoneWrite => GoodTombstone(x, w, u, s);
    case Completion => GoodCompletion(x, w, u, s);
    case WatcherEcho => GoodEcho(x, w, u, s);
    case Restore => GoodRestore(x, w, u, s);
    case Turn(o) => GoodDownload(x, w, u, s, o, a, clock);
    case Other(act) => GoodOther(x, w, u, s, act);
  }

  // The first event at the wrong time.
  lemma TurnsLate(x: Story, w: World, u: World, s: seq<Event>, e: Event, a: Answers, clock: nat -> int)
    requires x.id in w.db.items && x.rid in w.drive && Good(x, w, u, s) && MayHappen(x, u, s, e) && !InTime(s, e)
    requires RestoreReport(x.restore, x.rid, x.path)
    ensures Late(x, After(x, u, e, a, clock), s + [e])
  {
    assert u.db.items[x.id].trashedAt.None?;
    hide Ours, Step, Run, LocalActs, Deliver, Own;
    if e == Restore { RestoreOnLiveRow(x, u, s); } else { EchoOnLiveRow(x, u, s + [e]); }
  }

  lemma TrashQueues(w: World, id: nat, rid: string, c: Change, now: int)
    requires rid !in w.inFlight && FindRemote(w.db, rid) == Some(id) && TrashReport(c, rid)
    requires w.db.items[id].kind.File? && w.db.items[id].trashedAt.None?
    ensures RemoteActs(w, c, now) == Some([Queue(id, DeleteLocal(true), now)])
  {
    hide FindRemote, FileActs, FolderActs, NativeActs;
  }

  lemma FoundAtStart(x: Story, w: World, c: Change)
    requires Begins(x, w, c)
    ensures FindRemote(w.db, x.rid) == Some(x.id) && Inv(w.db) && TrashReport(c, x.rid) && x.rid !in w.inFlight
    ensures w.db.items[x.id].kind.File? && w.db.items[x.id].trashedAt.None? && w.db.items[x.id].remoteId == Some(x.rid)
  {
    hide Inv, Tree, RestoreReport, TrashReport;
  }

  lemma StartQueues(x: Story, w: World, c: Change, now: int)
    requires Begins(x, w, c)
    ensures Deliver(w, c, now) == w.(db := Enqueue(w.db, x.id, DeleteLocal(true), now))
    ensures Inv(Enqueue(w.db, x.id, DeleteLocal(true), now)) && OpsBelow(w.db)
  {
    hide Begins, Inv, TrashReport, FindRemote, RemoteActs, Run, Enqueue, OpsBelow;
    FoundAtStart(x, w, c);
    assert Linked(w.db, x.id) by { InvRow(w.db, x.id); }
    QueueKeepsInv(w.db, x.id, DeleteLocal(true), now);
    KeysAreUsed(w.db);
    TrashQueues(w, x.id, x.rid, c, now);
    RunOne(w, Queue(x.id, DeleteLocal(true), now));
  }

  lemma StartIsOurs(x: Story, w: World, c: Change, now: int)
    requires Begins(x, w, c)
    ensures var db := Enqueue(w.db, x.id, DeleteLocal(true), now);
      Ours(x, db) && forall o :: Own(db, x.id, o) ==> o == x.removal
  {
    StartQueues(x, w, c, now);
    hide Inv, Tree, RestoreReport, TrashReport, Deliver;
  }

  lemma StartIsGood(x: Story, w: World, c: Change, now: int)
    requires Begins(x, w, c)
    ensures Good(x, w, Deliver(w, c, now), [])
  {
    hide Inv, Ours, RestoreReport, TrashReport, Deliver, ParentDir, Own;
    StartQueues(x, w, c, now);
    StartIsOurs(x, w, c, now);
  }

  lemma StartsAtFile(x: Story, w: World, c: Change)
    requires Begins(x, w, c)
    ensures x.path != "" && x.id in w.db.items && x.rid in w.drive && RestoreReport(x.restore, x.rid, x.path)
  {
    hide Inv;
  }

  lemma Push(x: Story, u: World, s: seq<Event>, e: Event, a: Answers, clock: nat -> int)
    ensures var v := Play(x, u, s, a, clock);
      && Play(x, u, s + [e], a, clock) == After(x, v, e, a, clock)
      && (Legal(x, u, s + [e], a, clock) <==> Legal(x, u, s, a, clock) && MayHappen(x, v, s, e))
      && (Timely(s + [e]) <==> Timely(s) && InTime(s, e))
  {
    assert (s + [e])[..|s|] == s;
    hide After, MayHappen;
  }

  lemma NothingOrdered()
    ensures Ordered([])
  {
  }

  lemma OrderedOn(x: Story, u: World, s: seq<Event>, e: Event)
    requires Ordered(s) && MayHappen(x, u, s, e)
    ensures Ordered(s + [e])
  {
    hide Foreign;
    Pushed(s, e);
  }

  lemma {:induction false} EveryRun(x: Story, w: World, c: Change, now: int, s: seq<Event>, a: Answers,
          clock: nat -> int)
    requires Begins(x, w, c) && a.reply.Accepted? && Legal(x, Deliver(w, c, now), s, a, clock)
    ensures var v := Play(x, Deliver(w, c, now), s, a, clock);
      Ordered(s) && if Timely(s) then Good(x, w, v, s) else Late(x, v, s)
    decreases |s|
  {
    hide Begins, Deliver, Good, Late, After, MayHappen, RestoreReport, Ordered;
    StartsAtFile(x, w, c);
    if s == [] {
      assert Ordered(s) by { NothingOrdered(); }
      StartIsGood(x, w, c, now);
    } else {
      var n := |s| - 1;
      var before, u := s[..n], Play(x, Deliver(w, c, now), s[..n], a, clock);
      assert before + [s[n]] == s;
      Push(x, Deliver(w, c, now), before, s[n], a, clock);
      hide Play, Legal, Timely, InTime;
      EveryRun(x, w, c, now, before, a, clock);
      OrderedOn(x, u, before, s[n]);
      if !Timely(before) { LateStep(x, u, before, s[n], a, clock); }
      else if InTime(before, s[n]) { GoodStep(x, w, u, before, s[n], a, clock); }
      else { TurnsLate(x, w, u, before, s[n], a, clock); }
    }
  }

  lemma GoodEnd(x: Story, w: World, v: World, s: seq<Event>)
    requires x.id in w.db.items && x.rid in w.drive && Good(x, w, v, s) && Restore in s
    requires forall o :: !Own(v.db, x.id, o)
    ensures Back(x, w, v)
  {
    hide Ours;
  }

  lemma LateEnd(x: Story, w: World, v: World, s: seq<Event>)
    requires x.id in w.db.items && x.rid in w.drive && Late(x, v, s) && TombstoneWrite in s
    requires w.db.items[x.id].trashedAt.None? && forall o :: !Own(v.db, x.id, o)
    ensures !Back(x, w, v)
  {
    hide Ours;
  }

  // Trash and restore, in every order of their events and with other tasks in between: once nothing is
  // queued for the file any more, row and file are back exactly if the tombstone was written before the
  // restore was consumed, and every echo of the removal while the tombstone was set.
  lemma RestoreSucceedsIff(x: Story, w: World, c: Change, now: int, s: seq<Event>, a: Answers, clock: nat -> int)
    requires Begins(x, w, c) && a.reply.Accepted? && Legal(x, Deliver(w, c, now), s, a, clock)
    requires Completion in s && Restore in s
    requires forall o :: !Own(Play(x, Deliver(w, c, now), s, a, clock).db, x.id, o)
    ensures x.id in w.db.items && x.rid in w.drive
    ensures Back(x, w, Play(x, Deliver(w, c, now), s, a, clock)) <==> Timely(s)
  {
    hide Deliver, Play, Legal, Good, Late, Back, Own, Inv;
    StartsAtFile(x, w, c);
    EveryRun(x, w, c, now, s, a, clock);
    var v := Play(x, Deliver(w, c, now), s, a, clock);
    if Timely(s) { GoodEnd(x, w, v, s); } else { LateEnd(x, w, v, s); }
  }

  // An echo consumed after the restore has cleared the tombstone: at any such moment of any run it
  // queues a remote delete, which trashes the restored file on Drive once more and drops its row.
  lemma LateEchoTrashesAgain(x: Story, w: World, c: Change, now: int, s: seq<Event>, a: Answers, clock: nat -> int)
    requires Begins(x, w, c) && a.reply.Accepted? && Legal(x, Deliver(w, c, now), s, a, clock)
    requires Timely(s) && Restore in s && Completion in s
    ensures var u := Deliver(w, c, now);
      var end := s + [WatcherEcho, Turn(Play(x, u, s, a, clock).db.nextOp)];
      var v := Play(x, u, end, a, clock);
      && Legal(x, u, end, a, clock)
      && x.id !in v.db.items && x.rid in v.drive && v.drive[x.rid].trashed
  {
    hide *;
    StartsAtFile(x, w, c);
    EveryRun(x, w, c, now, s, a, clock);
    var u := Deliver(w, c, now);
    var v := Play(x, u, s, a, clock);
    var n := v.db.nextOp;
    GoodRow(x, w, v, s);
    EchoThenDelete(x, v, s, a, clock);
    Push(x, u, s, WatcherEcho, a, clock);
    Push(x, u, s + [WatcherEcho], Turn(n), a, clock);
    assert s + [WatcherEcho] + [Turn(n)] == s + [WatcherEcho, Turn(n)];
  }

  lemma EchoThenDelete(x: Story, v: World, s: seq<Event>, a: Answers, clock: nat -> int)
    requires Ours(x, v.db) && v.db.items[x.id].trashedAt.None? && x.rid in v.drive && a.reply.Accepted?
    requires Removal in s && Completion in s
    ensures MayHappen(x, v, s, WatcherEcho)
    ensures var heard, turn := After(x, v, WatcherEcho, a, clock), Turn(v.db.nextOp);
      && MayHappen(x, heard, s + [WatcherEcho], turn)
      && var end := After(x, heard, turn, a, clock);
         x.id !in end.db.items && x.rid in end.drive && end.drive[x.rid].trashed
  {
    hide Ours, Late, Own, ExecOp, LocalActs, Run;
    Pushed(s, WatcherEcho);
    EchoOnLiveRow(x, v, s);
    DeleteDrops(x, After(x, v, WatcherEcho, a, clock), v.db.nextOp, a, clock);
  }

  lemma GoodRow(x: Story, w: World, v: World, s: seq<Event>)
    requires x.id in w.db.items && x.rid in w.drive && Good(x, w, v, s) && Restore in s && Ordered(s) && Completion in s
    ensures Ours(x, v.db) && x.id in v.db.items && v.db.items[x.id].trashedAt.None? && x.rid in v.drive && Removal in s
  {
    hide Inv, Own;
  }

  // Such a run exists wherever the story begins.
  lemma RestoredBeforeEcho(x: Story, w: World, c: Change, now: int, a: Answers, clock: nat -> int)
    requires Begins(x, w, c)
    ensures var s := [Removal, TombstoneWrite, Completion, Restore];
      Legal(x, Deliver(w, c, now), s, a, clock) && Timely(s)
  {
    hide Begins, Deliver, After, Legal, Play, Timely;
    var u := Deliver(w, c, now);
    assert Legal(x, u, [], a, clock) && Timely([]) by { NothingYet(x, u, a, clock); }
    var one, two, three := [Removal], [Removal, TombstoneWrite], [Removal, TombstoneWrite, Completion];
    assert [] + one == one && one + [TombstoneWrite] == two && two + [Completion] == three;
    assert three + [Restore] == [Removal, TombstoneWrite, Completion, Restore];
    Push(x, u, [], Removal, a, clock);
    Push(x, u, one, TombstoneWrite, a, clock);
    Push(x, u, two, Completion, a, clock);
    Push(x, u, three, Restore, a, clock);
  }

  lemma NothingYet(x: Story, u: World, a: Answers, clock: nat -> int)
    ensures Legal(x, u, [], a, clock) && Timely([])
  {
  }
}
