// A file trashed on Drive and restored later: the local copy goes and comes back, its row keeps
// its identity, and the daemon's own removal never turns into a delete on Drive.
module Trash {
  import opened Paths
  import opened Tables
  import opened Disk
  import opened World
  import opened Continuous
  import opened Runtime
  import opened Invariants
  import opened Draining
  import opened Redelivery
  import opened RedeliveryCases
  import opened Idempotence
  import opened Timestamps

  // A tracked file, with its copy in place.
  ghost predicate Tracked(w: World, id: nat, rid: string) {
    && EmptyQueue(w) && Tree(w.disk) && rid !in w.inFlight
    && FindRemote(w.db, rid) == Some(id) && w.db.items[id].kind.File?
    && IsFile(w.disk, w.db.items[id].path)
  }

  ghost predicate TrashReport(c: Change, rid: string) {
    c.fileId == rid && !c.removed && c.file.Some? && c.file.value.trashed
  }

  ghost predicate RestoreReport(c: Change, rid: string, path: string) {
    && c.fileId == rid && !c.removed && c.file.Some? && !c.file.value.trashed && c.file.value.id == rid
    && c.file.value.mime.Opaque? && c.file.value.md5.Some?
    && (c.path.Some? ==> c.path.value == path)
  }

  // The four stages.
  ghost function AfterTrash(w: World, c: Change, now: int, a: Answers, clock: nat -> int): World {
    Drain(Deliver(w, c, now), a, clock)
  }

  ghost function AfterEcho(w: World, path: string, now: int): World {
    Run(w, LocalActs(w, Deleted(path), [], now))
  }

  ghost predicate NoRemoteDelete(db: Db) {
    forall o :: o in db.ops ==> !db.ops[o].op.DeleteRemote?
  }

  lemma RemoveFile(d: Disk, path: string)
    requires Tree(d) && !IsDir(d, path) && path != ""
    ensures Removed(d, path) == d - {path}
  {
    hide Tree;
    forall q | q in d && Within(q, path) ensures q == path {
      if q != path { AncestorIsDir(d, q, path); }
    }
  }

  lemma TombstoneRuns(w: World, o: nat, id: nat, a: Answers, clock: nat -> int)
    requires Holds(w.db, o, id, DeleteLocal(true)) && w.db.items[id].kind.File? && !IsDir(w.disk, w.db.items[id].path)
    ensures ExecOp(w, o, a, clock) == w.(disk := Removed(w.disk, w.db.items[id].path),
      db := FinishOp(SetTrashed(w.db, id, Some(clock(o))), o))
  {
    hide Run, Removed;
    var path := w.db.items[id].path;
    RunTwo(w, RemoveTree(path), Tombstone(id, Some(clock(o))));
    RunOne(Step(Step(w, RemoveTree(path)), Tombstone(id, Some(clock(o)))), FinishOperation(o));
  }

  // Trash: the copy goes, the row stays as a tombstone.
  lemma TrashLeavesTombstone(w: World, id: nat, rid: string, c: Change, now: int, a: Answers, clock: nat -> int)
    requires Tracked(w, id, rid) && TrashReport(c, rid) && w.db.items[id].trashedAt.None?
    ensures var v := AfterTrash(w, c, now, a, clock);
      && NoRemoteDelete(Deliver(w, c, now).db) && Inv(v.db) && v.db.ops == map[]
      && v.db.items == w.db.items[id := w.db.items[id].(trashedAt := Some(clock(w.db.nextOp)))]
      && v.disk == w.disk - {w.db.items[id].path} && v.drive == w.drive && v.inFlight == w.inFlight
  {
    hide Run, Inv, Tree, FindRemote, Drain, ExecOp, Removed;
    var w1, n := Deliver(w, c, now), w.db.nextOp;
    QueueOne(w, id, DeleteLocal(true), now);
    OnlyOne(w1, n, id, DeleteLocal(true), a, clock);
    TombstoneRuns(w1, n, id, a, clock);
    TreeParent(w.disk, w.db.items[id].path);
    RemoveFile(w.disk, w.db.items[id].path);
    DeliverKeepsInv(w, c, now);
    ExecKeepsInv(w1, n, a, clock);
  }

  // The watcher reports the removal; the tombstone absorbs it.
  lemma EchoIsAbsorbed(w: World, id: nat, now: int)
    requires Valid(w.db) && id in w.db.items && w.db.items[id].trashedAt.Some?
    ensures var v := AfterEcho(w, w.db.items[id].path, now);
      v == w.(db := DropConflicts(w.db, w.db.items[id].path))
  {
    hide Run;
    RunOne(w, CloseConflicts(w.db.items[id].path));
  }

  // It is absorbed only because the tombstone is set: the same event, consumed before the tombstone is
  // written or after a restore has cleared it, deletes the file on Drive.
  lemma EchoDeletesIff(w: World, id: nat, now: int)
    requires Inv(w.db) && id in w.db.items && w.db.items[id].remoteId.Some?
    ensures var v := Run(w, LocalActs(w, Deleted(w.db.items[id].path), [], now));
      (exists o :: o in v.db.ops && o >= w.db.nextOp && v.db.ops[o].op.DeleteRemote?) <==>
          w.db.items[id].trashedAt.None?
  {
    hide Run, Inv;
    InvIsValid(w.db);
    var path := w.db.items[id].path;
    RunTwo(w, CloseConflicts(path), Queue(id, DeleteRemote, now));
    RunOne(w, CloseConflicts(path));
    assert FindPath(w.db, path) == Some(id);
    if w.db.items[id].trashedAt.None? {
      assert w.db.nextOp in Step(Step(w, CloseConflicts(path)), Queue(id, DeleteRemote, now)).db.ops;
    }
  }

  lemma RestoreQueues(w: World, id: nat, rid: string, c: Change, now: int)
    requires Inv(w.db) && w.db.ops == map[] && rid !in w.inFlight && FindRemote(w.db, rid) == Some(id)
    requires w.db.items[id].trashedAt.Some? && RestoreReport(c, rid, w.db.items[id].path)
    ensures var v := Deliver(w, c, now);
      && v.disk == w.disk && v.drive == w.drive && v.db.conflicts == w.db.conflicts
      && v.db.items == w.db.items[id := w.db.items[id].(trashedAt := None)]
      && Queued(v.db, w.db.nextOp, [(id, PullOf(c.file.value, w.db.items[id].path))])
  {
    hide Run, Inv, FindRemote;
    var op := PullOf(c.file.value, w.db.items[id].path);
    RunTwo(w, Tombstone(id, None), Queue(id, op, now));
    QueueAny(Step(w, Tombstone(id, None)), id, op, now);
  }

  lemma PullCompletes(w: World, o: nat, id: nat, f: Snapshot, path: string, a: Answers, clock: nat -> int)
    requires f.md5.Some? && Holds(w.db, o, id, PullOf(f, path))
    requires a.reply.Accepted? && f.id in w.drive && w.db.items[id].remoteId == Some(f.id)
    requires path !in w.disk && (ParentDir(path) == "" || IsDir(w.disk, ParentDir(path)))
    ensures var v, bytes := ExecOp(w, o, a, clock), w.drive[f.id].bytes;
      && v.disk == w.disk[path := FileNode(bytes)] && v.drive == w.drive && v.db.ops == w.db.ops - {o}
      && v.db.items == w.db.items[id := w.db.items[id].(size := Some(|bytes|), md5 := Some(Md5(bytes)),
          syncedAt := clock(o))]
  {
    hide Run, ParentDir, MkdirOk, MkdirAll, DownloadActs;
    var bytes := w.drive[f.id].bytes;
    MkdirIdle(w.disk, ParentDir(path));
    DownloadRuns(w, id, path, bytes, clock(o));
    assert DownloadActs(id, path, bytes, clock(o)) + [] == DownloadActs(id, path, bytes, clock(o));
    RunOne(w.(disk := w.disk[path := FileNode(bytes)],
        db := SetFingerprint(w.db, id, |bytes|, Md5(bytes), clock(o))), FinishOperation(o));
  }

  // The first half: the copy is gone, the tombstone is written and has absorbed the echo.
  lemma TrashIsEchoed(w: World, id: nat, rid: string, c: Change, t1: int, t2: int, a: Answers, clock: nat -> int)
    requires Tracked(w, id, rid) && TrashReport(c, rid) && w.db.items[id].trashedAt.None?
    ensures var path := w.db.items[id].path;
      var e := AfterEcho(AfterTrash(w, c, t1, a, clock), path, t2);
      && Inv(e.db) && e.db.ops == map[] && FindRemote(e.db, rid) == Some(id)
      && e.db.items == w.db.items[id := w.db.items[id].(trashedAt := Some(clock(w.db.nextOp)))]
      && e.disk == w.disk - {path} && e.drive == w.drive && e.inFlight == w.inFlight
      && NoRemoteDelete(Deliver(w, c, t1).db)
  {
    hide Run, Inv, Tree, Drain, Deliver, AfterTrash, AfterEcho, DropConflicts, FindRemote, NoRemoteDelete;
    var path := w.db.items[id].path;
    TrashLeavesTombstone(w, id, rid, c, t1, a, clock);
    var trashed := AfterTrash(w, c, t1, a, clock);
    InvIsValid(trashed.db);
    EchoIsAbsorbed(trashed, id, t2);
    EchoKeepsTables(trashed, path);
    SameRemotes(w, AfterEcho(trashed, path, t2), rid);
  }

  // The second half: the tombstone is cleared and the file fetched again.
  lemma TombstoneIsRestored(e: World, id: nat, rid: string, c: Change, now: int, a: Answers, clock: nat -> int)
    requires Inv(e.db) && e.db.ops == map[] && rid !in e.inFlight && FindRemote(e.db, rid) == Some(id)
    requires e.db.items[id].trashedAt.Some? && RestoreReport(c, rid, e.db.items[id].path)
    requires var path := e.db.items[id].path;
      path !in e.disk && (ParentDir(path) == "" || IsDir(e.disk, ParentDir(path)))
    requires a.reply.Accepted? && rid in e.drive
    ensures var path, bytes := e.db.items[id].path, e.drive[rid].bytes;
      var requested := Deliver(e, c, now);
      var v := Drain(requested, a, clock);
      && NoRemoteDelete(requested.db) && v.db.ops == map[]
      && v.disk == e.disk[path := FileNode(bytes)] && v.drive == e.drive
      && v.db.items == e.db.items[id := e.db.items[id].(trashedAt := None, size := Some(|bytes|),
                                                        md5 := Some(Md5(bytes)), syncedAt := clock(e.db.nextOp))]
  {
    hide Run, Inv, Drain, ExecOp, Deliver, ParentDir, FindRemote;
    var path := e.db.items[id].path;
    var op := PullOf(c.file.value, path);
    RestoreQueues(e, id, rid, c, now);
    var requested := Deliver(e, c, now);
    OnlyOne(requested, e.db.nextOp, id, op, a, clock);
    PullCompletes(requested, e.db.nextOp, id, c.file.value, path, a, clock);
  }

  // The whole round trip: the same row under the same path and Drive id, no tombstone, the local
  // bytes those of Drive, no other row or file touched, and never a delete queued for Drive.
  lemma TrashThenRestore(w: World, id: nat, rid: string, c1: Change, t1: int, t2: int, c2: Change, t3: int,
                         a: Answers, clock1: nat -> int, clock2: nat -> int)
    requires Tracked(w, id, rid) && TrashReport(c1, rid) && w.db.items[id].trashedAt.None?
    requires RestoreReport(c2, rid, w.db.items[id].path) && a.reply.Accepted? && rid in w.drive
    ensures var path, bytes := w.db.items[id].path, w.drive[rid].bytes;
      var trashed := AfterTrash(w, c1, t1, a, clock1);
      var echoed := AfterEcho(trashed, path, t2);
      var requested := Deliver(echoed, c2, t3);
      var v := Drain(requested, a, clock2);
      && NoRemoteDelete(Deliver(w, c1, t1).db) && NoRemoteDelete(echoed.db) && NoRemoteDelete(requested.db)
      && v.db.ops == map[]
      && v.disk == w.disk[path := FileNode(bytes)] && v.drive == w.drive
      && v.db.items == w.db.items[id := w.db.items[id].(size := Some(|bytes|), md5 := Some(Md5(bytes)),
                                                        syncedAt := clock2(echoed.db.nextOp))]
  {
    hide Run, Inv, Tree, Drain, Deliver, AfterTrash, AfterEcho, ParentDir, FindRemote;
    var path := w.db.items[id].path;
    TrashIsEchoed(w, id, rid, c1, t1, t2, a, clock1);
    ParentsSurvive(w.disk, path);
    TombstoneIsRestored(AfterEcho(AfterTrash(w, c1, t1, a, clock1), path, t2), id, rid, c2, t3, a, clock2);
    FileIsBack(w.disk, path, FileNode(w.drive[rid].bytes));
  }

  lemma EchoKeepsTables(w: World, path: string)
    requires Inv(w.db)
    ensures var db := DropConflicts(w.db, path);
      Inv(db) && db.items == w.db.items && db.ops == w.db.ops && db.nextOp == w.db.nextOp
  {
  }

  lemma ParentsSurvive(d: Disk, path: string)
    requires Tree(d) && path in d
    ensures ParentDir(path) == "" || IsDir(d - {path}, ParentDir(path))
  {
  }

  // ---- trash and restore both reported before the drain ----------------------------------

  // The removal is still queued; one download may be queued behind it.
  ghost predicate RemovalPending(w: World, u: World, id: nat, n: nat, pull: Operation) {
    && u.db.items == w.db.items && u.drive == w.drive && id in w.db.items && !IsDir(u.disk, w.db.items[id].path)
    && Holds(u.db, n, id, DeleteLocal(true)) && n < u.db.nextOp <= n + 2
    && forall o :: o in u.db.ops && o != n ==> o == n + 1 && Holds(u.db, o, id, pull)
  }

  lemma RemovalWaits(w: World, id: nat, rid: string, c: Change, now: int, pull: Operation)
    requires Tracked(w, id, rid) && TrashReport(c, rid) && w.db.items[id].trashedAt.None?
    ensures var u := Deliver(w, c, now);
      && RemovalPending(w, u, id, w.db.nextOp, pull) && u.disk == w.disk && u.inFlight == w.inFlight
      && u.db.nextOp == w.db.nextOp + 1
  {
    hide Run, Inv, Tree, FindRemote;
    QueueOne(w, id, DeleteLocal(true), now);
    assert [(id, DeleteLocal(true))][0] == (id, DeleteLocal(true));
  }

  // The local copy is not the recorded one.
  predicate Edited(w: World, id: nat)
    requires id in w.db.items && IsFile(w.disk, w.db.items[id].path)
  {
    w.db.items[id].md5.Some? && Md5(w.disk[w.db.items[id].path].bytes) != w.db.items[id].md5.value
  }

  // The restore reports new bytes, the local copy is not those already, and if it was edited there is
  // room to move it aside.
  ghost predicate Fetches(w: World, id: nat, f: Snapshot, now: int)
    requires id in w.db.items && IsFile(w.disk, w.db.items[id].path) && f.md5.Some?
  {
    var row := w.db.items[id];
    && IsNews(row, f) && (row.md5.Some? ==> Md5(w.disk[row.path].bytes) != f.md5.value)
    && (Edited(w, id) ==> !IsDir(w.disk, ConflictPath(row.path, now)))
  }

  // The disk with an edited copy saved.
  ghost function Kept(w: World, id: nat, now: int): Disk
    requires id in w.db.items && IsFile(w.disk, w.db.items[id].path)
  {
    var path := w.db.items[id].path;
    if Edited(w, id) then w.disk[ConflictPath(path, now) := w.disk[path]] else w.disk
  }

  // Before the drain the row still looks synced: the restore is no news, or an edit.
  lemma EarlyRestoreActs(u: World, id: nat, rid: string, c: Change, now: int)
    requires rid !in u.inFlight && FindRemote(u.db, rid) == Some(id) && u.db.items[id].trashedAt.None?
    requires RestoreReport(c, rid, u.db.items[id].path)
    ensures var path := u.db.items[id].path;
      var pull, aside := Queue(id, PullOf(c.file.value, path), now), ConflictPath(path, now);
      var acts := RemoteActs(u, c, now);
      || acts == None || acts == Some([]) || acts == Some([pull])
      || (IsFile(u.disk, path) && !IsDir(u.disk, aside)
          && acts == Some([MoveLocal(path, aside), OpenConflict(id, path, aside, now), pull]))
    ensures var path := u.db.items[id].path;
      IsFile(u.disk, path) ==>
        var pull, aside := Queue(id, PullOf(c.file.value, path), now), ConflictPath(path, now);
        var acts := RemoteActs(u, c, now);
        if !Fetches(u, id, c.file.value, now) then acts == None || acts == Some([])
        else if Edited(u, id) then acts == Some([MoveLocal(path, aside), OpenConflict(id, path, aside, now), pull])
        else acts == Some([pull])
  {
    hide FindRemote, FindPath, ConflictPath, MovedFileActs;
  }

  lemma PullPends(w: World, u: World, id: nat, n: nat, pull: Operation, now: int)
    requires RemovalPending(w, u, id, n, pull) && u.db.nextOp == n + 1
    ensures RemovalPending(w, Step(u, Queue(id, pull, now)), id, n, pull)
  {
  }

  // Moving the copy aside leaves nothing at the path the removal could stumble over.
  lemma AsidePends(w: World, u: World, id: nat, n: nat, pull: Operation, now: int)
    requires RemovalPending(w, u, id, n, pull) && Tree(u.disk)
    requires var path := w.db.items[id].path;
      WellNamed(path) && IsFile(u.disk, path) && !IsDir(u.disk, ConflictPath(path, now))
    ensures var path := w.db.items[id].path;
      var u' := Step(Step(u, MoveLocal(path, ConflictPath(path, now))),
          OpenConflict(id, path, ConflictPath(path, now), now));
      RemovalPending(w, u', id, n, pull) && u'.db.nextOp == u.db.nextOp
  {
    hide Tree, MoveTree, ConflictPath, WellNamed;
    AsideDisk(u.disk, w.db.items[id].path, now);
  }

  lemma EarlyRestorePends(w: World, u: World, id: nat, rid: string, c: Change, now: int, n: nat)
    requires rid !in u.inFlight && FindRemote(w.db, rid) == Some(id) && w.db.items[id].trashedAt.None?
    requires RestoreReport(c, rid, w.db.items[id].path) && WellNamed(w.db.items[id].path) && Tree(u.disk)
    requires RemovalPending(w, u, id, n, PullOf(c.file.value, w.db.items[id].path)) && u.db.nextOp == n + 1
    ensures RemovalPending(w, Deliver(u, c, now), id, n, PullOf(c.file.value, w.db.items[id].path))
  {
    var path := w.db.items[id].path;
    var pull, aside := PullOf(c.file.value, path), ConflictPath(path, now);
    assert FindRemote(u.db, rid) == Some(id) by { SameFinds(w.db, u.db); }
    hide Run, Step, Tree, FindRemote, RemoteActs, ConflictPath, WellNamed;
    EarlyRestoreActs(u, id, rid, c, now);
    var acts := RemoteActs(u, c, now);
    RunShort(u);
    PullPends(w, u, id, n, pull, now);
    if acts == Some([MoveLocal(path, aside), OpenConflict(id, path, aside, now), Queue(id, pull, now)]) &&
        acts.value[0].MoveLocal? {
      AsidePends(w, u, id, n, pull, now);
      PullPends(w, Step(Step(u, MoveLocal(path, aside)), OpenConflict(id, path, aside, now)), id, n, pull, now);
    }
  }

  lemma RemovalRuns(w: World, u: World, id: nat, n: nat, pull: Operation, a: Answers, clock: nat -> int)
    requires RemovalPending(w, u, id, n, pull) && w.db.items[id].kind.File?
    ensures var v, path := ExecOp(u, n, a, clock), w.db.items[id].path;
      && v.db.items == w.db.items[id := w.db.items[id].(trashedAt := Some(clock(n)))]
      && v.db.ops == u.db.ops - {n} && v.db.nextOp == u.db.nextOp
      && v.disk == Removed(u.disk, path) && v.drive == u.drive
  {
    hide ExecOp, Removed;
    TombstoneRuns(u, n, id, a, clock);
  }

  // A download writes the file and its fingerprint; it does not look at the tombstone.
  lemma {:induction false} FetchKeepsTombstone(w: World, acts: seq<Act>, id: nat)
    requires id in w.db.items
    requires forall act :: act in acts ==>
      act.MakeDirs? || act.WriteFile? || act.Fingerprint? || act.LinkRemote? || act.FinishOperation? || act.Reschedule?
    ensures var v := Run(w, acts); id in v.db.items && v.db.items[id].trashedAt == w.db.items[id].trashedAt
    decreases |acts|
  {
    hide MkdirAll;
    if acts != [] {
      assert acts[0] in acts;
      FetchKeepsTombstone(Step(w, acts[0]), acts[1..], id);
    }
  }

  lemma DownloadKeepsTombstone(w: World, o: nat, id: nat, pull: Operation, a: Answers, clock: nat -> int)
    requires id in w.db.items && pull.Download? && (o in w.db.ops ==> Holds(w.db, o, id, pull))
    ensures var v := ExecOp(w, o, a, clock); id in v.db.items && v.db.items[id].trashedAt == w.db.items[id].trashedAt
  {
    hide Run, MkdirAll, MkdirOk, ParentDir;
    if o in w.db.ops {
      var e := ExecEffect(w, id, pull, a, clock(o));
      FetchKeepsTombstone(w, e.acts, id);
      FetchKeepsTombstone(Run(w, e.acts), [if e.ok then FinishOperation(o) else Reschedule(o, a.retryAt(o))], id);
    }
  }

  lemma DrainLeavesTombstone(w: World, u: World, id: nat, n: nat, pull: Operation, a: Answers, clock: nat -> int)
    requires RemovalPending(w, u, id, n, pull) && w.db.items[id].kind.File? && pull.Download?
    ensures var v := Drain(u, a, clock); id in v.db.items && v.db.items[id].trashedAt.Some?
    ensures Drain(u, a, clock) == if u.db.nextOp == n + 1 then ExecOp(u, n, a, clock)
      else ExecOp(ExecOp(u, n, a, clock), n + 1, a, clock)
  {
    hide ExecOp, Drain;
    ShortDrain(u, n, a, clock);
    RemovalRuns(w, u, id, n, pull, a, clock);
    if u.db.nextOp == n + 2 {
      DownloadKeepsTombstone(ExecOp(u, n, a, clock), n + 1, id, pull, a, clock);
    }
  }

  // Whatever the restore reports, if it comes before the drain the row ends as a tombstone.
  lemma RestoredTooEarlyIsLost(w: World, id: nat, rid: string, c1: Change, t1: int, c2: Change, t2: int, a: Answers,
          clock: nat -> int)
    requires Tracked(w, id, rid) && TrashReport(c1, rid) && w.db.items[id].trashedAt.None?
    requires RestoreReport(c2, rid, w.db.items[id].path) && WellNamed(w.db.items[id].path)
    ensures var v := Drain(Deliver(Deliver(w, c1, t1), c2, t2), a, clock);
      id in v.db.items && v.db.items[id].trashedAt.Some?
  {
    hide Deliver, Drain, Tree, WellNamed, RemovalPending, FindRemote, Inv;
    var u, n := Deliver(w, c1, t1), w.db.nextOp;
    var pull := PullOf(c2.file.value, w.db.items[id].path);
    RemovalWaits(w, id, rid, c1, t1, pull);
    EarlyRestorePends(w, u, id, rid, c2, t2, n);
    DrainLeavesTombstone(w, Deliver(u, c2, t2), id, n, pull, a, clock);
  }

  // If the restore fetches nothing the local copy is gone as well, edited or not ...
  lemma OldBytesAreGone(w: World, id: nat, rid: string, c1: Change, t1: int, c2: Change, t2: int, a: Answers,
          clock: nat -> int)
    requires Tracked(w, id, rid) && TrashReport(c1, rid) && w.db.items[id].trashedAt.None?
    requires RestoreReport(c2, rid, w.db.items[id].path) && !Fetches(w, id, c2.file.value, t2)
    ensures var v := Drain(Deliver(Deliver(w, c1, t1), c2, t2), a, clock);
      && v.disk == w.disk - {w.db.items[id].path} && v.db.ops == map[]
      && v.db.items == w.db.items[id := w.db.items[id].(trashedAt := Some(clock(w.db.nextOp)))]
  {
    hide Run, Inv, Tree, FindRemote, Drain, ExecOp, FindPath, AfterTrash, RemoteActs, ConflictPath;
    var w1 := Deliver(w, c1, t1);
    RemovalWaits(w, id, rid, c1, t1, MarkConflict);
    SameRemotes(w, w1, rid);
    EarlyRestoreActs(w1, id, rid, c2, t2);
    RunShort(w1);
    TrashLeavesTombstone(w, id, rid, c1, t1, a, clock);
    assert AfterTrash(w, c1, t1, a, clock) == Drain(w1, a, clock) by { TrashIsDrain(w, c1, t1, a, clock); }
  }

  lemma TrashIsDrain(w: World, c: Change, now: int, a: Answers, clock: nat -> int)
    ensures AfterTrash(w, c, now, a, clock) == Drain(Deliver(w, c, now), a, clock)
  {
  }

  // ... and if it does the download brings the file back, an edited copy beside it, under a row that
  // stays a tombstone: its later deletion is swallowed, and the sweep forgets the file altogether.
  lemma NewBytesAreForgotten(w: World, id: nat, rid: string, c1: Change, t1: int, c2: Change, t2: int, a: Answers,
                             clock: nat -> int, later: int, cutoff: int)
    requires Tracked(w, id, rid) && TrashReport(c1, rid) && w.db.items[id].trashedAt.None?
    requires RestoreReport(c2, rid, w.db.items[id].path) && WellNamed(w.db.items[id].path)
    requires Fetches(w, id, c2.file.value, t2)
    requires a.reply.Accepted? && rid in w.drive && cutoff > clock(w.db.nextOp)
    ensures var v, path := Drain(Deliver(Deliver(w, c1, t1), c2, t2), a, clock), w.db.items[id].path;
      && v.disk == Kept(w, id, t2)[path := FileNode(w.drive[rid].bytes)]
      && id in v.db.items && v.db.items[id].path == path && v.db.items[id].trashedAt == Some(clock(w.db.nextOp))
      && LocalActs(v, Deleted(path), [], later) == [CloseConflicts(path)]
      && id !in GcTombstones(v.db, cutoff).items
  {
    hide Inv, Tree, FindRemote, ExecOp, Drain, Deliver, RemoteActs, LocalActs, GcTombstones, Fetches, Kept, WellNamed;
    var n, path := w.db.nextOp, w.db.items[id].path;
    var x := Deliver(Deliver(w, c1, t1), c2, t2);
    LatePull(w, id, rid, c1, t1, c2, t2);
    BothRun(w, x, Kept(w, id, t2), id, rid, n, c2.file.value, a, clock);
    assert Inv(w.db);
    InvIsValid(w.db);
    Swallowed(w.db, Drain(x, a, clock), id, clock(n), later, cutoff);
  }

  // Everything is as in `kept`, but for the path, where the copy may have gone.
  ghost predicate Apart(d: Disk, kept: Disk, path: string) {
    && Tree(d) && !IsDir(d, path) && path != "" && (ParentDir(path) == "" || IsDir(d, ParentDir(path)))
    && d - {path} == kept - {path}
  }

  // Once the removal has run, only the download is left.
  lemma PullIsLeft(w: World, x: World, kept: Disk, id: nat, n: nat, pull: Operation, a: Answers, clock: nat -> int)
    requires id in w.db.items && w.db.items[id].kind.File? && Apart(x.disk, kept, w.db.items[id].path)
    requires RemovalPending(w, x, id, n, pull) && Holds(x.db, n + 1, id, pull)
    ensures var mid, path := ExecOp(x, n, a, clock), w.db.items[id].path;
      && mid.disk == kept - {path} && mid.drive == w.drive && Holds(mid.db, n + 1, id, pull)
      && mid.db.items == w.db.items[id := w.db.items[id].(trashedAt := Some(clock(n)))]
      && (ParentDir(path) == "" || IsDir(mid.disk, ParentDir(path)))
  {
    hide Tree, ExecOp, Removed;
    var path := w.db.items[id].path;
    RemovalRuns(w, x, id, n, pull, a, clock);
    RemoveFile(x.disk, path);
    assert ParentDir(path) != path;
  }

  // Removal and download, one after the other.
  lemma BothRun(w: World, x: World, kept: Disk, id: nat, rid: string, n: nat, f: Snapshot, a: Answers,
                clock: nat -> int)
    requires id in w.db.items && w.db.items[id].kind.File? && Apart(x.disk, kept, w.db.items[id].path)
    requires f.md5.Some? && f.id == rid && w.db.items[id].remoteId == Some(rid) && a.reply.Accepted? && rid in w.drive
    requires var pull := PullOf(f, w.db.items[id].path);
      RemovalPending(w, x, id, n, pull) && x.db.nextOp == n + 2 && Holds(x.db, n + 1, id, pull)
    ensures var v, path := Drain(x, a, clock), w.db.items[id].path;
      && v.disk == kept[path := FileNode(w.drive[rid].bytes)] && v.db.items.Keys == w.db.items.Keys
      && (forall j :: j in w.db.items ==> v.db.items[j].path == w.db.items[j].path)
      && v.db.items[id].trashedAt == Some(clock(n))
  {
    var path := w.db.items[id].path;
    var pull, mid := PullOf(f, path), ExecOp(x, n, a, clock);
    assert pull.Download?;
    hide *;
    PullIsLeft(w, x, kept, id, n, pull, a, clock);
    DrainLeavesTombstone(w, x, id, n, pull, a, clock);
    assert path !in mid.disk && mid.db.items[id].remoteId == Some(rid);
    PullCompletes(mid, n + 1, id, f, path, a, clock);
    FileIsBack(kept, path, FileNode(w.drive[rid].bytes));
    TombstoneStays(w.db.items, mid.db.items, Drain(x, a, clock).db.items, id, clock(n), w.drive[rid].bytes,
        clock(n + 1));
  }

  lemma FileIsBack(d: Disk, path: string, node: Node)
    ensures (d - {path})[path := node] == d[path := node]
  {
  }

  lemma TombstoneStays(items: map<nat, Row>, mid: map<nat, Row>, last: map<nat, Row>, id: nat, at: int, bytes: Bytes,
          now: int)
    requires id in items && mid == items[id := items[id].(trashedAt := Some(at))]
    requires last == mid[id := mid[id].(size := Some(|bytes|), md5 := Some(Md5(bytes)), syncedAt := now)]
    ensures last.Keys == items.Keys && (forall j :: j in items ==> last[j].path == items[j].path)
    ensures last[id].trashedAt == Some(at)
  {
  }

  lemma Swallowed(db: Db, v: World, id: nat, at: int, later: int, cutoff: int)
    requires Valid(db) && id in db.items && v.db.items.Keys == db.items.Keys && at < cutoff
    requires forall j :: j in db.items ==> v.db.items[j].path == db.items[j].path
    requires v.db.items[id].trashedAt == Some(at)
    ensures LocalActs(v, Deleted(db.items[id].path), [], later) == [CloseConflicts(db.items[id].path)]
    ensures id !in GcTombstones(v.db, cutoff).items
  {
    OneRowAt(db, v.db, id);
  }

  lemma CopyStays(d: Disk, path: string)
    requires Tree(d) && IsFile(d, path)
    ensures Apart(d, d, path)
  {
    TreeParent(d, path);
    hide Tree, ParentDir;
  }

  lemma CopyMovesAside(d: Disk, path: string, now: int)
    requires Tree(d) && IsFile(d, path) && WellNamed(path) && !IsDir(d, ConflictPath(path, now))
    ensures Apart(MoveTree(d, path, ConflictPath(path, now)), d[ConflictPath(path, now) := d[path]], path)
  {
    hide Tree, MoveTree, ConflictPath, ParentDir, WellNamed;
    var aside, up := ConflictPath(path, now), ParentDir(path);
    var e, kept := MoveTree(d, path, aside), d[aside := d[path]];
    TreeParent(d, path);
    AsideDisk(d, path, now);
    NotItsParent(path);
    assert up != "" ==> At(e, up) == At(d, up);
    SameBut(e, kept, path);
  }

  lemma NotItsParent(path: string)
    requires path != ""
    ensures ParentDir(path) != path
  {
  }

  lemma SameBut(d: Disk, e: Disk, path: string)
    requires forall q :: q != path ==> At(d, q) == At(e, q)
    ensures d - {path} == e - {path}
  {
    forall q | q in d - {path} ensures q in e && d[q] == e[q] { assert At(d, q) == At(e, q); }
    forall q | q in e - {path} ensures q in d { assert At(d, q) == At(e, q); }
  }

  lemma LatePull(w: World, id: nat, rid: string, c1: Change, t1: int, c2: Change, t2: int)
    requires Tracked(w, id, rid) && TrashReport(c1, rid) && w.db.items[id].trashedAt.None?
    requires RestoreReport(c2, rid, w.db.items[id].path) && WellNamed(w.db.items[id].path)
    requires Fetches(w, id, c2.file.value, t2)
    ensures var x, n, path := Deliver(Deliver(w, c1, t1), c2, t2), w.db.nextOp, w.db.items[id].path;
      var pull := PullOf(c2.file.value, path);
      && RemovalPending(w, x, id, n, pull) && x.db.nextOp == n + 2 && Holds(x.db, n + 1, id, pull)
      && Apart(x.disk, Kept(w, id, t2), path)
  {
    hide Run, Inv, Tree, FindRemote, RemoteActs, ConflictPath, WellNamed, MoveTree, ParentDir, Apart, Step;
    var u, n, path := Deliver(w, c1, t1), w.db.nextOp, w.db.items[id].path;
    var pull, aside := PullOf(c2.file.value, path), ConflictPath(path, t2);
    RemovalWaits(w, id, rid, c1, t1, pull);
    SameRemotes(w, u, rid);
    EarlyRestoreActs(u, id, rid, c2, t2);
    RunShort(u);
    if Edited(w, id) {
      CopyMovesAside(w.disk, path, t2);
      AsidePends(w, u, id, n, pull, t2);
      LastQueued(w, Step(Step(u, MoveLocal(path, aside)), OpenConflict(id, path, aside, t2)), id, n, pull, t2);
      OnlyMoved(u, id, path, aside, t2);
    } else {
      CopyStays(w.disk, path);
      LastQueued(w, u, id, n, pull, t2);
    }
  }

  lemma LastQueued(w: World, u: World, id: nat, n: nat, pull: Operation, now: int)
    requires RemovalPending(w, u, id, n, pull) && u.db.nextOp == n + 1
    ensures var x := Step(u, Queue(id, pull, now));
      RemovalPending(w, x, id, n, pull) && x.db.nextOp == n + 2 && Holds(x.db, n + 1, id, pull) && x.disk == u.disk
  {
    PullPends(w, u, id, n, pull, now);
  }

  lemma OnlyMoved(u: World, id: nat, path: string, aside: string, now: int)
    ensures Step(Step(u, MoveLocal(path, aside)), OpenConflict(id, path, aside, now)).disk ==
        MoveTree(u.disk, path, aside)
  {
    hide MoveTree;
  }

  lemma OneRowAt(db: Db, after: Db, id: nat)
    requires Valid(db) && id in db.items && id in after.items && after.items.Keys == db.items.Keys
    requires forall j :: j in db.items ==> after.items[j].path == db.items[j].path
    ensures FindPath(after, db.items[id].path) == Some(id)
  {
  }
}
