// What the tables keep over every run, whatever the interleaving of the tasks and wherever a
// crash cuts one off.
module Invariants {
  import opened Paths
  import opened Tables
  import opened RenameSubtree
  import opened Disk
  import opened World
  import opened Continuous
  import opened Runtime
  import opened Timestamps

  // A tombstone is a file row that can be re-linked, and a skipped row names something on Drive.
  ghost predicate SoundRow(row: Row) {
    && (row.trashedAt.Some? ==> row.kind.File? && row.remoteId.Some?)
    && (row.state.Skipped? ==> row.remoteId.Some?)
  }

  ghost predicate Inv(db: Db) {
    && Valid(db)
    && (forall i :: i in db.items ==> SoundRow(db.items[i]))
    && (forall o :: o in db.ops && db.ops[o].op.DeleteLocal? ==> db.items[db.ops[o].item].remoteId.Some?)
  }

  ghost predicate Linked(db: Db, id: nat) {
    id < db.nextItem && (id in db.items ==> db.items[id].remoteId.Some?)
  }

  ghost predicate LinkedFile(db: Db, id: nat) {
    Linked(db, id) && (id in db.items ==> db.items[id].kind.File?)
  }

  // What a task must have seen before it issues a write.
  ghost predicate Licensed(db: Db, a: Act) {
    match a
    case InsertItem(row) => SoundRow(row) && row.trashedAt.None?
    case Lifecycle(id, state) => state.Skipped? ==> Linked(db, id)
    case Tombstone(id, since) => since.Some? ==> LinkedFile(db, id)
    case Queue(id, op, _) => op.DeleteLocal? ==> Linked(db, id)
    case _ => true
  }

  // Rows keep their kind and never lose their Drive id; keys are never reused.
  ghost predicate Later(db: Db, after: Db) {
    && db.nextItem <= after.nextItem
    && (forall i :: i in after.items && i < db.nextItem ==>
          i in db.items && after.items[i].kind == db.items[i].kind
          && (db.items[i].remoteId.Some? ==> after.items[i].remoteId.Some?))
  }

  lemma DropKeepsInv(db: Db, ids: set<nat>)
    requires Inv(db)
    ensures Inv(DropRows(db, ids)) && Later(db, DropRows(db, ids))
  {
  }

  lemma PutKeepsInv(db: Db, id: nat, row: Row)
    requires Inv(db) && id in db.items && SoundRow(row)
    requires row.kind == db.items[id].kind && (db.items[id].remoteId.Some? ==> row.remoteId.Some?)
    requires forall j :: j in db.items && j != id ==> db.items[j].path != row.path
    ensures Inv(PutRow(db, id, row)) && Later(db, PutRow(db, id, row))
  {
  }

  lemma RenameOneIsLater(db: Db, src: string, dst: string, id: nat)
    requires Inv(db)
    ensures Later(db, RenameOne(db, src, dst, id)) && Inv(RenameOne(db, src, dst, id))
  {
    hide Inv, Later, Selected, DropRows, PutRow;
    if Affected(db, src, id) {
      var target := Target(db, src, dst, id);
      if Taken(db, target, id) {
        DropKeepsInv(db, {id});
      } else {
        InvRow(db, id);
        PutKeepsInv(db, id, db.items[id].(path := target));
      }
    } else {
      LaterSelf(db);
    }
  }

  lemma InvIsValid(db: Db)
    requires Inv(db)
    ensures Valid(db)
  {
  }

  lemma InvRow(db: Db, id: nat)
    requires Inv(db) && id in db.items
    ensures SoundRow(db.items[id]) && id < db.nextItem
    ensures forall j :: j in db.items && j != id ==> db.items[j].path != db.items[id].path
  {
  }

  lemma SetPathKeepsInv(db: Db, id: nat, p: string)
    requires Inv(db)
    ensures Inv(SetPath(db, id, p)) && Later(db, SetPath(db, id, p))
  {
    hide Inv, Later, PutRow;
    if id in db.items {
      var others := set j | j in db.items && j != id && db.items[j].path == p;
      var cleared := DropRows(db, others);
      DropKeepsInv(db, others);
      InvRow(db, id);
      PutKeepsInv(cleared, id, db.items[id].(path := p));
      LaterTransitive(db, cleared, SetPath(db, id, p));
    } else {
      LaterSelf(db);
    }
  }

  lemma InsertKeepsInv(db: Db, row: Row)
    requires Inv(db) && SoundRow(row)
    ensures Inv(InsertRow(db, row)) && Later(db, InsertRow(db, row))
  {
  }

  lemma QueueKeepsInv(db: Db, id: nat, op: Operation, at: int)
    requires Inv(db) && (op.DeleteLocal? ==> Linked(db, id))
    ensures Inv(Enqueue(db, id, op, at)) && Later(db, Enqueue(db, id, op, at))
  {
  }

  // Rows stay as they are; nothing is queued that was not there.
  lemma SameRowsKeepInv(db: Db, after: Db)
    requires Inv(db) && after.items == db.items && after.nextItem == db.nextItem
    requires after.nextOp >= db.nextOp && after.nextConflict >= db.nextConflict
    requires forall o :: o in after.ops ==>
        o in db.ops && after.ops[o].item == db.ops[o].item && after.ops[o].op == db.ops[o].op
    requires forall c :: c in after.conflicts ==> after.conflicts[c].item in db.items && c < after.nextConflict
    ensures Inv(after) && Later(db, after)
  {
    hide SoundRow;
  }

  lemma OpenKeepsInv(db: Db, id: nat, original: string, conflict: string, at: int)
    requires Inv(db)
    ensures Inv(AddConflict(db, id, original, conflict, at)) && Later(db, AddConflict(db, id, original, conflict, at))
  {
    ConflictsRefer(db);
    hide Inv, Later;
    SameRowsKeepInv(db, AddConflict(db, id, original, conflict, at));
  }

  lemma CloseKeepsInv(db: Db, path: string)
    requires Inv(db)
    ensures Inv(DropConflicts(db, path)) && Later(db, DropConflicts(db, path))
  {
    ConflictsRefer(db);
    hide Inv, Later;
    SameRowsKeepInv(db, DropConflicts(db, path));
  }

  lemma FinishOpKeepsInv(db: Db, o: nat)
    requires Inv(db)
    ensures Inv(FinishOp(db, o)) && Later(db, FinishOp(db, o))
  {
    ConflictsRefer(db);
    hide Inv, Later;
    SameRowsKeepInv(db, FinishOp(db, o));
  }

  lemma RescheduleKeepsInv(db: Db, o: nat, next: int)
    requires Inv(db)
    ensures Inv(MarkAttempt(db, o, next)) && Later(db, MarkAttempt(db, o, next))
  {
    ConflictsRefer(db);
    hide Inv, Later;
    SameRowsKeepInv(db, MarkAttempt(db, o, next));
  }

  lemma ConflictsRefer(db: Db)
    requires Inv(db)
    ensures forall c :: c in db.conflicts ==> db.conflicts[c].item in db.items && c < db.nextConflict
  {
  }

  lemma LaterTransitive(a: Db, b: Db, c: Db)
    requires Later(a, b) && Later(b, c)
    ensures Later(a, c)
  {
  }

  lemma {:induction false} RenameLoopIsLater(db: Db, src: string, dst: string, order: seq<nat>)
    requires Inv(db)
    ensures Later(db, RenameLoop(db, src, dst, order)) && Inv(RenameLoop(db, src, dst, order))
    decreases |order|
  {
    hide RenameOne, Inv, Later;
    if order == [] {
      LaterSelf(db);
    } else {
      var one := RenameOne(db, src, dst, order[0]);
      RenameOneIsLater(db, src, dst, order[0]);
      RenameLoopIsLater(one, src, dst, order[1..]);
      LaterTransitive(db, one, RenameLoop(one, src, dst, order[1..]));
    }
  }

  // One write keeps the invariant, and everything seen before it stays true.
  lemma StepKeepsInv(db: Db, a: Act)
    requires Inv(db) && Licensed(db, a)
    ensures Inv(DbStep(db, a)) && Later(db, DbStep(db, a))
  {
    hide Inv, Later, RenameRows, PutRow, DropRows, SetPath, InsertRow, Enqueue, AddConflict, DropConflicts, FinishOp,
        MarkAttempt;
    match a
    case InsertItem(row) => InsertKeepsInv(db, row);
    case DeleteItem(id) => DropKeepsInv(db, {id});
    case Repath(id, path) => SetPathKeepsInv(db, id, path);
    case RepathTree(src, dst) => RenameRowsKeepsInv(db, src, dst);
    case Queue(id, op, at) => QueueKeepsInv(db, id, op, at);
    case LinkRemote(id, rid) =>
      if id in db.items {
        InvRow(db, id);
        PutKeepsInv(db, id, db.items[id].(remoteId := Some(rid)));
      } else {
        LaterSelf(db);
      }
    case Fingerprint(id, size, md5, at) =>
      if id in db.items {
        InvRow(db, id);
        PutKeepsInv(db, id, db.items[id].(size := Some(size), md5 := Some(md5), syncedAt := at));
      } else { LaterSelf(db); }
    case Lifecycle(id, state) =>
      if id in db.items { InvRow(db, id); PutKeepsInv(db, id, db.items[id].(state := state)); } else { LaterSelf(db); }
    case Tombstone(id, since) =>
      if id in db.items {
        InvRow(db, id);
        PutKeepsInv(db, id, db.items[id].(trashedAt := since));
      } else {
        LaterSelf(db);
      }
    case OpenConflict(id, original, conflict, at) => OpenKeepsInv(db, id, original, conflict, at);
    case CloseConflicts(path) => CloseKeepsInv(db, path);
    case FinishOperation(o) => FinishOpKeepsInv(db, o);
    case Reschedule(o, next) => RescheduleKeepsInv(db, o, next);
    case _ => LaterSelf(db);
  }

  lemma RenameRowsKeepsInv(db: Db, src: string, dst: string)
    requires Inv(db)
    ensures Inv(RenameRows(db, src, dst)) && Later(db, RenameRows(db, src, dst))
  {
    hide Inv, Later, RenameLoop;
    RenameLoopIsLater(db, src, dst, ScanOrder(db, src, db.nextItem));
  }

  lemma LicenceLasts(db: Db, after: Db, a: Act)
    requires Later(db, after) && Licensed(db, a)
    ensures Licensed(after, a)
  {
  }

  // A run: every write was licensed by a state its task saw at some earlier time.
  ghost predicate IsRun(dbs: seq<Db>, acts: seq<Act>) {
    && |dbs| == |acts| + 1
    && (forall i :: 0 <= i < |acts| ==> dbs[i + 1] == DbStep(dbs[i], acts[i]))
    && (forall i :: 0 <= i < |acts| ==> SeenEarlier(dbs, acts[i], i))
  }

  ghost predicate SeenEarlier(dbs: seq<Db>, a: Act, i: nat)
    requires i < |dbs|
  {
    exists j :: 0 <= j <= i && Licensed(dbs[j], a)
  }

  lemma {:induction false} RunIsMonotone(dbs: seq<Db>, acts: seq<Act>, i: nat)
    requires IsRun(dbs, acts) && Inv(dbs[0]) && i < |dbs|
    ensures Inv(dbs[i])
    ensures forall j :: 0 <= j <= i ==> Later(dbs[j], dbs[i])
    decreases i
  {
    hide Inv, Later, Licensed, DbStep;
    if i == 0 {
      LaterSelf(dbs[0]);
    } else {
      RunIsMonotone(dbs, acts, i - 1);
      var j :| 0 <= j <= i - 1 && Licensed(dbs[j], acts[i - 1]);
      LicenceLasts(dbs[j], dbs[i - 1], acts[i - 1]);
      StepKeepsInv(dbs[i - 1], acts[i - 1]);
      forall k | 0 <= k <= i ensures Later(dbs[k], dbs[i]) {
        if k == i { LaterSelf(dbs[i]); } else { LaterTransitive(dbs[k], dbs[i - 1], dbs[i]); }
      }
    }
  }

  lemma LaterSelf(db: Db)
    ensures Later(db, db)
  {
  }

  // Paths stay unique, queued operations and conflict records keep an item to refer to, tombstones
  // are linked file rows and skipped rows are linked, in every state of every run.
  lemma EveryRunKeepsInvariants(dbs: seq<Db>, acts: seq<Act>)
    requires IsRun(dbs, acts) && Inv(dbs[0])
    ensures forall i :: 0 <= i < |dbs| ==> Inv(dbs[i])
  {
    forall i | 0 <= i < |dbs| ensures Inv(dbs[i]) {
      RunIsMonotone(dbs, acts, i);
    }
  }

  ghost predicate AllLicensed(db: Db, acts: seq<Act>) {
    forall a :: a in acts ==> Licensed(db, a)
  }

  lemma {:induction false} RunKeepsInv(w: World, acts: seq<Act>)
    requires Inv(w.db) && AllLicensed(w.db, acts)
    ensures Inv(Run(w, acts).db) && Later(w.db, Run(w, acts).db)
    decreases |acts|
  {
    hide Inv, Later, Licensed, DbStep;
    if acts == [] {
      LaterSelf(w.db);
    } else {
      var next := Step(w, acts[0]);
      StepKeepsInv(w.db, acts[0]);
      forall a | a in acts[1..] ensures Licensed(next.db, a) {
        LicenceLasts(w.db, next.db, a);
      }
      RunKeepsInv(next, acts[1..]);
      LaterTransitive(w.db, next.db, Run(next, acts[1..]).db);
    }
  }

  // ---- the writes of the three tasks are licensed by what they read ----------------------

  lemma RemoteIsLicensed(w: World, c: Change, now: int)
    requires Inv(w.db)
    ensures RemoteActs(w, c, now).Some? ==> AllLicensed(w.db, RemoteActs(w, c, now).value)
  {
    hide FileActs, FindPath, ShortcutPath;
    var known := FindRemote(w.db, c.fileId);
    InvIds(w.db);
    if c.file.Some? && c.file.value.md5.Some? { FileIsLicensed(w, c, known, now); }
  }

  lemma InvIds(db: Db)
    requires Inv(db)
    ensures forall i :: i in db.items ==> i < db.nextItem
  {
  }

  lemma FileIsLicensed(w: World, c: Change, known: Option<nat>, now: int)
    requires c.file.Some? && c.file.value.md5.Some? && (known.Some? ==> known.value in w.db.items)
    ensures FileActs(w, c, known, now).Some? ==> AllLicensed(w.db, FileActs(w, c, known, now).value)
  {
    hide ConflictPath, ParentDir, FindPath;
  }

  lemma {:induction false} WalkIsLicensed(w: World, entries: seq<string>, now: int, db: Db)
    ensures AllLicensed(db, WalkActs(w, entries, now))
    decreases |entries|
  {
    hide Run;
    if entries != [] {
      WalkIsLicensed(Run(w, EntryActs(w, entries[0], now)), entries[1..], now, db);
    }
  }

  lemma LocalIsLicensed(w: World, e: WatchEvent, walk: seq<string>, now: int)
    requires Inv(w.db)
    ensures AllLicensed(w.db, LocalActs(w, e, walk, now))
  {
    hide WalkActs;
    match e
    case Created(p) => WalkIsLicensed(w, [p] + walk, now, w.db);
    case Modified(p) => WalkIsLicensed(w, [p] + walk, now, w.db);
    case Renamed(_, to) => WalkIsLicensed(w, [to] + walk, now, w.db);
    case Deleted(_) =>
  }

  lemma SegmentIsLicensed(w: World, current: string, rel: string, seg: string, a: Answers, now: int, db: Db)
    ensures AllLicensed(db, SegmentActs(w, current, rel, seg, a, now))
  {
    hide FindFolder, FindPath;
  }

  lemma {:induction false} EnsureIsLicensed(w: World, current: string, done: string, segs: seq<string>, a: Answers,
          now: int, db: Db)
    ensures AllLicensed(db, EnsureActs(w, current, done, segs, a, now))
    decreases |segs|
  {
    hide Run, Join, SegmentActs, SegmentId, Licensed;
    if segs != [] {
      var rel := Join(done, segs[0]);
      var next := SegmentId(w.drive, current, rel, segs[0], a);
      if next.Some? {
        SegmentIsLicensed(w, current, rel, segs[0], a, now, db);
        EnsureIsLicensed(Run(w, SegmentActs(w, current, rel, segs[0], a, now)), next.value, rel, segs[1..], a, now, db);
      }
    }
  }

  lemma ExecIsLicensed(w: World, o: nat, a: Answers, now: int)
    requires Inv(w.db) && o in w.db.ops
    ensures AllLicensed(w.db, ExecEffect(w, w.db.ops[o].item, w.db.ops[o].op, a, now).acts)
  {
    hide EnsureActs, Segments, ParentDir, FileName, MkdirOk, MkdirAll, RenameOutcome, Mergeable, Inv, AllLicensed,
      UploadEffect, RenameRemoteEffect, DeleteLocalEffect, DeleteRemoteEffect;
    var id, op := w.db.ops[o].item, w.db.ops[o].op;
    ItemOfOp(w.db, o);
    match op
    case Upload => UploadIsLicensed(w, id, a, now);
    case DeleteRemote => DeleteRemoteIsLicensed(w, id, a);
    case DeleteLocal(tombstone) => DeleteLocalIsLicensed(w, id, tombstone, now);
    case RenameRemote(newRel) => RenameRemoteIsLicensed(w, id, newRel, a, now);
    case CreateDirRemote => EnsureIsLicensed(w, a.root, "", Segments(w.db.items[id].path), a, now, w.db);
    case _ => OthersAreLicensed(w, id, op, a, now);
  }

  lemma ItemOfOp(db: Db, o: nat)
    requires Inv(db) && o in db.ops
    ensures db.ops[o].item in db.items && db.ops[o].item < db.nextItem
    ensures db.ops[o].op.DeleteLocal? ==> db.items[db.ops[o].item].remoteId.Some?
  {
  }

  lemma FirstUploadIsLicensed(db: Db, id: nat, rid: string, path: string, bytes: Bytes, parent: string, now: int)
    ensures AllLicensed(db, FirstUpload(id, rid, path, bytes, parent, now))
  {
    hide FileName;
  }

  lemma UploadIsLicensed(w: World, id: nat, a: Answers, now: int)
    requires id in w.db.items
    ensures AllLicensed(w.db, UploadEffect(w, id, a, now).acts)
  {
    hide EnsureActs, Segments, ParentDir, FileName, FolderId, FirstUpload;
    var path := w.db.items[id].path;
    var parent := FolderId(w.drive, ParentDir(path), a);
    EnsureIsLicensed(w, a.root, "", Segments(ParentDir(path)), a, now, w.db);
    if IsFile(w.disk, path) && parent.Some? {
      FirstUploadIsLicensed(w.db, id, a.newId(path), path, w.disk[path].bytes, parent.value, now);
    }
  }

  lemma RenameRemoteIsLicensed(w: World, id: nat, newRel: string, a: Answers, now: int)
    requires id in w.db.items
    ensures AllLicensed(w.db, RenameRemoteEffect(w, id, newRel, a, now).acts)
  {
    hide EnsureActs, Segments, ParentDir, FileName, FolderId;
    EnsureIsLicensed(w, a.root, "", Segments(ParentDir(newRel)), a, now, w.db);
  }

  lemma DeleteRemoteIsLicensed(w: World, id: nat, a: Answers)
    requires id in w.db.items && id < w.db.nextItem
    ensures AllLicensed(w.db, DeleteRemoteEffect(w, id, a).acts)
  {
  }

  lemma DeleteLocalIsLicensed(w: World, id: nat, tombstone: bool, now: int)
    requires id in w.db.items && id < w.db.nextItem && w.db.items[id].remoteId.Some?
    ensures AllLicensed(w.db, DeleteLocalEffect(w, id, tombstone, now).acts)
  {
  }

  lemma OthersAreLicensed(w: World, id: nat, op: Operation, a: Answers, now: int)
    requires id in w.db.items
    requires op.Download? || op.CreateDirLocal? || op.WriteShortcut? || op.RenameLocal? || op.MarkConflict?
    ensures AllLicensed(w.db, ExecEffect(w, id, op, a, now).acts)
  {
    hide ParentDir, MkdirOk, MkdirAll, RenameOutcome, Mergeable;
  }

  // The start-up garbage collection only drops rows.
  lemma GcKeepsInv(db: Db, cutoff: int)
    requires Inv(db)
    ensures Inv(GcTombstones(db, cutoff)) && Later(db, GcTombstones(db, cutoff))
    ensures forall i :: i in db.items ==>
      (i in GcTombstones(db, cutoff).items <==> db.items[i].trashedAt.None? || db.items[i].trashedAt.value >= cutoff)
  {
  }
}
