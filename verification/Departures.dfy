// The other events of the watcher, end to end: new directories with what is in them, files that are
// renamed or deleted before they ever reached Drive, and the conflict records a deletion settles.
module Departures {
  import opened Paths
  import opened Tables
  import opened RenameSubtree
  import opened Disk
  import opened World
  import opened Continuous
  import opened Runtime
  import opened Invariants
  import opened Draining
  import opened RedeliveryCases
  import opened RemoteFolders
  import opened Idempotence
  import opened Propagation

  // ---- a file renamed before its first upload --------------------------------------------

  // Nothing is queued but uploads of the file itself.
  ghost predicate OnlyUploads(w: World, id: nat) {
    Inv(w.db) && forall o :: o in w.db.ops ==> w.db.ops[o].item == id && w.db.ops[o].op == Upload
  }

  // The other rows are as they were, linked at most if they are folders on the way, unless the file
  // took their path.
  ghost predicate OthersIntact(db: Db, after: Db, id: nat, p: string, folders: seq<string>) {
    forall j :: j in db.items && j != id && db.items[j].path != p ==>
      j in after.items && (db.items[j].path !in folders ==> after.items[j] == db.items[j])
  }

  // Where the file went: one node with its name and bytes in the last of the folders on the way, and
  // its row, linked, at the new path.
  ghost predicate DraftLands(w: World, v: World, id: nat, p: string, rid: string, a: Answers, ids: seq<string>)
    requires id in w.db.items && IsFile(w.disk, p)
  {
    var bytes := w.disk[p].bytes;
    && v.disk == w.disk && rid in v.drive
    && v.drive[rid] == DriveNode(FileName(p), [Last(a.root, ids)], false, bytes, false)
    && id in v.db.items && v.db.items[id] == w.db.items[id].(path := p, remoteId := Some(rid), size := Some(|bytes|),
         md5 := Some(Md5(bytes)), syncedAt := v.db.items[id].syncedAt)
    && FolderId(w.drive, ParentDir(p), a) == Some(Last(a.root, ids))
    && OnlyFoldersBeside(w, v, ParentDir(p), ids, id, rid)
    && OthersIntact(w.db, v.db, id, p, FolderPaths("", Segments(ParentDir(p))))
  }

  // A file renamed before its first upload: it goes up under its new name, however many uploads were
  // queued, and nothing is left of the old one.
  lemma DraftRenameIsUploaded(w: World, from: string, p: string, now: int, id: nat, a: Answers, clock: nat -> int)
    returns (ids: seq<string>)
    requires OnlyUploads(w, id) && FindPath(w.db, from) == Some(id) && w.db.items[id].remoteId.None?
    requires IsFile(w.disk, p) && p != "" && from != p && from !in FolderPaths("", Segments(ParentDir(p)))
    requires w.db.items[id].md5 != Some(Md5(w.disk[p].bytes))
    requires a.reply.Accepted? && FreshIds(w.drive, "", a) && FolderId(w.drive, ParentDir(p), a).Some?
    ensures a.newId(p) !in w.drive
    ensures var v := Observed(w, Renamed(from, p), now, a, clock);
      DraftLands(w, v, id, p, a.newId(p), a, ids) && FindPath(v.db, from).None?
  {
    assert p in w.disk && |p| > |ParentDir(p)| && |p| > 0;
    assert a.newId(p) !in w.drive by { NoneHandedOut(w.drive, "", a); }
    hide OnlyUploads, LocalActs, Run, FolderFor, FolderId, FolderPaths, Segments, ParentDir, FreshIds, Drain,
      DraftLands, ExecOp, FindPath;
    var w1 := Run(w, LocalActs(w, Renamed(from, p), [], now));
    DraftQueues(w, from, p, now, id);
    var k := FirstOp(w1, w.db.nextOp);
    ids := FirstTurn(w, w1, id, from, p, k, a, clock);
    RestIsIdle(w1, k, id, p, a, clock);
    LandsAlike(w, ExecOp(w1, k, a, clock), Drain(w1, a, clock), from, id, p, a, ids);
  }

  // The row is at its new path, and one upload more is queued.
  ghost predicate Repathed(w: World, w1: World, id: nat, p: string) {
    && w1.disk == w.disk && w1.drive == w.drive && OnlyUploads(w1, id) && id in w.db.items && id in w1.db.items
    && w1.db.items[id] == w.db.items[id].(path := p) && (forall j :: j in w1.db.items ==> j in w.db.items)
    && (forall j :: j in w1.db.items && j != id ==> w1.db.items[j] == w.db.items[j])
    && (forall j :: j in w.db.items && j != id && w.db.items[j].path != p ==> j in w1.db.items)
  }

  lemma DraftQueues(w: World, from: string, p: string, now: int, id: nat)
    requires OnlyUploads(w, id) && FindPath(w.db, from) == Some(id) && w.db.items[id].remoteId.None? && from != p
    ensures var w1 := Run(w, LocalActs(w, Renamed(from, p), [], now));
      && Repathed(w, w1, id, p) && w.db.nextOp in w1.db.ops
      && forall j :: j in w1.db.items ==> w1.db.items[j].path != from
  {
    hide Inv, FindPath, Run, OnlyUploads, SetPath, LocalActs, Repathed;
    var moved, up := Repath(id, p), Queue(id, Upload, now);
    DraftActs(w, from, p, now, id);
    RunTwo(w, moved, up);
    var there := w.(db := SetPath(w.db, id, p));
    RowMoves(w, from, p, id);
    assert OnlyUploads(there, id) && id in there.db.items by { RepathedMeans(w, there, id, p); }
    UploadQueued(there, id, now);
    RepathedOn(w, there, Step(there, up), id, p);
  }

  lemma DraftActs(w: World, from: string, p: string, now: int, id: nat)
    requires FindPath(w.db, from) == Some(id) && w.db.items[id].remoteId.None?
    ensures LocalActs(w, Renamed(from, p), [], now) == [Repath(id, p), Queue(id, Upload, now)]
  {
    hide FindPath;
  }

  lemma RepathedMeans(w: World, w1: World, id: nat, p: string)
    requires Repathed(w, w1, id, p)
    ensures OnlyUploads(w1, id) && id in w1.db.items
  {
  }

  lemma RepathedOn(w: World, w1: World, v: World, id: nat, p: string)
    requires Repathed(w, w1, id, p) && EqButOps(v, w1) && OnlyUploads(v, id)
    ensures Repathed(w, v, id, p)
  {
    hide OnlyUploads;
  }

  lemma UploadQueued(w: World, id: nat, now: int)
    requires OnlyUploads(w, id) && id in w.db.items
    ensures var v := Step(w, Queue(id, Upload, now));
      OnlyUploads(v, id) && w.db.nextOp in v.db.ops && EqButOps(v, w)
  {
    QueueKeepsInv(w.db, id, Upload, now);
    hide Inv;
  }

  lemma RowMoves(w: World, from: string, p: string, id: nat)
    requires OnlyUploads(w, id) && FindPath(w.db, from) == Some(id) && from != p
    ensures var db := SetPath(w.db, id, p);
      && Repathed(w, w.(db := db), id, p) && db.nextOp == w.db.nextOp
      && forall j :: j in db.items ==> db.items[j].path != from
  {
    hide Inv, FindPath, SetPath;
    InvIsValid(w.db);
    OnlyRowAt(w.db, from, id);
    SetPathKeepsInv(w.db, id, p);
    MovedRowWins(w.db, id, p);
    SetPathOps(w.db, id, p);
  }

  lemma OnlyRowAt(db: Db, from: string, id: nat)
    requires Valid(db) && FindPath(db, from) == Some(id)
    ensures forall j :: j in db.items && db.items[j].path == from ==> j == id
  {
    hide FindPath;
  }

  lemma SetPathOps(db: Db, id: nat, p: string)
    ensures var after := SetPath(db, id, p);
      after.nextOp == db.nextOp && (forall j :: j in after.items ==> j in db.items)
      && forall o :: o in after.ops ==> o in db.ops && after.ops[o] == db.ops[o]
  {
  }

  lemma FirstOp(w: World, n: nat) returns (k: nat)
    requires n in w.db.ops
    ensures k in w.db.ops && forall o :: o in w.db.ops ==> k <= o
  {
    MinExists(w.db.ops.Keys, n);
    k :| k in w.db.ops && forall o :: o in w.db.ops ==> k <= o;
  }

  // The first upload in the queue takes the file to Drive.
  lemma FirstTurn(w: World, w1: World, id: nat, from: string, p: string, k: nat, a: Answers, clock: nat -> int)
    returns (ids: seq<string>)
    requires Repathed(w, w1, id, p) && k in w1.db.ops && IsFile(w.disk, p) && p != "" && from != p
    requires w.db.items[id].remoteId.None? && w.db.items[id].md5 != Some(Md5(w.disk[p].bytes))
    requires forall j :: j in w1.db.items ==> w1.db.items[j].path != from
    requires from !in FolderPaths("", Segments(ParentDir(p)))
    requires a.reply.Accepted? && FreshIds(w.drive, "", a) && FolderId(w.drive, ParentDir(p), a).Some?
    ensures DraftLands(w, ExecOp(w1, k, a, clock), id, p, a.newId(p), a, ids)
    ensures FindPath(ExecOp(w1, k, a, clock).db, from).None?
    ensures forall o :: o in ExecOp(w1, k, a, clock).db.ops ==>
        o in w1.db.ops && o != k && ExecOp(w1, k, a, clock).db.ops[o] == w1.db.ops[o]
  {
    var up, rid, bytes := ParentDir(p), a.newId(p), w.disk[p].bytes;
    assert |p| > |up|;
    hide *;
    Draftness(w, w1, id, p, k);
    ids := FoldersAreMade(w1, up, a, clock(k));
    var u := Run(w1, FolderFor(w1, up, a, clock(k)));
    FoldersKeepQueue(w1, up, a, clock(k));
    RowStays(w1, u, up, a, ids, id);
    FirstUploadArrives(w1, u, k, id, p, Last(a.root, ids), a, clock);
    var v := ExecOp(w1, k, a, clock);
    NothingElse(w, w1, u, v, id, rid, v.db.items[id], v.drive[rid], from, p, a, ids);
    assert v.db.items[id].syncedAt == clock(k);
    Lands(w, v, id, p, rid, a, ids);
  }

  // Beside the node and the row nothing but the folders.
  lemma NothingElse(w: World, w1: World, u: World, v: World, id: nat, rid: string, row: Row, node: DriveNode,
                    from: string, p: string, a: Answers, ids: seq<string>)
    requires Repathed(w, w1, id, p) && Reached(w1, u, ParentDir(p), a, ids) && w1.drive == w.drive
    requires OnlyNewFolders(w1.drive, u.drive, ids) && OnlyFolders(w1.db, u.db, FolderPaths("", Segments(ParentDir(p))))
    requires from != p && from !in FolderPaths("", Segments(ParentDir(p)))
    requires forall j :: j in w1.db.items ==> w1.db.items[j].path != from
    requires forall j :: j in w1.db.items && j != id ==> j in w.db.items
    requires id in u.db.items && v.db.items == u.db.items[id := row] && row.path == p && v.drive == u.drive[rid := node]
    ensures OnlyFoldersBeside(w, v, ParentDir(p), ids, id, rid)
    ensures OthersIntact(w.db, v.db, id, p, FolderPaths("", Segments(ParentDir(p)))) && FindPath(v.db, from).None?
  {
    hide *;
    NodesAndRowsBeside(w, w1, u, v, ParentDir(p), id, rid, ids);
    OthersStay(w, w1, u, v, id, from, p, a, ids);
  }

  lemma Draftness(w: World, w1: World, id: nat, p: string, k: nat)
    requires Repathed(w, w1, id, p) && k in w1.db.ops && IsFile(w.disk, p)
    requires w.db.items[id].remoteId.None? && w.db.items[id].md5 != Some(Md5(w.disk[p].bytes))
    ensures Holds(w1.db, k, id, Upload) && Draft(w1, id, p) && Inv(w1.db) && w1.drive == w.drive && w1.disk == w.disk
    ensures w1.db.items[id] == w.db.items[id].(path := p)
    ensures forall j :: j in w1.db.items && j != id ==> j in w.db.items && w1.db.items[j] == w.db.items[j]
  {
    hide Inv;
  }

  lemma FoldersKeepQueue(w: World, rel: string, a: Answers, now: int)
    ensures var u := Run(w, FolderFor(w, rel, a, now));
      forall o :: o in u.db.ops ==> o in w.db.ops && u.db.ops[o] == w.db.ops[o]
  {
    hide FolderFor, FolderId, Run, Quiet;
    FolderIgnoresQueue(w, w, rel, a, now);
    OpsShrink(w, FolderFor(w, rel, a, now));
  }

  lemma OthersStay(w: World, w1: World, u: World, v: World, id: nat, from: string, p: string, a: Answers,
                   ids: seq<string>)
    requires Repathed(w, w1, id, p) && Reached(w1, u, ParentDir(p), a, ids)
    requires OnlyFolders(w1.db, u.db, FolderPaths("", Segments(ParentDir(p))))
    requires id in v.db.items && id in u.db.items && v.db.items == u.db.items[id := v.db.items[id]]
    requires v.db.items[id].path == p && from != p && from !in FolderPaths("", Segments(ParentDir(p)))
    requires forall j :: j in w1.db.items ==> w1.db.items[j].path != from
    ensures OthersIntact(w.db, v.db, id, p, FolderPaths("", Segments(ParentDir(p))))
    ensures FindPath(v.db, from).None?
  {
    hide Finds, AllKnown, Segments, FolderPaths, ParentDir, OnlyUploads;
    forall j | j in v.db.items ensures v.db.items[j].path != from {
      if j in w1.db.items { assert u.db.items[j].(remoteId := None) == w1.db.items[j].(remoteId := None); }
    }
  }

  lemma Lands(w: World, v: World, id: nat, p: string, rid: string, a: Answers, ids: seq<string>)
    requires id in w.db.items && IsFile(w.disk, p) && v.disk == w.disk && rid in v.drive && id in v.db.items
    requires v.drive[rid] == DriveNode(FileName(p), [Last(a.root, ids)], false, w.disk[p].bytes, false)
    requires v.db.items[id] == w.db.items[id].(path := p, remoteId := Some(rid), size := Some(|w.disk[p].bytes|),
        md5 := Some(Md5(w.disk[p].bytes)), syncedAt := v.db.items[id].syncedAt)
    requires FolderId(w.drive, ParentDir(p), a) == Some(Last(a.root, ids))
    requires OnlyFoldersBeside(w, v, ParentDir(p), ids, id, rid)
    requires OthersIntact(w.db, v.db, id, p, FolderPaths("", Segments(ParentDir(p))))
    ensures DraftLands(w, v, id, p, rid, a, ids)
  {
    hide OnlyFoldersBeside, OthersIntact, FolderId, FolderPaths, Segments, ParentDir, FileName, Last;
  }

  // The uploads behind it find nothing left to do.
  lemma RestIsIdle(w: World, k: nat, id: nat, p: string, a: Answers, clock: nat -> int)
    requires OnlyUploads(w, id) && k in w.db.ops && (forall o :: o in w.db.ops ==> k <= o)
    requires var v := ExecOp(w, k, a, clock);
      && id in v.db.items && v.db.items[id].path == p && IsFile(v.disk, p)
      && v.db.items[id].md5 == Some(Md5(v.disk[p].bytes)) && v.db.items[id].size == Some(|v.disk[p].bytes|)
      && forall o :: o in v.db.ops ==> o in w.db.ops && o != k && v.db.ops[o] == w.db.ops[o]
    ensures EqButOps(Drain(w, a, clock), ExecOp(w, k, a, clock))
  {
    hide ExecOp, Inv;
    var n := w.db.nextOp;
    assert k < n by { KeysAreUsed(w.db); }
    SkipTo(w, 0, k, n, a, clock);
    UploadsAreIdle(ExecOp(w, k, a, clock), k + 1, n, id, p, a, clock);
  }

  lemma {:induction false} UploadsAreIdle(v: World, k: nat, n: nat, id: nat, p: string, a: Answers, clock: nat -> int)
    requires id in v.db.items && v.db.items[id].path == p && IsFile(v.disk, p)
    requires v.db.items[id].md5 == Some(Md5(v.disk[p].bytes)) && v.db.items[id].size == Some(|v.disk[p].bytes|)
    requires forall o :: o in v.db.ops ==> v.db.ops[o].item == id && v.db.ops[o].op == Upload
    ensures EqButOps(DrainTo(v, k, n, a, clock), v)
    decreases n - k
  {
    hide ExecOp;
    if k < n {
      UploadIsIdle(v, k, id, p, a, clock);
      UploadsAreIdle(ExecOp(v, k, a, clock), k + 1, n, id, p, a, clock);
    }
  }

  lemma UploadIsIdle(v: World, k: nat, id: nat, p: string, a: Answers, clock: nat -> int)
    requires id in v.db.items && v.db.items[id].path == p && IsFile(v.disk, p)
    requires v.db.items[id].md5 == Some(Md5(v.disk[p].bytes)) && v.db.items[id].size == Some(|v.disk[p].bytes|)
    requires forall o :: o in v.db.ops ==> v.db.ops[o].item == id && v.db.ops[o].op == Upload
    ensures var u := ExecOp(v, k, a, clock);
      EqButOps(u, v) && forall o :: o in u.db.ops ==> o in v.db.ops && u.db.ops[o] == v.db.ops[o]
  {
    hide Run, FolderFor, FolderId, UpdateActs, FirstUpload;
    RunNone(v);
    FinishRuns(v, k);
  }

  lemma LandsAlike(w: World, v: World, u: World, from: string, id: nat, p: string, a: Answers, ids: seq<string>)
    requires id in w.db.items && IsFile(w.disk, p) && DraftLands(w, v, id, p, a.newId(p), a, ids) && EqButOps(u, v)
    ensures DraftLands(w, u, id, p, a.newId(p), a, ids) && (FindPath(v.db, from).None? ==> FindPath(u.db, from).None?)
  {
    hide FolderId, FolderPaths, Segments, ParentDir, FileName, OnlyFoldersBeside, OthersIntact, Last, FindPath;
    SameFinds(v.db, u.db);
    BesideAlike(w, v, u, ParentDir(p), id, p, a.newId(p), ids);
  }

  lemma BesideAlike(w: World, v: World, u: World, rel: string, id: nat, p: string, rid: string, ids: seq<string>)
    requires EqButOps(u, v)
    ensures OnlyFoldersBeside(w, u, rel, ids, id, rid) <==> OnlyFoldersBeside(w, v, rel, ids, id, rid)
    ensures forall folders :: OthersIntact(w.db, u.db, id, p, folders) <==> OthersIntact(w.db, v.db, id, p, folders)
  {
    hide FolderPaths, Segments;
  }

  // What vanished again before the event was looked at is nobody's business.
  lemma VanishedIsIgnored(w: World, e: WatchEvent, p: string, walk: seq<string>, now: int)
    requires Shows(w, e, p) && p !in w.disk
    ensures Run(w, LocalActs(w, e, walk, now)) == w
  {
    hide Run, FindPath, EntryActs, WalkActs;
    RunNone(w);
  }

  // ---- deletions -------------------------------------------------------------------------

  // A deletion settles the conflicts the path is a side of, original or copy, and no others.
  lemma DeletionClosesConflicts(w: World, p: string, now: int)
    requires Inv(w.db)
    ensures var v := Run(w, LocalActs(w, Deleted(p), [], now));
      && (forall k :: k in v.db.conflicts ==> k in w.db.conflicts && v.db.conflicts[k] == w.db.conflicts[k])
      && (forall k :: k in w.db.conflicts ==>
            var r := w.db.conflicts[k];
            k in v.db.conflicts <==> r.original != p && r.conflict != p && r.item in v.db.items)
  {
    ConflictsRefer(w.db);
    hide Run, FindPath, Inv;
    var close := CloseConflicts(p);
    RunOne(w, close);
    var known := FindPath(w.db, p);
    if known.Some? {
      RunTwo(w, close, Queue(known.value, DeleteRemote, now));
      RunTwo(w, close, DeleteItem(known.value));
    }
  }

  // A file or folder deleted before it reached Drive: its row goes, Drive hears nothing of it, and
  // nothing else changes.
  lemma DraftDeletionIsForgotten(w: World, p: string, now: int, id: nat)
    requires Inv(w.db) && FindPath(w.db, p) == Some(id) && w.db.items[id].remoteId.None?
    ensures var v := Run(w, LocalActs(w, Deleted(p), [], now));
      && v.db.items == w.db.items - {id} && v.drive == w.drive && v.disk == w.disk
      && forall o :: o in v.db.ops <==> o in w.db.ops && w.db.ops[o].item != id
  {
    assert w.db.items[id].trashedAt.None? by { InvRow(w.db, id); }
    hide Run, FindPath, Inv;
    RunTwo(w, CloseConflicts(p), DeleteItem(id));
  }

  // The deletion of a path the index does not know, or has as a tombstone, touches no row and queues
  // nothing.
  lemma UnknownDeletionIsIgnored(w: World, p: string, now: int)
    requires FindPath(w.db, p).None? || w.db.items[FindPath(w.db, p).value].trashedAt.Some?
    ensures EqButConflicts(Run(w, LocalActs(w, Deleted(p), [], now)), w)
  {
    hide Run, FindPath;
    RunOne(w, CloseConflicts(p));
  }

  ghost predicate EqButConflicts(v: World, w: World) {
    v.(db := v.db.(conflicts := map[])) == w.(db := w.db.(conflicts := map[]))
  }

  // ---- what Drive refuses ----------------------------------------------------------------

  // A deletion of somebody else's file: the node is taken out of the user's folders if Drive allows
  // that, and its row goes; if not the node stays where it is and the row is no longer synced. Either
  // way the operation is done with.
  lemma ForbiddenDeletion(w: World, o: nat, id: nat, rid: string, a: Answers, clock: nat -> int)
    requires Holds(w.db, o, id, DeleteRemote) && w.db.items[id].remoteId == Some(rid) && rid in w.drive
    requires a.reply.Forbidden?
    ensures var v := ExecOp(w, o, a, clock);
      && o !in v.db.ops && v.disk == w.disk
      && if a.reply.unlinked then
           v.drive == w.drive[rid := w.drive[rid].(parents := [])] && v.db.items == w.db.items - {id}
         else v.drive == w.drive && v.db.items == w.db.items[id := w.db.items[id].(state := Skipped)]
  {
    hide Run;
    var last := if a.reply.unlinked then DeleteItem(id) else Lifecycle(id, Skipped);
    var acts := if a.reply.unlinked then [Mark(rid), UnlinkNode(rid), last, Unmark(rid)]
      else [Mark(rid), last, Unmark(rid)];
    assert ExecEffect(w, id, DeleteRemote, a, clock(o)) == Effect(acts, true);
    hide ExecEffect;
    FinishRuns(Run(w, acts), o);
    UnlinkRuns(w, id, rid);
    SkipRuns(w, id, rid);
  }

  lemma UnlinkRuns(w: World, id: nat, rid: string)
    requires rid in w.drive
    ensures var v := Run(w, [Mark(rid), UnlinkNode(rid), DeleteItem(id), Unmark(rid)]);
      v.disk == w.disk && v.drive == w.drive[rid := w.drive[rid].(parents := [])] && v.db == DropRows(w.db, {id})
  {
    hide Run, DropRows;
    RunFour(w, Mark(rid), UnlinkNode(rid), DeleteItem(id), Unmark(rid));
  }

  lemma SkipRuns(w: World, id: nat, rid: string)
    ensures var v := Run(w, [Mark(rid), Lifecycle(id, Skipped), Unmark(rid)]);
      v.disk == w.disk && v.drive == w.drive && v.db == SetState(w.db, id, Skipped)
  {
    hide Run, SetState;
    RunThree(w, Mark(rid), Lifecycle(id, Skipped), Unmark(rid));
  }

  // A deletion or rename that finds its item not on Drive after all: the row goes, and that is all.
  lemma UnlinkedIsForgotten(w: World, o: nat, id: nat, op: Operation, a: Answers, clock: nat -> int)
    requires Holds(w.db, o, id, op) && (op.DeleteRemote? || op.RenameRemote?) && w.db.items[id].remoteId.None?
    ensures var v := ExecOp(w, o, a, clock);
      v.db.items == w.db.items - {id} && o !in v.db.ops && v.drive == w.drive && v.disk == w.disk
  {
    hide Run, FolderFor, FolderId;
    RunOne(w, DeleteItem(id));
    FinishRuns(Run(w, [DeleteItem(id)]), o);
  }

  // What stands in the way of an operation.
  ghost predicate Blocked(w: World, id: nat, op: Operation, a: Answers)
    requires id in w.db.items
  {
    var row := w.db.items[id];
    match op
    case Upload =>
      && IsFile(w.disk, row.path)
      && !(row.md5 == Some(Md5(w.disk[row.path].bytes)) && row.size == Some(|w.disk[row.path].bytes|))
      && (!a.reply.Accepted? || (row.remoteId.None? && FolderId(w.drive, ParentDir(row.path), a).None?))
    case Download(rid, _, _, rel) =>
      !MkdirOk(w.disk, ParentDir(rel)) || IsDir(w.disk, rel) || !a.reply.Accepted? || rid !in w.drive
    case DeleteRemote => row.remoteId.Some? && a.reply.Failed?
    case DeleteLocal(_) => if row.kind.File? then IsDir(w.disk, row.path) else IsFile(w.disk, row.path)
    case RenameRemote(p) =>
      row.remoteId.Some? && (FolderId(w.drive, ParentDir(p), a).None? || !a.reply.Accepted?)
    case CreateDirRemote => FolderId(w.drive, row.path, a).None?
    case CreateDirLocal => !MkdirOk(w.disk, row.path)
    case WriteShortcut(_) => !MkdirOk(w.disk, ParentDir(row.path)) || IsDir(w.disk, row.path)
    case RenameLocal(p) =>
      || !MkdirOk(w.disk, ParentDir(p))
      || var d := MkdirAll(w.disk, ParentDir(p));
         var outcome := RenameOutcome(d, row.path, p);
         outcome.Refused? || (outcome.NotEmpty? && !Mergeable(d, row.path, p))
    case MarkConflict => false
  }

  // An operation stays queued for another try exactly if something stands in its way, and then it has
  // changed nothing but made directories and folders: every row that was there is as it was, linked at
  // most, and so is every node of either side.
  lemma BlockedStaysQueued(w: World, o: nat, id: nat, op: Operation, a: Answers, clock: nat -> int)
    requires Inv(w.db) && Holds(w.db, o, id, op) && FreshIds(w.drive, "", a)
    ensures var v := ExecOp(w, o, a, clock);
      && (o in v.db.ops <==> Blocked(w, id, op, a))
      && (Blocked(w, id, op, a) ==>
            && v.db.ops[o] == w.db.ops[o].(attempts := w.db.ops[o].attempts + 1, due := a.retryAt(o))
            && OnlyContainers(w, v))
  {
    KeysAreUsed(w.db);
    hide Inv, Run, ExecEffect, OnlyContainers, Blocked, FreshIds;
    var e := ExecEffect(w, id, op, a, clock(o));
    var u := Run(w, e.acts);
    BlockedFails(w, id, op, a, clock(o));
    if e.ok {
      FinishRuns(u, o);
    } else {
      FailureLeaves(w, id, op, a, clock(o));
      EffectIgnoresQueue(w, w, id, op, a, clock(o));
      RunSurvives(w, e.acts, 0, 0);
      RescheduleRuns(u, o, a.retryAt(o));
      StillThere(w, u, o, id, a.retryAt(o));
    }
  }

  lemma StillThere(w: World, u: World, o: nat, id: nat, at: int)
    requires OnlyContainers(w, u) && o in w.db.ops && w.db.ops[o].item == id && id in w.db.items
    requires Survives(w.db, u.db, 0, 0)
    ensures var v := u.(db := MarkAttempt(u.db, o, at));
      && OnlyContainers(w, v) && o in v.db.ops
      && v.db.ops[o] == w.db.ops[o].(attempts := w.db.ops[o].attempts + 1, due := at)
  {
    assert id in u.db.items;
  }

  lemma BlockedFails(w: World, id: nat, op: Operation, a: Answers, now: int)
    requires id in w.db.items
    ensures ExecEffect(w, id, op, a, now).ok <==> !Blocked(w, id, op, a)
  {
    hide FolderFor, FolderId, MkdirOk, MkdirAll, ParentDir, Mergeable, RenameOutcome, FirstUpload, UpdateActs, MoveActs,
      DownloadActs;
  }

  lemma ContainersSelf(w: World)
    ensures OnlyContainers(w, w)
  {
  }

  lemma DirsAreContainers(w: World, up: string)
    ensures OnlyContainers(w, Step(w, MakeDirs(up)))
  {
    hide MkdirAll;
    MkdirAddsAncestors(w.disk, up);
  }

  lemma MarksAreContainers(w: World, u: World, rid: string)
    requires OnlyContainers(w, u)
    ensures OnlyContainers(w, Run(u, [Mark(rid), Unmark(rid)]))
  {
    hide Run;
    RunTwo(u, Mark(rid), Unmark(rid));
    var v := Step(Step(u, Mark(rid)), Unmark(rid));
    assert v.disk == u.disk && v.drive == u.drive && v.db == u.db;
  }

  lemma FoldersAreContainers(w: World, rel: string, a: Answers, now: int)
    requires Inv(w.db) && FreshIds(w.drive, "", a)
    ensures OnlyContainers(w, Run(w, FolderFor(w, rel, a, now)))
  {
    hide Run, EnsureActs, EnsuredDrive, Visited, Segments, FolderPaths, FreshIds, Inv;
    SegmentsAreNames(rel);
    EnsureRuns(w, a.root, "", Segments(rel), a, now);
    EnsureLinks(w, a.root, "", Segments(rel), a, now);
    EnsureAddsFolders(w.drive, a.root, "", Segments(rel), a);
  }

  lemma FailureLeaves(w: World, id: nat, op: Operation, a: Answers, now: int)
    requires Inv(w.db) && id in w.db.items && !ExecEffect(w, id, op, a, now).ok && FreshIds(w.drive, "", a)
    ensures OnlyContainers(w, Run(w, ExecEffect(w, id, op, a, now).acts))
  {
    hide Inv, Run, FolderFor, FolderId, MkdirOk, MkdirAll, ParentDir, Mergeable, RenameOutcome, FirstUpload, UpdateActs,
      MoveActs, DownloadActs, OnlyContainers, FreshIds, Step;
    var row, acts := w.db.items[id], ExecEffect(w, id, op, a, now).acts;
    ContainersSelf(w);
    RunNone(w);
    var rid := if row.remoteId.Some? then row.remoteId.value else "";
    MarksAreContainers(w, w, rid);
    var up := ParentDir(match op case Download(_, _, _, rel) => rel case RenameLocal(p) => p case _ => row.path);
    DirsAreContainers(w, up);
    RunOne(w, MakeDirs(up));
    var rel :=
      match op case RenameRemote(p) => ParentDir(p) case CreateDirRemote => row.path case _ => ParentDir(row.path);
    FoldersAreContainers(w, rel, a, now);
    RunConcat(w, FolderFor(w, rel, a, now), [Mark(rid), Unmark(rid)]);
    MarksAreContainers(w, Run(w, FolderFor(w, rel, a, now)), rid);
  }

  // Nothing but directories, folders and their rows.
  ghost predicate OnlyContainers(w: World, v: World) {
    && (forall q :: q in w.disk ==> q in v.disk && v.disk[q] == w.disk[q])
    && (forall q :: q in v.disk && q !in w.disk ==> v.disk[q] == DirNode)
    && (forall n :: n in w.drive ==> n in v.drive && v.drive[n] == w.drive[n])
    && (forall n :: n in v.drive && n !in w.drive ==> v.drive[n].folder)
    && (forall i :: i in w.db.items ==>
          i in v.db.items && v.db.items[i].(remoteId := None) == w.db.items[i].(remoteId := None))
    && (forall i :: i in v.db.items && i !in w.db.items ==> v.db.items[i].kind.Dir?)
  }
}
