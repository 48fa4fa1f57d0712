// A conflict loses nothing: the local edit survives under the conflict name, the remote edit takes
// the canonical one (src/reconcile/conflict.rs, src/reconcile/continuous.rs, src/daemon/runtime.rs).
module Conflicts {
  import opened Paths
  import opened Tables
  import opened Disk
  import opened World
  import opened Continuous
  import opened Runtime
  import opened Draining
  import opened Redelivery
  import opened RedeliveryCases
  import opened Idempotence
  import opened Timestamps

  // The change is applied, and the download it queued runs.
  ghost function Resolved(w: World, c: Change, now: int, a: Answers, clock: nat -> int): World {
    ExecOp(Deliver(w, c, now), w.db.nextOp, a, clock)
  }

  // Both sides changed since the last synchronisation, and the change can be applied.
  ghost predicate BothChanged(w: World, c: Change, now: int, id: nat) {
    && Tree(w.disk) && Live(w, c) && FindRemote(w.db, c.fileId) == Some(id) && Diverged(w, c, id)
    && WellNamed(w.db.items[id].path) && RemoteActs(w, c, now).Some?
  }

  ghost predicate Served(w: World, c: Change, a: Answers) {
    a.reply.Accepted? && c.fileId in w.drive
  }

  lemma AfterOpening(w: World, id: nat, path: string, aside: string, op: Operation, now: int)
    requires id in w.db.items
    ensures var v := Run(w, [MoveLocal(path, aside), OpenConflict(id, path, aside, now), Queue(id, op, now)]);
      && v.disk == MoveTree(w.disk, path, aside) && v.drive == w.drive
      && v.db.items == w.db.items && Holds(v.db, w.db.nextOp, id, op)
      && v.db.conflicts == w.db.conflicts[w.db.nextConflict := ConflictRecord(id, path, aside, now)]
  {
    hide Run, MoveTree;
    var moved, open := Step(w, MoveLocal(path, aside)), OpenConflict(id, path, aside, now);
    assert moved.db == w.db && moved.drive == w.drive;
    RunThree(w, MoveLocal(path, aside), open, Queue(id, op, now));
    OpenThenQueue(moved, id, path, aside, op, now);
    hide Step;
  }

  lemma OpenThenQueue(u: World, id: nat, path: string, aside: string, op: Operation, now: int)
    requires id in u.db.items
    ensures var v := Step(Step(u, OpenConflict(id, path, aside, now)), Queue(id, op, now));
      && v.disk == u.disk && v.drive == u.drive
      && v.db.items == u.db.items && Holds(v.db, u.db.nextOp, id, op)
      && v.db.conflicts == u.db.conflicts[u.db.nextConflict := ConflictRecord(id, path, aside, now)]
  {
  }

  lemma PullRuns(w: World, o: nat, id: nat, f: Snapshot, path: string, a: Answers, clock: nat -> int)
    requires f.md5.Some? && Holds(w.db, o, id, PullOf(f, path))
    requires a.reply.Accepted? && f.id in w.drive && w.db.items[id].remoteId == Some(f.id)
    requires path !in w.disk && (ParentDir(path) == "" || IsDir(w.disk, ParentDir(path)))
    ensures var bytes := w.drive[f.id].bytes;
      ExecOp(w, o, a, clock) == Run(w.(disk := w.disk[path := FileNode(bytes)],
        db := SetFingerprint(w.db, id, |bytes|, Md5(bytes), clock(o))), [FinishOperation(o)])
  {
    hide Run, ParentDir, MkdirOk, MkdirAll, SetFingerprint, DownloadActs;
    var bytes := w.drive[f.id].bytes;
    MkdirIdle(w.disk, ParentDir(path));
    DownloadRuns(w, id, path, bytes, clock(o));
    assert DownloadActs(id, path, bytes, clock(o)) + [] == DownloadActs(id, path, bytes, clock(o));
  }

  lemma AsideKeepsDirs(d: Disk, path: string, now: int)
    requires Tree(d) && IsFile(d, path) && WellNamed(path) && !IsDir(d, ConflictPath(path, now))
    ensures ParentDir(path) == "" || IsDir(MoveTree(d, path, ConflictPath(path, now)), ParentDir(path))
  {
    hide Tree, MoveTree, ConflictPath, WellNamed, ParentDir, Incomparable;
    var aside, up := ConflictPath(path, now), ParentDir(path);
    ConflictPathIsSibling(path, now);
    TreeParent(d, path);
    AsideNodes(d, path, aside, up);
    assert |up| < |path| < |aside|;
  }

  lemma AfterDelivery(w: World, c: Change, now: int, id: nat)
    requires BothChanged(w, c, now, id)
    ensures var u, path, f := Deliver(w, c, now), w.db.items[id].path, c.file.value;
      var aside := ConflictPath(path, now);
      && f.md5.Some? && f.id == c.fileId && w.db.items[id].remoteId == Some(f.id)
      && IsFile(w.disk, path) && !IsDir(w.disk, aside)
      && u.disk == MoveTree(w.disk, path, aside) && u.drive == w.drive
      && u.db.items == w.db.items && Holds(u.db, w.db.nextOp, id, PullOf(f, path))
      && u.db.conflicts == w.db.conflicts[w.db.nextConflict := ConflictRecord(id, path, aside, now)]
  {
    hide Run, Tree, FindRemote, ConflictPath, MoveTree, WellNamed, RemoteActs, Diverged;
    DivergedIsFile(w, c, id);
    DivergedActs(w, c, now, id);
    var path := w.db.items[id].path;
    AfterOpening(w, id, path, ConflictPath(path, now), PullOf(c.file.value, path), now);
  }

  // Everything the two steps leave behind, node by node and record by record.
  lemma BothVersionsSurvive(w: World, c: Change, now: int, id: nat, a: Answers, clock: nat -> int)
    requires BothChanged(w, c, now, id) && Served(w, c, a)
    ensures var v, path := Resolved(w, c, now, a, clock), w.db.items[id].path;
      var aside, bytes := ConflictPath(path, now), w.drive[c.fileId].bytes;
      && aside != path && ParentDir(aside) == ParentDir(path)
      && At(v.disk, path) == Some(FileNode(bytes))
      && At(v.disk, aside) == At(w.disk, path)
      && (forall q :: q != path && q != aside ==> At(v.disk, q) == At(w.disk, q))
      && v.db.conflicts == w.db.conflicts[w.db.nextConflict := ConflictRecord(id, path, aside, now)]
      && v.db.items == w.db.items[id := w.db.items[id].(size := Some(|bytes|), md5 := Some(Md5(bytes)),
          syncedAt := clock(w.db.nextOp))]
      && v.drive == w.drive
  {
    hide Run, Tree, FindRemote, ConflictPath, MoveTree, ParentDir, WellNamed, RemoteActs, Diverged, Deliver, ExecOp,
      SetFingerprint, Incomparable, At, PullOf;
    AfterDelivery(w, c, now, id);
    var path, o := w.db.items[id].path, w.db.nextOp;
    var bytes := w.drive[c.fileId].bytes;
    BothOnDisk(w.disk, path, now, bytes);
    AsideKeepsDirs(w.disk, path, now);
    AsideDiffers(path, now);
    var u := Deliver(w, c, now);
    PullRuns(u, o, id, c.file.value, path, a, clock);
    PulledWorld(u, o, id, path, bytes, clock(o));
  }

  lemma BothOnDisk(d: Disk, path: string, now: int, bytes: Bytes)
    requires Tree(d) && IsFile(d, path) && WellNamed(path) && !IsDir(d, ConflictPath(path, now))
    ensures var aside := ConflictPath(path, now);
      var moved := MoveTree(d, path, aside);
      var e := moved[path := FileNode(bytes)];
      && path !in moved && At(e, path) == Some(FileNode(bytes)) && At(e, aside) == At(d, path)
      && forall q :: q != path && q != aside ==> At(e, q) == At(d, q)
  {
    hide *;
    AsideDisk(d, path, now);
    AsideDiffers(path, now);
    var moved := MoveTree(d, path, ConflictPath(path, now));
    forall q
      ensures At(moved[path := FileNode(bytes)], q) == if q == path then Some(FileNode(bytes)) else At(moved, q)
    {
      WriteAt(moved, path, bytes, q);
    }
    assert At(moved, ConflictPath(path, now)) == At(d, path);
    assert forall q :: q != path && q != ConflictPath(path, now) ==> At(moved, q) == At(d, q);
  }

  lemma AsideDiffers(path: string, now: int)
    requires WellNamed(path)
    ensures ConflictPath(path, now) != path && ParentDir(ConflictPath(path, now)) == ParentDir(path)
  {
    hide *;
    ConflictPathIsSibling(path, now);
  }

  lemma WriteAt(d: Disk, path: string, bytes: Bytes, q: string)
    ensures At(d[path := FileNode(bytes)], q) == if q == path then Some(FileNode(bytes)) else At(d, q)
  {
  }

  lemma PulledWorld(u: World, o: nat, id: nat, path: string, bytes: Bytes, at: int)
    requires id in u.db.items
    ensures var v := Run(u.(disk := u.disk[path := FileNode(bytes)],
        db := SetFingerprint(u.db, id, |bytes|, Md5(bytes), at)), [FinishOperation(o)]);
      && v.disk == u.disk[path := FileNode(bytes)] && v.drive == u.drive && v.db.conflicts == u.db.conflicts
      && v.db.items == u.db.items[id := u.db.items[id].(size := Some(|bytes|), md5 := Some(Md5(bytes)), syncedAt := at)]
  {
    hide Run;
    RunOne(u.(disk := u.disk[path := FileNode(bytes)],
        db := SetFingerprint(u.db, id, |bytes|, Md5(bytes), at)), FinishOperation(o));
  }

  lemma DivergedIsFile(w: World, c: Change, id: nat)
    requires Diverged(w, c, id)
    ensures id in w.db.items && IsFile(w.disk, w.db.items[id].path) && c.file.Some? && c.file.value.md5.Some?
  {
  }

  // No file version disappears exactly when nothing different was lying at the conflict path.
  lemma NothingIsLostIff(w: World, c: Change, now: int, id: nat, a: Answers, clock: nat -> int)
    requires BothChanged(w, c, now, id) && Served(w, c, a)
    ensures var v, path := Resolved(w, c, now, a, clock), w.db.items[id].path;
      var aside := ConflictPath(path, now);
      (forall q :: q in w.disk ==> At(v.disk, if q == path then aside else q) == Some(w.disk[q]))
      <==> aside !in w.disk || w.disk[aside] == w.disk[path]
  {
    hide Resolved, ConflictPath, BothChanged, Served;
    BothVersionsSurvive(w, c, now, id, a, clock);
    ChangedIsFile(w, c, now, id);
    var v, path := Resolved(w, c, now, a, clock), w.db.items[id].path;
    var aside := ConflictPath(path, now);
    if aside in w.disk && w.disk[aside] != w.disk[path] {
      assert At(v.disk, if aside == path then aside else aside) != Some(w.disk[aside]);
    }
  }

  lemma ChangedIsFile(w: World, c: Change, now: int, id: nat)
    requires BothChanged(w, c, now, id)
    ensures id in w.db.items && IsFile(w.disk, w.db.items[id].path)
  {
  }
}
