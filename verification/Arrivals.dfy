// The other reports of Drive, end to end: new bytes for a file the index knows, documents and
// directories that moved, what comes back from the trash, and what is none of the daemon's business.
module Arrivals {
  import opened Paths
  import opened Tables
  import opened Disk
  import opened World
  import opened Continuous
  import opened Runtime
  import opened Invariants
  import opened Draining
  import opened Redelivery
  import opened RedeliveryCases
  import opened Idempotence
  import opened DiskIndex
  import opened Propagation

  // A report of a binary file the index has at that path.
  ghost predicate ReportsFile(w: World, c: Change, id: nat) {
    && EmptyQueue(w) && Live(w, c) && c.file.value.mime.Opaque? && c.file.value.md5.Some?
    && FindRemote(w.db, c.fileId) == Some(id) && w.db.items[id].trashedAt.None?
    && (c.path.Some? ==> c.path.value == w.db.items[id].path)
    && (w.db.items[id].md5 != c.file.value.md5 || w.db.items[id].size != Some(Default(c.file.value.size, 0)))
  }

  // An edit on Drive of a file whose local copy is missing or still the recorded one: Drive's bytes
  // replace it, and the row records them.
  lemma EditArrives(w: World, c: Change, now: int, id: nat, a: Answers, clock: nat -> int)
    requires ReportsFile(w, c, id) && a.reply.Accepted? && c.fileId in w.drive
    requires var row := w.db.items[id];
      IsFile(w.disk, row.path) && row.md5.Some? ==>
        Md5(w.disk[row.path].bytes) == row.md5.value && Md5(w.disk[row.path].bytes) != c.file.value.md5.value
    requires var path := w.db.items[id].path; MkdirOk(w.disk, ParentDir(path)) && !IsDir(w.disk, path)
    ensures var v, row, bytes := Delivered(w, c, now, a, clock), w.db.items[id], w.drive[c.fileId].bytes;
      && v.disk == MkdirAll(w.disk, ParentDir(row.path))[row.path := FileNode(bytes)] && v.drive == w.drive
      && v.db.items == w.db.items[id := row.(size := Some(|bytes|), md5 := Some(Md5(bytes)),
          syncedAt := clock(w.db.nextOp))]
  {
    hide Inv, Delivered, FindRemote, MkdirAll, MkdirOk, ParentDir, ExecOp, FindPath, MovedFileActs;
    var row, op := w.db.items[id], PullOf(c.file.value, w.db.items[id].path);
    assert RemoteActs(w, c, now) == Some([Queue(id, op, now)]);
    QueuedDrains(w, c, now, id, op, a, clock);
    hide RemoteActs, Deliver;
    var w1 := Deliver(w, c, now);
    assert ExecEffect(w1, id, op, a, clock(w.db.nextOp)).ok;
    hide ExecEffect;
    ExecDownloadOp(w1, w.db.nextOp, id, op, a, clock);
  }

  // Where the local copy is Drive's version already nothing happens.
  lemma EqualCopyIsLeft(w: World, c: Change, now: int, id: nat)
    requires ReportsFile(w, c, id) && IsFile(w.disk, w.db.items[id].path) && w.db.items[id].md5.Some?
    requires Md5(w.disk[w.db.items[id].path].bytes) == c.file.value.md5.value
    ensures Deliver(w, c, now) == w
  {
    hide Inv, FindRemote, FindPath, MovedFileActs, Run;
    RunShort(w);
  }

  // A native document renamed or moved on Drive: its shortcut moves.
  lemma NativeMoveArrives(w: World, c: Change, now: int, id: nat, rel: string, a: Answers, clock: nat -> int)
    requires EmptyQueue(w) && Live(w, c) && c.file.value.mime.NativeDoc?
    requires rel == ShortcutPath(Default(c.path, c.file.value.name), c.file.value.mime.ext)
    requires FindRemote(w.db, c.fileId) == Some(id) && Movable(w, id, rel)
    ensures var v, src := Delivered(w, c, now, a, clock), w.db.items[id].path;
      SubtreeMoved(w.disk, v.disk, src, rel) && RowsMoved(w.db, v.db.items, src, rel) && v.drive == w.drive
  {
    hide Inv, Delivered, FindRemote, Movable, SubtreeMoved, RowsMoved, ShortcutPath;
    Propagation.Apart(w, id, rel);
    RenameDrains(w, c, now, id, rel, a, clock);
  }

  // A file whose directory was renamed on Drive: the directory moves, with all that is in it.
  lemma DirectoryMovesAlong(w: World, c: Change, now: int, id: nat, dir: nat, p: string, a: Answers, clock: nat -> int)
    requires EmptyQueue(w) && Live(w, c) && c.file.value.mime.Opaque? && c.file.value.md5.Some? && c.path == Some(p)
    requires FindRemote(w.db, c.fileId) == Some(id) && w.db.items[id].trashedAt.None?
    requires CameAlong(w.db, c.file.value, w.db.items[id].path, p)
    requires dir in w.db.items && w.db.items[dir].path == ParentDir(w.db.items[id].path)
    requires Movable(w, dir, ParentDir(p))
    ensures var v, src, dst := Delivered(w, c, now, a, clock), ParentDir(w.db.items[id].path), ParentDir(p);
      SubtreeMoved(w.disk, v.disk, src, dst) && RowsMoved(w.db, v.db.items, src, dst) && v.drive == w.drive
  {
    hide Inv, Delivered, FindRemote, FindPath, Movable, SubtreeMoved, RowsMoved, ParentDir, CameAlong, RemoteActs;
    DirectoryQueues(w, c, now, id, dir, p);
    RenameDrains(w, c, now, dir, ParentDir(p), a, clock);
  }

  lemma DirectoryQueues(w: World, c: Change, now: int, id: nat, dir: nat, p: string)
    requires Inv(w.db) && Live(w, c) && c.file.value.mime.Opaque? && c.file.value.md5.Some? && c.path == Some(p)
    requires FindRemote(w.db, c.fileId) == Some(id) && w.db.items[id].trashedAt.None?
    requires CameAlong(w.db, c.file.value, w.db.items[id].path, p)
    requires dir in w.db.items && w.db.items[dir].path == ParentDir(w.db.items[id].path)
    ensures RemoteActs(w, c, now) == Some([Queue(dir, RenameLocal(ParentDir(p)), now)])
  {
    hide FindRemote, FindPath, ParentDir, EditedFileActs, Inv;
    InvIsValid(w.db);
    OnlyRowThere(w.db, dir);
    assert RenamedParent(w, c.file.value, w.db.items[id].path, p) == Some(dir);
    hide RenamedParent, CameAlong;
  }

  lemma OnlyRowThere(db: Db, i: nat)
    requires Valid(db) && i in db.items
    ensures FindPath(db, db.items[i].path) == Some(i)
    ensures forall j :: j in db.items && db.items[j].path == db.items[i].path ==> j == i
  {
    hide FindPath;
  }

  // A native document back from the trash: the shortcut is written again and the row is live.
  lemma NativeRestoreArrives(w: World, c: Change, now: int, id: nat, a: Answers, clock: nat -> int)
    requires EmptyQueue(w) && Live(w, c) && c.file.value.mime.NativeDoc?
    requires FindRemote(w.db, c.fileId) == Some(id) && w.db.items[id].trashedAt.Some?
    requires w.db.items[id].path == ShortcutPath(Default(c.path, c.file.value.name), c.file.value.mime.ext)
    requires var path := w.db.items[id].path; MkdirOk(w.disk, ParentDir(path)) && !IsDir(w.disk, path)
    ensures var v, row := Delivered(w, c, now, a, clock), w.db.items[id];
      && v.disk == MkdirAll(w.disk, ParentDir(row.path))[row.path := FileNode(c.file.value.mime.pointer)]
      && v.drive == w.drive && v.db.items == w.db.items[id := row.(trashedAt := None)]
  {
    hide Inv, Run, FindRemote, MkdirAll, MkdirOk, ParentDir, ShortcutPath, Drain, ExecOp;
    var path, op := w.db.items[id].path, WriteShortcut(c.file.value.mime.pointer);
    assert RemoteActs(w, c, now) == Some([Tombstone(id, None), Queue(id, op, now)]);
    hide RemoteActs;
    var w1, n := Deliver(w, c, now), w.db.nextOp;
    RunTwo(w, Tombstone(id, None), Queue(id, op, now));
    QueueAny(Step(w, Tombstone(id, None)), id, op, now);
    OnlyOne(w1, n, id, op, a, clock);
    ShortcutRuns(w1, n, id, c.file.value.mime.pointer, a, clock);
  }

  lemma ShortcutRuns(w: World, o: nat, id: nat, body: Bytes, a: Answers, clock: nat -> int)
    requires Holds(w.db, o, id, WriteShortcut(body))
    requires MkdirOk(w.disk, ParentDir(w.db.items[id].path)) && !IsDir(w.disk, w.db.items[id].path)
    ensures var v, path := ExecOp(w, o, a, clock), w.db.items[id].path;
      v.disk == MkdirAll(w.disk, ParentDir(path))[path := FileNode(body)] && v.drive == w.drive
      && v.db == FinishOp(w.db, o)
  {
    hide Run, MkdirAll, MkdirOk, ParentDir;
    var path := w.db.items[id].path;
    var acts := [MakeDirs(ParentDir(path)), WriteFile(path, body)];
    RunTwo(w, acts[0], acts[1]);
    FinishRuns(Run(w, acts), o);
  }

  // A download nothing stands in the way of: Drive's bytes are at its path, and the row, linked or not,
  // records them under that id.
  lemma DownloadLands(w: World, o: nat, id: nat, op: Operation, a: Answers, clock: nat -> int)
    requires Holds(w.db, o, id, op) && op.Download? && a.reply.Accepted? && op.remoteId in w.drive
    requires MkdirOk(w.disk, ParentDir(op.rel)) && !IsDir(w.disk, op.rel)
    ensures var v, bytes := ExecOp(w, o, a, clock), w.drive[op.remoteId].bytes;
      && v.disk == MkdirAll(w.disk, ParentDir(op.rel))[op.rel := FileNode(bytes)] && v.drive == w.drive
      && v.db.items == w.db.items[id := w.db.items[id].(remoteId := Some(op.remoteId), size := Some(|bytes|),
                                                        md5 := Some(Md5(bytes)), syncedAt := clock(o))]
      && v.db.ops == w.db.ops - {o}
  {
    hide Run, MkdirAll, MkdirOk, ParentDir, ExecOp, DownloadActs;
    assert ExecEffect(w, id, op, a, clock(o)).ok;
    hide ExecEffect;
    ExecDownloadOp(w, o, id, op, a, clock);
  }

  // Nothing happens for an id that is being written, or that the index does not know and that is gone
  // or trashed; for a folder or file whose path the index has under another id; for a folder or a
  // document that is where the index has it; for a binary file without a digest.
  lemma NothingHappens(w: World, c: Change, now: int)
    requires
      var known := FindRemote(w.db, c.fileId);
      || c.fileId in w.inFlight
      || (known.None? && c.removed)
      || (!c.removed && c.file.None?)
      || (!c.removed && c.file.Some? && (
            var f := c.file.value;
            || (known.None? && f.trashed)
            || (f.trashed && w.db.items[known.value].trashedAt.Some?)
            || (!f.trashed && !f.mime.NativeDoc? && known.None? && FindPath(w.db, Default(c.path, f.name)).Some?)
            || (!f.trashed && f.mime.FolderMime? && known.Some?
                && w.db.items[known.value].path == Default(c.path, f.name))
            || (!f.trashed && f.mime.NativeDoc? && known.Some? && w.db.items[known.value].trashedAt.None?
                && w.db.items[known.value].path == ShortcutPath(Default(c.path, f.name), f.mime.ext))
            || (!f.trashed && f.mime.Opaque? && f.md5.None?)))
    ensures Deliver(w, c, now) == w
  {
    hide FindRemote, FindPath, MovedFileActs, EditedFileActs, Run, ShortcutPath;
    RunShort(w);
  }
}
