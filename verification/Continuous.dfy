// Turning watcher events and Drive changes into table rows and queued operations
// (src/reconcile/continuous.rs).
module Continuous {
  import opened Paths
  import opened Tables
  import opened Disk
  import opened World
  import opened Daemon
  import opened Timestamps

  datatype Mime = FolderMime | NativeDoc(ext: string, pointer: Bytes) | Opaque

  // `FileSnapshot`
  datatype Snapshot = Snapshot(
    id: string, name: string, mime: Mime, size: Option<int>, md5: Option<Hash>, parents: seq<string>, trashed: bool)

  // `RemoteChange`
  datatype Change = Change(fileId: string, removed: bool, file: Option<Snapshot>, path: Option<string>)

  datatype WatchEvent =
    | Created(path: string)
    | Modified(path: string)
    | Deleted(path: string)
    | Renamed(from: string, to: string)

  function NewLocal(path: string, kind: Kind): Row {
    Row(path, kind, None, None, None, 0, PendingLocal, None)
  }

  function NewRemote(path: string, kind: Kind, rid: string, size: Option<int>, md5: Option<Hash>,
          state: LifeState): Row {
    Row(path, kind, Some(rid), size, md5, 0, state, None)
  }

  function Default<T>(o: Option<T>, t: T): T {
    match o case Some(v) => v case None => t
  }

  // `shortcut::relative_path`
  function ShortcutPath(base: string, ext: string): string { base + "." + ext }

  // ---- apply_remote, as the list of its writes -------------------------------------------

  // `None` stands for the error return: the INSERT for a native document is not guarded, and a
  // directory in the place of the conflict copy makes the rename fail.
  ghost function RemoteActs(w: World, c: Change, now: int): Option<seq<Act>> {
    var known := FindRemote(w.db, c.fileId);
    if c.fileId in w.inFlight then Some([])
    else if c.removed then
      Some(if known.Some? then [Queue(known.value, DeleteLocal(false), now)] else [])
    else if c.file.None? then Some([])
    else if c.file.value.trashed then Some(TrashActs(w, known, now))
    else
      match c.file.value.mime
      case FolderMime => Some(FolderActs(w, c, known, now))
      case NativeDoc(_, _) => NativeActs(w, c, known, now)
      case Opaque => if c.file.value.md5.Some? then FileActs(w, c, known, now) else Some([])
  }

  ghost function TrashActs(w: World, known: Option<nat>, now: int): seq<Act>
    requires known.Some? ==> known.value in w.db.items
  {
    if known.Some? && w.db.items[known.value].trashedAt.None? then
      [Queue(known.value, DeleteLocal(w.db.items[known.value].kind.File?), now)]
    else []
  }

  ghost function FolderActs(w: World, c: Change, known: Option<nat>, now: int): seq<Act>
    requires c.file.Some? && (known.Some? ==> known.value in w.db.items)
  {
    var rel := Default(c.path, c.file.value.name);
    match known
    case None =>
      if FindPath(w.db, rel).Some? then []
      else [InsertItem(NewRemote(rel, Dir, c.file.value.id, None, None, PendingLocal)),
            Queue(w.db.nextItem, CreateDirLocal, now)]
    case Some(id) =>
      if w.db.items[id].path != rel then [Queue(id, RenameLocal(rel), now)] else []
  }

  ghost function NativeActs(w: World, c: Change, known: Option<nat>, now: int): Option<seq<Act>>
    requires c.file.Some? && c.file.value.mime.NativeDoc? && (known.Some? ==> known.value in w.db.items)
  {
    var f := c.file.value;
    var rel := ShortcutPath(Default(c.path, f.name), f.mime.ext);
    match known
    case None =>
      if FindPath(w.db, rel).Some? then None
      else Some([InsertItem(NewRemote(rel, File, f.id, None, None, Skipped)),
                 Queue(w.db.nextItem, WriteShortcut(f.mime.pointer), now)])
    case Some(id) =>
      if w.db.items[id].path != rel then Some([Queue(id, RenameLocal(rel), now)])
      else if w.db.items[id].trashedAt.Some?
          then Some([Tombstone(id, None), Queue(id, WriteShortcut(f.mime.pointer), now)])
      else Some([])
  }

  ghost function FileActs(w: World, c: Change, known: Option<nat>, now: int): Option<seq<Act>>
    requires c.file.Some? && c.file.value.md5.Some? && (known.Some? ==> known.value in w.db.items)
  {
    var f := c.file.value;
    var md5, size := f.md5.value, Default(f.size, 0);
    match known
    case None =>
      var rel := Default(c.path, f.name);
      if FindPath(w.db, rel).Some? then Some([])
      else Some([InsertItem(NewRemote(rel, File, f.id, Some(size), Some(md5), PendingLocal)),
                 Queue(w.db.nextItem, Download(f.id, size, md5, rel), now)])
    case Some(id) =>
      var row := w.db.items[id];
      if row.trashedAt.Some? then Some([Tombstone(id, None), Queue(id, Download(f.id, size, md5, row.path), now)])
      else if c.path.Some? && c.path.value != row.path then Some(MovedFileActs(w, f, id, c.path.value, now))
      else if row.md5 == Some(md5) && row.size == Some(size) then Some([])
      else EditedFileActs(w, f, id, now)
  }

  // A moved path is either the file's own move or the rename of the directory it sits in.
  ghost function MovedFileActs(w: World, f: Snapshot, id: nat, path: string, now: int): seq<Act>
    requires id in w.db.items && f.md5.Some?
  {
    var row, size := w.db.items[id], Default(f.size, 0);
    var dir := RenamedParent(w, f, row.path, path);
    if dir.Some? then [Queue(dir.value, RenameLocal(ParentDir(path)), now)]
    else if row.md5 != f.md5 || row.size != Some(size) then
      [Queue(id, RenameLocal(path), now), Queue(id, Download(f.id, size, f.md5.value, path), now)]
    else [Queue(id, RenameLocal(path), now)]
  }

  ghost function RenamedParent(w: World, f: Snapshot, was: string, path: string): Option<nat> {
    var dir := FindPath(w.db, ParentDir(was));
    if ParentDir(was) != ParentDir(path) && ParentDir(was) != "" && f.parents != []
       && dir.Some? && w.db.items[dir.value].remoteId == Some(f.parents[0])
    then dir else None
  }

  // The bytes on Drive differ from the recorded ones: compare with what is on disk.
  ghost function EditedFileActs(w: World, f: Snapshot, id: nat, now: int): Option<seq<Act>>
    requires id in w.db.items && f.md5.Some?
  {
    var row := w.db.items[id];
    var pull := Queue(id, Download(f.id, Default(f.size, 0), f.md5.value, row.path), now);
    if IsFile(w.disk, row.path) && row.md5.Some? then
      var onDisk := Md5(w.disk[row.path].bytes);
      if onDisk == f.md5.value then Some([])
      else if onDisk != row.md5.value then
        var aside := ConflictPath(row.path, now);
        if IsDir(w.disk, aside) then None
        else Some([MoveLocal(row.path, aside), OpenConflict(id, row.path, aside, now), pull])
      else Some([pull])
    else Some([pull])
  }

  // ---- apply_local -----------------------------------------------------------------------

  // `enqueue_local_dir` and `enqueue_local_file`
  ghost function EntryActs(w: World, p: string, now: int): seq<Act> {
    var known := FindPath(w.db, p);
    if IsDir(w.disk, p) then
      if known.Some? then [] else [InsertItem(NewLocal(p, Dir)), Queue(w.db.nextItem, CreateDirRemote, now)]
    else if known.None? then [InsertItem(NewLocal(p, File)), Queue(w.db.nextItem, Upload, now)]
    else if w.db.items[known.value].state.Skipped? then []
    else [Queue(known.value, Upload, now)]
  }

  ghost function WalkActs(w: World, entries: seq<string>, now: int): seq<Act>
    decreases |entries|
  {
    if entries == [] then []
    else
      var first := EntryActs(w, entries[0], now);
      first + WalkActs(Run(w, first), entries[1..], now)
  }

  // `walk` is what the directory walk returns: the descendants of the event's path.
  ghost predicate IsWalk(d: Disk, p: string, walk: seq<string>) {
    forall q :: q in walk ==> q in d && Below(q, p)
  }

  // Where the event leaves something to look at.
  function Subject(e: WatchEvent): string {
    match e
    case Created(p) => p
    case Modified(p) => p
    case Deleted(p) => p
    case Renamed(_, to) => to
  }

  ghost function AppearedActs(w: World, p: string, walk: seq<string>, now: int): seq<Act> {
    if IsDir(w.disk, p) then WalkActs(w, [p] + walk, now)
    else if IsFile(w.disk, p) then EntryActs(w, p, now)
    else []
  }

  ghost function DeletedActs(w: World, p: string, now: int): seq<Act> {
    var known := FindPath(w.db, p);
    if known.None? || w.db.items[known.value].trashedAt.Some? then [CloseConflicts(p)]
    else if w.db.items[known.value].remoteId.Some? then [CloseConflicts(p), Queue(known.value, DeleteRemote, now)]
    else [CloseConflicts(p), DeleteItem(known.value)]
  }

  ghost function LocalActs(w: World, e: WatchEvent, walk: seq<string>, now: int): seq<Act> {
    match e
    case Created(p) => AppearedActs(w, p, walk, now)
    case Modified(p) => AppearedActs(w, p, walk, now)
    case Deleted(p) => DeletedActs(w, p, now)
    case Renamed(from, to) =>
      match FindPath(w.db, from)
      case None => AppearedActs(w, to, walk, now)
      case Some(id) =>
        if w.db.items[id].remoteId.None? then [Repath(id, to), Queue(id, Upload, now)]
        else [Queue(id, RenameRemote(to), now)]
  }

  // ---- the two entry points --------------------------------------------------------------

  method ApplyRemote(d: Daemon, c: Change, now: int) returns (ok: bool)
    requires Valid(d.db.View())
    modifies d.db, d.fs
    ensures Valid(d.db.View())
    ensures ok == RemoteActs(old(d.View()), c, now).Some?
    ensures d.View() == if ok then Run(old(d.View()), RemoteActs(old(d.View()), c, now).value) else old(d.View())
  {
    hide Run, Valid, FileActs, NativeActs, FolderActs;
    ghost var w := d.View();
    RunShort(w);
    ok := true;
    var echo := d.inFlight.Contains(c.fileId);
    if echo { return; }
    var known := d.db.GetByRemoteId(c.fileId);
    if c.removed {
      if known.Some? { d.db.Enqueue(known.value, DeleteLocal(false), now); }
      return;
    }
    if c.file.None? { return; }
    var f := c.file.value;
    if f.trashed {
      if known.Some? && d.db.items[known.value].trashedAt.None? {
        d.db.Enqueue(known.value, DeleteLocal(d.db.items[known.value].kind.File?), now);
      }
      return;
    }
    match f.mime {
      case FolderMime => ApplyFolder(d, c, f, known, now);
      case NativeDoc(_, _) => ok := ApplyNative(d, c, f, known, now);
      case Opaque => if f.md5.Some? { ok := ApplyFile(d, c, f, known, now); }
    }
  }

  // A new row and the operation it waits for; the INSERT fails where the path is taken.
  method Import(d: Daemon, row: Row, op: Operation, now: int) returns (ok: bool)
    requires Valid(d.db.View())
    modifies d.db
    ensures Valid(d.db.View()) && ok == FindPath(old(d.View()).db, row.path).None?
    ensures d.View() == if ok then Run(old(d.View()), [InsertItem(row), Queue(old(d.View()).db.nextItem, op, now)])
      else old(d.View())
  {
    hide Run, Valid, FindPath;
    ghost var w := d.View();
    RunTwo(w, InsertItem(row), Queue(w.db.nextItem, op, now));
    var id := d.db.Insert(row);
    if id.None? { return false; }
    assert d.View() == Step(w, InsertItem(row));
    d.db.Enqueue(id.value, op, now);
    ok := true;
  }

  // A cleared tombstone and the operation that brings the file back.
  method Revive(d: Daemon, id: nat, op: Operation, now: int)
    requires Valid(d.db.View())
    modifies d.db
    ensures Valid(d.db.View()) && d.View() == Run(old(d.View()), [Tombstone(id, None), Queue(id, op, now)])
  {
    hide Run, Valid;
    ghost var w := d.View();
    RunTwo(w, Tombstone(id, None), Queue(id, op, now));
    d.db.SetTrashed(id, None);
    assert d.View() == Step(w, Tombstone(id, None));
    d.db.Enqueue(id, op, now);
  }

  method ApplyFolder(d: Daemon, c: Change, f: Snapshot, known: Option<nat>, now: int)
    requires Valid(d.db.View()) && known == FindRemote(d.db.View(), c.fileId) && c.file == Some(f)
    modifies d.db
    ensures Valid(d.db.View())
    ensures d.View() == Run(old(d.View()), FolderActs(old(d.View()), c, known, now))
  {
    hide Run, Valid, FindPath;
    RunShort(d.View());
    var rel := Default(c.path, f.name);
    match known {
      case None =>
        var here := d.db.GetByPath(rel);
        if here.None? {
          var _ := Import(d, NewRemote(rel, Dir, f.id, None, None, PendingLocal), CreateDirLocal, now);
        }
      case Some(id) =>
        if d.db.items[id].path != rel { d.db.Enqueue(id, RenameLocal(rel), now); }
    }
  }

  method ApplyNative(d: Daemon, c: Change, f: Snapshot, known: Option<nat>, now: int) returns (ok: bool)
    requires Valid(d.db.View()) && known == FindRemote(d.db.View(), c.fileId) && c.file == Some(f) && f.mime.NativeDoc?
    modifies d.db
    ensures Valid(d.db.View())
    ensures ok == NativeActs(old(d.View()), c, known, now).Some?
    ensures d.View() == if ok then Run(old(d.View()), NativeActs(old(d.View()), c, known, now).value) else old(d.View())
  {
    hide Run, Valid, FindPath, FindRemote;
    RunShort(d.View());
    ok := true;
    var rel := ShortcutPath(Default(c.path, f.name), f.mime.ext);
    match known {
      case None =>
        ok := Import(d, NewRemote(rel, File, f.id, None, None, Skipped), WriteShortcut(f.mime.pointer), now);
      case Some(id) =>
        if d.db.items[id].path != rel {
          d.db.Enqueue(id, RenameLocal(rel), now);
        } else if d.db.items[id].trashedAt.Some? {
          Revive(d, id, WriteShortcut(f.mime.pointer), now);
        }
    }
  }

  method ApplyFile(d: Daemon, c: Change, f: Snapshot, known: Option<nat>, now: int) returns (ok: bool)
    requires Valid(d.db.View()) && known == FindRemote(d.db.View(), c.fileId) && c.file == Some(f) && f.md5.Some?
    modifies d.db, d.fs
    ensures Valid(d.db.View())
    ensures ok == FileActs(old(d.View()), c, known, now).Some?
    ensures d.View() == if ok then Run(old(d.View()), FileActs(old(d.View()), c, known, now).value) else old(d.View())
  {
    hide Run, Valid, EditedFileActs, MovedFileActs, FindPath, FindRemote;
    RunShort(d.View());
    ok := true;
    var md5, size := f.md5.value, Default(f.size, 0);
    match known {
      case None =>
        var rel := Default(c.path, f.name);
        var here := d.db.GetByPath(rel);
        if here.None? {
          var pull := Download(f.id, size, md5, rel);
          var _ := Import(d, NewRemote(rel, File, f.id, Some(size), Some(md5), PendingLocal), pull, now);
        }
      case Some(id) =>
        var row := d.db.items[id];
        if row.trashedAt.Some? {
          Revive(d, id, Download(f.id, size, md5, row.path), now);
        } else if c.path.Some? && c.path.value != row.path {
          ApplyMovedFile(d, f, id, c.path.value, now);
        } else if row.md5 != Some(md5) || row.size != Some(size) {
          ok := ApplyEditedFile(d, f, id, now);
        }
    }
  }

  method ApplyMovedFile(d: Daemon, f: Snapshot, id: nat, path: string, now: int)
    requires Valid(d.db.View()) && id in d.db.items && f.md5.Some?
    modifies d.db
    ensures Valid(d.db.View())
    ensures d.View() == Run(old(d.View()), MovedFileActs(old(d.View()), f, id, path, now))
  {
    hide Run, Valid;
    RunShort(d.View());
    var row, size := d.db.items[id], Default(f.size, 0);
    var was, parent := ParentDir(row.path), ParentDir(path);
    var dir := d.db.GetByPath(was);
    if was != parent && was != "" && f.parents != [] && dir.Some? &&
        d.db.items[dir.value].remoteId == Some(f.parents[0]) {
      d.db.Enqueue(dir.value, RenameLocal(parent), now);
      return;
    }
    d.db.Enqueue(id, RenameLocal(path), now);
    if row.md5 != f.md5 || row.size != Some(size) {
      d.db.Enqueue(id, Download(f.id, size, f.md5.value, path), now);
    }
  }

  method ApplyEditedFile(d: Daemon, f: Snapshot, id: nat, now: int) returns (ok: bool)
    requires Valid(d.db.View()) && id in d.db.items && f.md5.Some?
    modifies d.db, d.fs
    ensures Valid(d.db.View())
    ensures ok == EditedFileActs(old(d.View()), f, id, now).Some?
    ensures d.View() == if ok then Run(old(d.View()), EditedFileActs(old(d.View()), f, id, now).value)
        else old(d.View())
  {
    hide MoveTree, ConflictPath, Run, Valid, FindPath, FindRemote, AddConflict, Step;
    ghost var w := d.View();
    var row := d.db.items[id];
    var pull := Download(f.id, Default(f.size, 0), f.md5.value, row.path);
    RunOne(w, Queue(id, pull, now));
    if IsFile(d.fs.nodes, row.path) && row.md5.Some? {
      var onDisk := Md5(d.fs.nodes[row.path].bytes);
      if onDisk == f.md5.value {
        RunNone(w);
        return true;
      }
      if onDisk != row.md5.value {
        var aside := ConflictPath(row.path, now);
        if IsDir(d.fs.nodes, aside) { return false; }
        RunThree(w, MoveLocal(row.path, aside), OpenConflict(id, row.path, aside, now), Queue(id, pull, now));
        Conflicting(d, id, row.path, aside, now);
      }
    }
    QueueOp(d, id, pull, now);
    ok := true;
  }

  method QueueOp(d: Daemon, id: nat, op: Operation, now: int)
    requires Valid(d.db.View())
    modifies d.db
    ensures Valid(d.db.View()) && d.View() == Step(old(d.View()), Queue(id, op, now))
  {
    hide Valid;
    d.db.Enqueue(id, op, now);
  }

  // `open_conflict`
  method Conflicting(d: Daemon, id: nat, path: string, aside: string, now: int)
    requires Valid(d.db.View())
    modifies d.db, d.fs
    ensures Valid(d.db.View())
    ensures d.View() == Step(Step(old(d.View()), MoveLocal(path, aside)), OpenConflict(id, path, aside, now))
  {
    hide MoveTree, Valid;
    d.fs.nodes := MoveTree(d.fs.nodes, path, aside);
    d.db.InsertConflict(id, path, aside, now);
  }

  method ApplyLocal(d: Daemon, e: WatchEvent, walk: seq<string>, now: int)
    requires Valid(d.db.View()) && IsWalk(d.fs.nodes, Subject(e), walk)
    modifies d.db
    ensures Valid(d.db.View())
    ensures d.View() == Run(old(d.View()), LocalActs(old(d.View()), e, walk, now))
  {
    hide Run, Valid, AppearedActs, DeletedActs, FindRemote, SetPath;
    match e {
      case Created(p) => Appeared(d, p, walk, now);
      case Modified(p) => Appeared(d, p, walk, now);
      case Deleted(p) => Disappeared(d, p, now);
      case Renamed(from, to) =>
        var known := d.db.GetByPath(from);
        match known {
          case None => Appeared(d, to, walk, now);
          case Some(id) =>
            if d.db.items[id].remoteId.None? {
              RunTwo(d.View(), Repath(id, to), Queue(id, Upload, now));
              d.db.SetRelativePath(id, to);
              d.db.Enqueue(id, Upload, now);
            } else {
              RunOne(d.View(), Queue(id, RenameRemote(to), now));
              d.db.Enqueue(id, RenameRemote(to), now);
            }
        }
    }
  }

  method Disappeared(d: Daemon, p: string, now: int)
    requires Valid(d.db.View())
    modifies d.db
    ensures Valid(d.db.View())
    ensures d.View() == Run(old(d.View()), DeletedActs(old(d.View()), p, now))
  {
    hide Run, Valid, FindRemote, DropRows;
    RunShort(d.View());
    var known := d.db.GetByPath(p);
    d.db.CleanupOnLocalDelete(p);
    if known.Some? && d.db.items[known.value].trashedAt.None? {
      if d.db.items[known.value].remoteId.Some? {
        d.db.Enqueue(known.value, DeleteRemote, now);
      } else {
        d.db.Delete(known.value);
      }
    }
  }

  method Appeared(d: Daemon, p: string, walk: seq<string>, now: int)
    requires Valid(d.db.View())
    modifies d.db
    ensures Valid(d.db.View())
    ensures d.View() == Run(old(d.View()), AppearedActs(old(d.View()), p, walk, now))
  {
    if IsDir(d.fs.nodes, p) {
      var entries := [p] + walk;
      ghost var w := d.View();
      for k := 0 to |entries|
        invariant Valid(d.db.View()) && d.fs.nodes == w.disk
        invariant Run(w, WalkActs(w, entries, now)) == Run(d.View(), WalkActs(d.View(), entries[k..], now))
      {
        ghost var v := d.View();
        RunConcat(v, EntryActs(v, entries[k], now),
            WalkActs(Run(v, EntryActs(v, entries[k], now)), entries[k..][1..], now));
        assert entries[k..][1..] == entries[k + 1..];
        EnqueueEntry(d, entries[k], now);
      }
    } else if IsFile(d.fs.nodes, p) {
      EnqueueEntry(d, p, now);
    }
  }

  method EnqueueEntry(d: Daemon, p: string, now: int)
    requires Valid(d.db.View())
    modifies d.db
    ensures Valid(d.db.View())
    ensures d.View() == Run(old(d.View()), EntryActs(old(d.View()), p, now))
  {
    hide Run, Valid, FindPath;
    RunShort(d.View());
    var known := d.db.GetByPath(p);
    if IsDir(d.fs.nodes, p) {
      if known.None? {
        var _ := Import(d, NewLocal(p, Dir), CreateDirRemote, now);
      }
    } else if known.None? {
      var _ := Import(d, NewLocal(p, File), Upload, now);
    } else if d.db.items[known.value].state != Skipped {
      d.db.Enqueue(known.value, Upload, now);
    }
  }
}
