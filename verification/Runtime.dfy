// The dispatcher's operations (src/daemon/runtime.rs).
module Runtime {
  import opened Paths
  import opened Tables
  import opened Disk
  import opened World
  import opened MergeMove
  import opened Daemon

  // What Drive answers while one operation runs.
  datatype Reply = Accepted | Forbidden(unlinked: bool) | Failed
  datatype Answers = Answers(
    root: string,                 // the mapped folder
    first: Order,                 // which of several folders of one name is listed first
    newId: string -> string,      // the id a node created for that path gets
    lists: string -> bool,        // whether listing that folder succeeds
    creates: string -> bool,      // whether creating a folder at that path succeeds
    reply: Reply,                 // the engine call itself
    retryAt: nat -> int)          // when an operation that failed is due again

  type Order = f: set<string> -> string | forall s :: s != {} ==> f(s) in s ghost witness s => SomeOf(s)

  ghost function SomeOf(s: set<string>): (x: string)
    ensures s != {} ==> x in s
  {
    if s == {} then "" else var x :| x in s; x
  }

  // The writes of an operation, and whether it succeeds.
  datatype Effect = Effect(acts: seq<Act>, ok: bool)

  // `parent_rel.split('/').filter(|s| !s.is_empty())`
  function Segments(rel: string): (s: seq<string>)
    decreases |rel|
  {
    if rel == "" then []
    else Segments(ParentDir(rel)) + if FileName(rel) == "" then [] else [FileName(rel)]
  }

  // `persist_dir`
  ghost function PersistActs(w: World, rel: string, rid: string, now: int): seq<Act> {
    var here := FindPath(w.db, rel);
    if here.None? then [InsertItem(Row(rel, Dir, Some(rid), None, None, now, Synced, None))]
    else if w.db.items[here.value].remoteId != Some(rid) then [LinkRemote(here.value, rid)]
    else []
  }

  function FolderNode(name: string, parent: string): DriveNode {
    DriveNode(name, [parent], true, "", false)
  }

  // `list_children(parent)`, searched for a folder of that name.
  function FoldersNamed(drive: map<string, DriveNode>, parent: string, name: string): set<string> {
    set id | id in drive && drive[id].folder && !drive[id].trashed && drive[id].name == name &&
        parent in drive[id].parents
  }

  function FindFolder(drive: map<string, DriveNode>, parent: string, name: string, a: Answers): (r: Option<string>)
    ensures r.Some? ==> r.value in FoldersNamed(drive, parent, name)
    ensures r.None? ==> FoldersNamed(drive, parent, name) == {}
  {
    var hits := FoldersNamed(drive, parent, name);
    if hits == {} then None else Some(a.first(hits))
  }

  // One turn of the loop in `ensure_remote_folder`: the id it ends at, None if a request fails.
  function SegmentId(drive: map<string, DriveNode>, current: string, rel: string, seg: string,
          a: Answers): Option<string> {
    if !a.lists(current) then None
    else
      match FindFolder(drive, current, seg, a)
      case Some(id) => Some(id)
      case None => if a.creates(rel) then Some(a.newId(rel)) else None
  }

  // ... its writes ...
  ghost function SegmentActs(w: World, current: string, rel: string, seg: string, a: Answers, now: int): seq<Act> {
    match SegmentId(w.drive, current, rel, seg, a)
    case None => []
    case Some(id) =>
      (if FindFolder(w.drive, current, seg, a).Some? then [] else [CreateNode(id, FolderNode(seg, current))])
      + PersistActs(w, rel, id, now)
  }

  // ... and Drive after it.
  function SegmentDrive(drive: map<string, DriveNode>, current: string, rel: string, seg: string, a: Answers)
    : map<string, DriveNode>
  {
    if SegmentId(drive, current, rel, seg, a).None? || FindFolder(drive, current, seg, a).Some? then drive
    else drive[a.newId(rel) := FolderNode(seg, current)]
  }

  // `ensure_remote_folder`: the writes up to the end or the first failure, and the id of the last segment.
  ghost function EnsureActs(w: World, current: string, done: string, segs: seq<string>, a: Answers, now: int): seq<Act>
    decreases |segs|
  {
    if segs == [] then []
    else
      var rel := Join(done, segs[0]);
      match SegmentId(w.drive, current, rel, segs[0], a)
      case None => []
      case Some(id) =>
        var first := SegmentActs(w, current, rel, segs[0], a, now);
        first + EnsureActs(Run(w, first), id, rel, segs[1..], a, now)
  }

  function EnsuredId(drive: map<string, DriveNode>, current: string, done: string, segs: seq<string>,
          a: Answers): Option<string>
    decreases |segs|
  {
    if segs == [] then Some(current)
    else
      var rel := Join(done, segs[0]);
      match SegmentId(drive, current, rel, segs[0], a)
      case None => None
      case Some(id) => EnsuredId(SegmentDrive(drive, current, rel, segs[0], a), id, rel, segs[1..], a)
  }

  ghost function FolderFor(w: World, rel: string, a: Answers, now: int): seq<Act> {
    EnsureActs(w, a.root, "", Segments(rel), a, now)
  }

  function FolderId(drive: map<string, DriveNode>, rel: string, a: Answers): Option<string> {
    EnsuredId(drive, a.root, "", Segments(rel), a)
  }

  ghost function UploadEffect(w: World, id: nat, a: Answers, now: int): Effect
    requires id in w.db.items
  {
    var row := w.db.items[id];
    if !IsFile(w.disk, row.path) then Effect([], true)
    else
      var bytes := w.disk[row.path].bytes;
      if row.md5 == Some(Md5(bytes)) && row.size == Some(|bytes|) then Effect([], true)
      else
        match row.remoteId
        case Some(rid) =>
          if a.reply.Accepted? then
            Effect(UpdateActs(id, rid, bytes, now), true)
          else Effect([Mark(rid), Unmark(rid)], false)
        case None =>
          var folder, parent := FolderFor(w, ParentDir(row.path), a, now), FolderId(w.drive, ParentDir(row.path), a);
          if parent.Some? && a.reply.Accepted? then
            Effect(folder + FirstUpload(id, a.newId(row.path), row.path, bytes, parent.value, now), true)
          else Effect(folder, false)
  }

  function FirstUpload(id: nat, rid: string, path: string, bytes: Bytes, parent: string, now: int): seq<Act> {
    [CreateNode(rid, DriveNode(FileName(path), [parent], false, bytes, false))] + RecordUpload(id, rid, bytes, now)
  }

  function RecordUpload(id: nat, rid: string, bytes: Bytes, now: int): seq<Act> {
    [Mark(rid), LinkRemote(id, rid), Fingerprint(id, |bytes|, Md5(bytes), now), Unmark(rid)]
  }

  function UpdateActs(id: nat, rid: string, bytes: Bytes, now: int): seq<Act> {
    [Mark(rid), PutContent(rid, bytes), Fingerprint(id, |bytes|, Md5(bytes), now), Unmark(rid)]
  }

  function DownloadActs(id: nat, rel: string, bytes: Bytes, now: int): seq<Act> {
    [MakeDirs(ParentDir(rel)), WriteFile(rel, bytes), Fingerprint(id, |bytes|, Md5(bytes), now)]
  }

  ghost function DownloadEffect(w: World, id: nat, rid: string, rel: string, a: Answers, now: int): Effect
    requires id in w.db.items
  {
    if !MkdirOk(w.disk, ParentDir(rel)) then Effect([], false)
    else if !a.reply.Accepted? || rid !in w.drive || IsDir(w.disk, rel) then Effect([MakeDirs(ParentDir(rel))], false)
    else
      var bytes := w.drive[rid].bytes;
      Effect(DownloadActs(id, rel, bytes, now) +
          (if w.db.items[id].remoteId != Some(rid) then [LinkRemote(id, rid)] else []), true)
  }

  ghost function DeleteRemoteEffect(w: World, id: nat, a: Answers): Effect
    requires id in w.db.items
  {
    match w.db.items[id].remoteId
    case None => Effect([DeleteItem(id)], true)
    case Some(rid) =>
      match a.reply
      case Accepted => Effect([Mark(rid), TrashNode(rid), DeleteItem(id), Unmark(rid)], true)
      case Forbidden(true) => Effect([Mark(rid), UnlinkNode(rid), DeleteItem(id), Unmark(rid)], true)
      case Forbidden(false) => Effect([Mark(rid), Lifecycle(id, Skipped), Unmark(rid)], true)
      case Failed => Effect([Mark(rid), Unmark(rid)], false)
  }

  ghost function DeleteLocalEffect(w: World, id: nat, tombstone: bool, now: int): Effect
    requires id in w.db.items
  {
    var row := w.db.items[id];
    if (row.kind.File? && IsDir(w.disk, row.path)) || (row.kind.Dir? && IsFile(w.disk, row.path)) then Effect([], false)
    else Effect([RemoveTree(row.path), if tombstone && row.kind.File? then Tombstone(id, Some(now))
        else DeleteItem(id)], true)
  }

  ghost function RenameRemoteEffect(w: World, id: nat, newRel: string, a: Answers, now: int): Effect
    requires id in w.db.items
  {
    var row := w.db.items[id];
    match row.remoteId
    case None => Effect([DeleteItem(id)], true)
    case Some(rid) =>
      var folder, parent := FolderFor(w, ParentDir(newRel), a, now), FolderId(w.drive, ParentDir(newRel), a);
      if parent.None? then Effect(folder, false)
      else if a.reply.Accepted? then Effect(folder + MoveActs(id, row, rid, parent.value, newRel), true)
      else Effect(folder + [Mark(rid), Unmark(rid)], false)
  }

  function MoveActs(id: nat, row: Row, rid: string, parent: string, newRel: string): seq<Act> {
    [Mark(rid), MoveNode(rid, parent, FileName(newRel)),
     if row.kind.Dir? then RepathTree(row.path, newRel) else Repath(id, newRel), Unmark(rid)]
  }

  ghost function RenameLocalEffect(w: World, id: nat, newRel: string): Effect
    requires id in w.db.items
  {
    var path := w.db.items[id].path;
    if !MkdirOk(w.disk, ParentDir(newRel)) then Effect([], false)
    else
      var d := MkdirAll(w.disk, ParentDir(newRel));
      var made := MakeDirs(ParentDir(newRel));
      match RenameOutcome(d, path, newRel)
      case Done => Effect([made, MoveLocal(path, newRel), RepathTree(path, newRel)], true)
      case NotFound => Effect([made, RepathTree(path, newRel)], true)
      case NotEmpty =>
        if Mergeable(d, path, newRel) then Effect([made, MoveLocal(path, newRel), RepathTree(path, newRel)], true)
        else Effect([made], false)
      case Refused => Effect([made], false)
  }

  ghost function CreateDirLocalEffect(w: World, id: nat): Effect
    requires id in w.db.items
  {
    var path := w.db.items[id].path;
    if MkdirOk(w.disk, path) then Effect([MakeDirs(path), Lifecycle(id, Synced)], true) else Effect([], false)
  }

  ghost function WriteShortcutEffect(w: World, id: nat, body: Bytes): Effect
    requires id in w.db.items
  {
    var path := w.db.items[id].path;
    if !MkdirOk(w.disk, ParentDir(path)) then Effect([], false)
    else if IsDir(w.disk, path) then Effect([MakeDirs(ParentDir(path))], false)
    else Effect([MakeDirs(ParentDir(path)), WriteFile(path, body)], true)
  }

  // `execute`
  ghost function ExecEffect(w: World, id: nat, op: Operation, a: Answers, now: int): Effect
    requires id in w.db.items
  {
    var path := w.db.items[id].path;
    match op
    case Upload => UploadEffect(w, id, a, now)
    case Download(rid, _, _, rel) => DownloadEffect(w, id, rid, rel, a, now)
    case DeleteRemote => DeleteRemoteEffect(w, id, a)
    case DeleteLocal(tombstone) => DeleteLocalEffect(w, id, tombstone, now)
    case CreateDirRemote => Effect(FolderFor(w, path, a, now), FolderId(w.drive, path, a).Some?)
    case CreateDirLocal => CreateDirLocalEffect(w, id)
    case WriteShortcut(body) => WriteShortcutEffect(w, id, body)
    case RenameRemote(newRel) => RenameRemoteEffect(w, id, newRel, a, now)
    case RenameLocal(newRel) => RenameLocalEffect(w, id, newRel)
    case MarkConflict => Effect([], true)
  }

  // ---- the methods -----------------------------------------------------------------------

  method PersistDir(d: Daemon, rel: string, rid: string, now: int)
    requires Valid(d.db.View())
    modifies d.db
    ensures Valid(d.db.View()) && d.View() == Run(old(d.View()), PersistActs(old(d.View()), rel, rid, now))
  {
    hide Run, Valid;
    RunShort(d.View());
    var here := d.db.GetByPath(rel);
    if here.None? {
      var _ := d.db.Insert(Row(rel, Dir, Some(rid), None, None, now, Synced, None));
    } else if d.db.items[here.value].remoteId != Some(rid) {
      d.db.SetRemoteId(here.value, rid);
    }
  }

  method EnsureSegment(d: Daemon, current: string, rel: string, seg: string, a: Answers,
          now: int) returns (id: Option<string>)
    requires Valid(d.db.View())
    modifies d.db, d.remote
    ensures Valid(d.db.View()) && id == SegmentId(old(d.remote.nodes), current, rel, seg, a)
    ensures d.View() == Run(old(d.View()), SegmentActs(old(d.View()), current, rel, seg, a, now))
    ensures d.remote.nodes == SegmentDrive(old(d.remote.nodes), current, rel, seg, a)
  {
    hide Run, Valid, PersistActs, FoldersNamed;
    ghost var w := d.View();
    RunShort(w);
    if !a.lists(current) { return None; }
    id := FindFolder(d.remote.nodes, current, seg, a);
    if id.None? {
      if !a.creates(rel) { return None; }
      id := Some(a.newId(rel));
      ghost var made := CreateNode(id.value, FolderNode(seg, current));
      d.remote.Perform(CreateNode(id.value, FolderNode(seg, current)));
      RunConcat(w, [made], PersistActs(d.View(), rel, id.value, now));
      PersistReadsRows(w, d.View(), rel, id.value, now);
    } else {
      assert [] + PersistActs(w, rel, id.value, now) == PersistActs(w, rel, id.value, now);
    }
    PersistDir(d, rel, id.value, now);
  }

  lemma PersistReadsRows(w: World, v: World, rel: string, rid: string, now: int)
    requires w.db == v.db
    ensures PersistActs(w, rel, rid, now) == PersistActs(v, rel, rid, now)
  {
  }

  // Walks the segments, reusing or creating one folder per turn; the first failing request ends it.
  method EnsureRemoteFolder(d: Daemon, rel: string, a: Answers, now: int) returns (folder: Option<string>)
    requires Valid(d.db.View())
    modifies d.db, d.remote
    ensures Valid(d.db.View()) && folder == FolderId(old(d.remote.nodes), rel, a)
    ensures d.View() == Run(old(d.View()), FolderFor(old(d.View()), rel, a, now))
  {
    hide Run, Valid, SegmentActs, Segments, SegmentId, SegmentDrive;
    ghost var w := d.View();
    RunShort(d.View());
    var current := a.root;
    var segs := Segments(rel);
    var cumulative := "";
    for k := 0 to |segs|
      invariant Valid(d.db.View())
      invariant EnsuredId(d.remote.nodes, current, cumulative, segs[k..], a) == FolderId(w.drive, rel, a)
      invariant Run(d.View(), EnsureActs(d.View(), current, cumulative, segs[k..], a, now)) ==
          Run(w, FolderFor(w, rel, a, now))
    {
      ghost var v := d.View();
      assert segs[k..][0] == segs[k] && segs[k..][1..] == segs[k + 1..];
      cumulative := Join(cumulative, segs[k]);
      ghost var first := SegmentActs(v, current, cumulative, segs[k], a, now);
      folder := EnsureSegment(d, current, cumulative, segs[k], a, now);
      if folder.None? {
        FailedSegment(v, current, cumulative, segs[k], a, now);
        RunShort(v);
        return;
      }
      RunConcat(v, first, EnsureActs(Run(v, first), folder.value, cumulative, segs[k + 1..], a, now));
      current := folder.value;
    }
    RunShort(d.View());
    folder := Some(current);
  }

  lemma FailedSegment(w: World, current: string, rel: string, seg: string, a: Answers, now: int)
    requires SegmentId(w.drive, current, rel, seg, a).None?
    ensures SegmentActs(w, current, rel, seg, a, now) == []
  {
  }

  method ExecUpload(d: Daemon, id: nat, a: Answers, now: int) returns (ok: bool)
    requires Valid(d.db.View()) && id in d.db.items
    modifies d.db, d.remote, d.inFlight
    ensures Valid(d.db.View())
    ensures Effect(UploadEffect(old(d.View()), id, a, now).acts, ok) == UploadEffect(old(d.View()), id, a, now)
    ensures d.View() == Run(old(d.View()), UploadEffect(old(d.View()), id, a, now).acts)
  {
    hide Run, Valid, FolderFor, FolderId, FirstUpload, UpdateActs, ParentDir;
    RunNone(d.View());
    var row := d.db.items[id];
    ok := true;
    if !IsFile(d.fs.nodes, row.path) { return; }
    var bytes := d.fs.nodes[row.path].bytes;
    if row.md5 == Some(Md5(bytes)) && row.size == Some(|bytes|) { return; }
    match row.remoteId {
      case Some(rid) =>
        ok := a.reply.Accepted?;
        if ok {
          UpdateContent(d, id, rid, bytes, now);
        } else {
          MarkOnly(d, rid);
        }
      case None => ok := UploadInto(d, id, row.path, bytes, a, now);
    }
  }

  // The folder is looked up or made, then the file goes into it.
  method UploadInto(d: Daemon, id: nat, path: string, bytes: Bytes, a: Answers, now: int) returns (ok: bool)
    requires Valid(d.db.View())
    modifies d.db, d.remote, d.inFlight
    ensures Valid(d.db.View())
    ensures ok == (FolderId(old(d.remote.nodes), ParentDir(path), a).Some? && a.reply.Accepted?)
    ensures var folder := FolderFor(old(d.View()), ParentDir(path), a, now);
      d.View() == Run(old(d.View()), if !ok then folder else
        folder + FirstUpload(id, a.newId(path), path, bytes, FolderId(old(d.remote.nodes), ParentDir(path), a).value,
            now))
  {
    hide Run, Valid, FolderFor, FolderId, FirstUpload, ParentDir;
    ghost var w := d.View();
    var parent := EnsureRemoteFolder(d, ParentDir(path), a, now);
    ok := parent.Some? && a.reply.Accepted?;
    if ok {
      RunConcat(w, FolderFor(w, ParentDir(path), a, now),
          FirstUpload(id, a.newId(path), path, bytes, parent.value, now));
      UploadNew(d, id, a.newId(path), path, bytes, parent.value, now);
    }
  }

  method Guard(d: Daemon, rid: string)
    modifies d.inFlight
    ensures d.View() == Step(old(d.View()), Mark(rid))
  {
    d.inFlight.Mark(rid);
  }

  method Release(d: Daemon, rid: string)
    modifies d.inFlight
    ensures d.View() == Step(old(d.View()), Unmark(rid))
  {
    d.inFlight.Unmark(rid);
  }

  predicate EngineCall(act: Act) {
    act.PutContent? || act.CreateNode? || act.MoveNode? || act.TrashNode? || act.UnlinkNode?
  }

  method CallEngine(d: Daemon, act: Act)
    requires EngineCall(act)
    modifies d.remote
    ensures d.View() == Step(old(d.View()), act)
  {
    d.remote.Perform(act);
  }

  method UploadNew(d: Daemon, id: nat, rid: string, path: string, bytes: Bytes, parent: string, now: int)
    requires Valid(d.db.View())
    modifies d.db, d.remote, d.inFlight
    ensures Valid(d.db.View()) && d.View() == Run(old(d.View()), FirstUpload(id, rid, path, bytes, parent, now))
  {
    hide Run, Valid, FirstUpload, RecordUpload, FileName;
    FirstUploadRuns(d.View(), id, rid, path, bytes, parent, now);
    d.remote.Perform(CreateNode(rid, DriveNode(FileName(path), [parent], false, bytes, false)));
    RecordNew(d, id, rid, bytes, now);
  }

  lemma {:induction false} FirstUploadRuns(w: World, id: nat, rid: string, path: string, bytes: Bytes, parent: string,
          now: int)
    ensures Run(w, FirstUpload(id, rid, path, bytes, parent, now)) ==
      Run(Step(w, CreateNode(rid, DriveNode(FileName(path), [parent], false, bytes, false))),
          RecordUpload(id, rid, bytes, now))
  {
    hide Run, RecordUpload, Step, FileName;
    var made := CreateNode(rid, DriveNode(FileName(path), [parent], false, bytes, false));
    RunOne(w, made);
    RunConcat(w, [made], RecordUpload(id, rid, bytes, now));
  }

  method RecordNew(d: Daemon, id: nat, rid: string, bytes: Bytes, now: int)
    requires Valid(d.db.View())
    modifies d.db, d.inFlight
    ensures Valid(d.db.View()) && d.View() == Run(old(d.View()), RecordUpload(id, rid, bytes, now))
  {
    hide Run, Valid, Step;
    RunFour(d.View(), Mark(rid), LinkRemote(id, rid), Fingerprint(id, |bytes|, Md5(bytes), now), Unmark(rid));
    Guard(d, rid);
    Link(d, id, rid);
    Print(d, id, bytes, now);
    Release(d, rid);
  }

  method Link(d: Daemon, id: nat, rid: string)
    requires Valid(d.db.View())
    modifies d.db
    ensures Valid(d.db.View()) && d.View() == Step(old(d.View()), LinkRemote(id, rid))
  {
    hide Valid;
    d.db.SetRemoteId(id, rid);
  }

  method Print(d: Daemon, id: nat, bytes: Bytes, now: int)
    requires Valid(d.db.View())
    modifies d.db
    ensures Valid(d.db.View()) && d.View() == Step(old(d.View()), Fingerprint(id, |bytes|, Md5(bytes), now))
  {
    hide Valid;
    d.db.UpdateFingerprint(id, |bytes|, Md5(bytes), now);
  }

  method UpdateContent(d: Daemon, id: nat, rid: string, bytes: Bytes, now: int)
    requires Valid(d.db.View())
    modifies d.db, d.remote, d.inFlight
    ensures Valid(d.db.View()) && d.View() == Run(old(d.View()), UpdateActs(id, rid, bytes, now))
  {
    hide Run, Valid, Step;
    RunFour(d.View(), Mark(rid), PutContent(rid, bytes), Fingerprint(id, |bytes|, Md5(bytes), now), Unmark(rid));
    Guard(d, rid);
    CallEngine(d, PutContent(rid, bytes));
    Print(d, id, bytes, now);
    Release(d, rid);
  }

  method ExecDownload(d: Daemon, id: nat, rid: string, rel: string, a: Answers, now: int) returns (ok: bool)
    requires Valid(d.db.View()) && id in d.db.items
    modifies d.db, d.fs
    ensures Valid(d.db.View())
    ensures Effect(DownloadEffect(old(d.View()), id, rid, rel, a, now).acts, ok) ==
        DownloadEffect(old(d.View()), id, rid, rel, a, now)
    ensures d.View() == Run(old(d.View()), DownloadEffect(old(d.View()), id, rid, rel, a, now).acts)
  {
    hide Run, Valid, MkdirAll, MkdirOk, ParentDir, DownloadActs;
    ghost var w := d.View();
    RunShort(w);
    var parent := ParentDir(rel);
    ok := MkdirOk(d.fs.nodes, parent);
    if !ok { return; }
    ok := a.reply.Accepted? && rid in d.remote.nodes && !IsDir(d.fs.nodes, rel);
    if !ok {
      d.fs.nodes := MkdirAll(d.fs.nodes, parent);
      return;
    }
    var linked := d.db.items[id].remoteId == Some(rid);
    var bytes := d.remote.nodes[rid].bytes;
    RunConcat(w, DownloadActs(id, rel, bytes, now), if linked then [] else [LinkRemote(id, rid)]);
    Fetch(d, id, rel, bytes, now);
    RunShort(d.View());
    if !linked {
      d.db.SetRemoteId(id, rid);
    }
  }

  method Fetch(d: Daemon, id: nat, rel: string, bytes: Bytes, now: int)
    requires Valid(d.db.View())
    modifies d.db, d.fs
    ensures Valid(d.db.View()) && d.View() == Run(old(d.View()), DownloadActs(id, rel, bytes, now))
  {
    hide Run, Valid, MkdirAll, ParentDir;
    ghost var w := d.View();
    RunThree(w, MakeDirs(ParentDir(rel)), WriteFile(rel, bytes), Fingerprint(id, |bytes|, Md5(bytes), now));
    d.fs.nodes := MkdirAll(d.fs.nodes, ParentDir(rel));
    ghost var w1 := d.View();
    assert w1 == Step(w, MakeDirs(ParentDir(rel)));
    d.fs.nodes := d.fs.nodes[rel := FileNode(bytes)];
    ghost var w2 := d.View();
    assert w2 == Step(w1, WriteFile(rel, bytes));
    d.db.UpdateFingerprint(id, |bytes|, Md5(bytes), now);
    assert d.View() == Step(w2, Fingerprint(id, |bytes|, Md5(bytes), now));
  }

  method ExecDeleteRemote(d: Daemon, id: nat, a: Answers) returns (ok: bool)
    requires Valid(d.db.View()) && id in d.db.items
    modifies d.db, d.remote, d.inFlight
    ensures Valid(d.db.View())
    ensures Effect(DeleteRemoteEffect(old(d.View()), id, a).acts, ok) == DeleteRemoteEffect(old(d.View()), id, a)
    ensures d.View() == Run(old(d.View()), DeleteRemoteEffect(old(d.View()), id, a).acts)
  {
    hide Run, Valid, DropRows;
    ok := true;
    match d.db.items[id].remoteId {
      case None =>
        RunOne(d.View(), DeleteItem(id));
        d.db.Delete(id);
      case Some(rid) =>
        match a.reply {
          case Accepted => Discard(d, id, rid, TrashNode(rid));
          case Forbidden(unlinked) =>
            if unlinked {
              Discard(d, id, rid, UnlinkNode(rid));
            } else {
              MarkSkipped(d, id, rid);
            }
          case Failed =>
            MarkOnly(d, rid);
            ok := false;
        }
    }
  }

  // Under the guard: the node goes, then its row.
  method Discard(d: Daemon, id: nat, rid: string, act: Act)
    requires Valid(d.db.View()) && (act.TrashNode? || act.UnlinkNode?)
    modifies d.db, d.remote, d.inFlight
    ensures Valid(d.db.View()) && d.View() == Run(old(d.View()), [Mark(rid), act, DeleteItem(id), Unmark(rid)])
  {
    hide Run, Valid, Step;
    RunFour(d.View(), Mark(rid), act, DeleteItem(id), Unmark(rid));
    Guard(d, rid);
    CallEngine(d, act);
    DropItem(d, id);
    Release(d, rid);
  }

  method DropItem(d: Daemon, id: nat)
    requires Valid(d.db.View())
    modifies d.db
    ensures Valid(d.db.View()) && d.View() == Step(old(d.View()), DeleteItem(id))
  {
    hide Valid, DropRows;
    d.db.Delete(id);
  }

  method MarkSkipped(d: Daemon, id: nat, rid: string)
    requires Valid(d.db.View())
    modifies d.db, d.inFlight
    ensures Valid(d.db.View()) && d.View() == Run(old(d.View()), [Mark(rid), Lifecycle(id, Skipped), Unmark(rid)])
  {
    hide Run, Valid, Tables.SetState;
    RunThree(d.View(), Mark(rid), Lifecycle(id, Skipped), Unmark(rid));
    d.inFlight.Mark(rid);
    d.db.SetState(id, Skipped);
    d.inFlight.Unmark(rid);
  }

  // The engine call failed: the guard comes and goes.
  method MarkOnly(d: Daemon, rid: string)
    requires Valid(d.db.View())
    modifies d.inFlight
    ensures Valid(d.db.View()) && d.View() == Run(old(d.View()), [Mark(rid), Unmark(rid)])
  {
    hide Run, Valid, Step;
    RunTwo(d.View(), Mark(rid), Unmark(rid));
    Guard(d, rid);
    Release(d, rid);
  }

  method ExecDeleteLocal(d: Daemon, id: nat, tombstone: bool, now: int) returns (ok: bool)
    requires Valid(d.db.View()) && id in d.db.items
    modifies d.db, d.fs
    ensures Valid(d.db.View())
    ensures Effect(DeleteLocalEffect(old(d.View()), id, tombstone, now).acts, ok) ==
        DeleteLocalEffect(old(d.View()), id, tombstone, now)
    ensures d.View() == Run(old(d.View()), DeleteLocalEffect(old(d.View()), id, tombstone, now).acts)
  {
    hide Run, Valid;
    RunShort(d.View());
    var row := d.db.items[id];
    ok := !((row.kind.File? && IsDir(d.fs.nodes, row.path)) || (row.kind.Dir? && IsFile(d.fs.nodes, row.path)));
    if !ok { return; }
    d.fs.nodes := Removed(d.fs.nodes, row.path);
    if tombstone && row.kind.File? {
      d.db.SetTrashed(id, Some(now));
    } else {
      d.db.Delete(id);
    }
  }

  method MoveOnDrive(d: Daemon, id: nat, row: Row, rid: string, parent: string, newRel: string)
    requires Valid(d.db.View())
    modifies d.db, d.remote, d.inFlight
    ensures Valid(d.db.View()) && d.View() == Run(old(d.View()), MoveActs(id, row, rid, parent, newRel))
  {
    hide Run, Valid, Step, FileName;
    ghost var repath := if row.kind.Dir? then RepathTree(row.path, newRel) else Repath(id, newRel);
    RunFour(d.View(), Mark(rid), MoveNode(rid, parent, FileName(newRel)), repath, Unmark(rid));
    Guard(d, rid);
    CallEngine(d, MoveNode(rid, parent, FileName(newRel)));
    RepathRow(d, id, row, newRel);
    Release(d, rid);
  }

  method RepathRow(d: Daemon, id: nat, row: Row, newRel: string)
    requires Valid(d.db.View())
    modifies d.db
    ensures Valid(d.db.View())
    ensures d.View() == Step(old(d.View()), if row.kind.Dir? then RepathTree(row.path, newRel) else Repath(id, newRel))
  {
    hide Valid, RenameRows, SetPath;
    if row.kind.Dir? {
      d.db.RenameSubtree(row.path, newRel);
    } else {
      d.db.SetRelativePath(id, newRel);
    }
  }

  method ExecRenameRemote(d: Daemon, id: nat, newRel: string, a: Answers, now: int) returns (ok: bool)
    requires Valid(d.db.View()) && id in d.db.items
    modifies d.db, d.remote, d.inFlight
    ensures Valid(d.db.View())
    ensures Effect(RenameRemoteEffect(old(d.View()), id, newRel, a, now).acts, ok) ==
        RenameRemoteEffect(old(d.View()), id, newRel, a, now)
    ensures d.View() == Run(old(d.View()), RenameRemoteEffect(old(d.View()), id, newRel, a, now).acts)
  {
    hide Run, Valid, FolderFor, FolderId, RenameRows, ParentDir, MoveActs, DropRows;
    ghost var w := d.View();
    var row := d.db.items[id];
    ok := true;
    match row.remoteId {
      case None =>
        RunOne(w, DeleteItem(id));
        d.db.Delete(id);
      case Some(rid) =>
        var parent := EnsureRemoteFolder(d, ParentDir(newRel), a, now);
        ghost var folder := FolderFor(w, ParentDir(newRel), a, now);
        ok := parent.Some? && a.reply.Accepted?;
        if ok {
          RunConcat(w, folder, MoveActs(id, row, rid, parent.value, newRel));
          MoveOnDrive(d, id, row, rid, parent.value, newRel);
        } else if parent.Some? {
          RunConcat(w, folder, [Mark(rid), Unmark(rid)]);
          MarkOnly(d, rid);
        }
    }
  }

  // A merge that fails half-way leaves a tree from which the same move still leads to the same end.
  method ExecRenameLocal(d: Daemon, id: nat, newRel: string) returns (ok: bool)
    requires Valid(d.db.View()) && id in d.db.items && Tree(d.fs.nodes)
    requires newRel != "" && !Below(d.db.items[id].path, newRel)
    modifies d.db, d.fs
    ensures Valid(d.db.View())
    ensures ok == RenameLocalEffect(old(d.View()), id, newRel).ok
    ensures ok ==> d.View() == Run(old(d.View()), RenameLocalEffect(old(d.View()), id, newRel).acts)
    ensures !ok ==> d.db.View() == old(d.db.View())
    ensures !ok ==>
      var path, made := old(d.db.items[id].path), MkdirAll(old(d.fs.nodes), ParentDir(newRel));
      d.fs.nodes == old(d.fs.nodes) || MoveTree(d.fs.nodes, path, newRel) == MoveTree(made, path, newRel)
  {
    hide Run, Valid, MkdirAll, MkdirOk, ParentDir, RenameRows, MoveTree, Mergeable, Tree;
    ghost var w := d.View();
    RunShort(w);
    var path := d.db.items[id].path;
    ok := MkdirOk(d.fs.nodes, ParentDir(newRel));
    if !ok { return; }
    MkdirKeepsTree(d.fs.nodes, ParentDir(newRel));
    d.fs.nodes := MkdirAll(d.fs.nodes, ParentDir(newRel));
    ghost var made := d.fs.nodes;
    var r := d.fs.Rename(path, newRel);
    if r.NotEmpty? {
      NotEmptyMeansDirs(made, path, newRel);
      ghost var trace;
      ok, trace := MergeMoveDir(d.fs, path, newRel);
    } else {
      ok := r.Done? || r.NotFound?;
    }
    if ok {
      d.db.RenameSubtree(path, newRel);
    }
  }

  lemma NotEmptyMeansDirs(d: Disk, src: string, dst: string)
    requires Tree(d) && RenameOutcome(d, src, dst).NotEmpty? && !Below(src, dst)
    ensures IsDir(d, src) && src != "" && dst != "" && Incomparable(src, dst)
    ensures ParentDir(dst) == "" || IsDir(d, ParentDir(dst))
  {
  }

  lemma {:induction false} MkdirKeepsTree(d: Disk, p: string)
    requires Tree(d) && MkdirOk(d, p)
    ensures Tree(MkdirAll(d, p)) && (p == "" || IsDir(MkdirAll(d, p), p))
    ensures forall q :: q in d ==> q in MkdirAll(d, p) && MkdirAll(d, p)[q] == d[q]
    decreases |p|
  {
    hide Tree, ParentDir;
    if p != "" && p !in d {
      MkdirKeepsTree(d, ParentDir(p));
      var e := MkdirAll(d, ParentDir(p));
      MkdirAddsAncestors(d, ParentDir(p));
      assert !Within(ParentDir(p), p);
      FreshTree(e, p);
    }
  }

  method ExecCreateDirLocal(d: Daemon, id: nat) returns (ok: bool)
    requires Valid(d.db.View()) && id in d.db.items
    modifies d.db, d.fs
    ensures Valid(d.db.View()) && ok == CreateDirLocalEffect(old(d.View()), id).ok
    ensures d.View() == Run(old(d.View()), CreateDirLocalEffect(old(d.View()), id).acts)
  {
    hide Run, Valid, MkdirAll, MkdirOk;
    RunShort(d.View());
    var path := d.db.items[id].path;
    ok := MkdirOk(d.fs.nodes, path);
    if ok {
      d.fs.nodes := MkdirAll(d.fs.nodes, path);
      d.db.SetState(id, Synced);
    }
  }

  method ExecWriteShortcut(d: Daemon, id: nat, body: Bytes) returns (ok: bool)
    requires Valid(d.db.View()) && id in d.db.items
    modifies d.fs
    ensures Valid(d.db.View()) && ok == WriteShortcutEffect(old(d.View()), id, body).ok
    ensures d.View() == Run(old(d.View()), WriteShortcutEffect(old(d.View()), id, body).acts)
  {
    hide Run, Valid, MkdirAll, MkdirOk, ParentDir;
    RunShort(d.View());
    var path := d.db.items[id].path;
    ok := MkdirOk(d.fs.nodes, ParentDir(path));
    if ok {
      ok := !IsDir(d.fs.nodes, path);
      d.fs.nodes := MkdirAll(d.fs.nodes, ParentDir(path));
      if ok { d.fs.nodes := d.fs.nodes[path := FileNode(body)]; }
    }
  }

  // One operation, from the row it names to its last write.
  method Execute(d: Daemon, id: nat, op: Operation, a: Answers, now: int) returns (ok: bool)
    requires Valid(d.db.View()) && id in d.db.items && Tree(d.fs.nodes)
    requires op.RenameLocal? ==> op.newRel != "" && !Below(d.db.items[id].path, op.newRel)
    modifies d.db, d.fs, d.remote, d.inFlight
    ensures Valid(d.db.View())
    ensures ok == ExecEffect(old(d.View()), id, op, a, now).ok
    ensures ok || !op.RenameLocal? ==> d.View() == Run(old(d.View()), ExecEffect(old(d.View()), id, op, a, now).acts)
    ensures !ok && op.RenameLocal? ==> d.db.View() == old(d.db.View()) && d.View().inFlight == old(d.View()).inFlight
  {
    hide Run, Valid, MkdirAll, MkdirOk, ParentDir, UploadEffect, DownloadEffect, DeleteRemoteEffect, DeleteLocalEffect,
      RenameRemoteEffect, RenameLocalEffect, CreateDirLocalEffect, WriteShortcutEffect, FolderFor, FolderId, Tree, Step;
    ghost var w := d.View();
    RunShort(w);
    var path := d.db.items[id].path;
    ok := true;
    match op {
      case Upload => ok := ExecUpload(d, id, a, now);
      case Download(rid, _, _, rel) => ok := ExecDownload(d, id, rid, rel, a, now);
      case DeleteRemote => ok := ExecDeleteRemote(d, id, a);
      case DeleteLocal(tombstone) => ok := ExecDeleteLocal(d, id, tombstone, now);
      case CreateDirRemote =>
        var folder := EnsureRemoteFolder(d, path, a, now);
        ok := folder.Some?;
      case CreateDirLocal => ok := ExecCreateDirLocal(d, id);
      case WriteShortcut(body) => ok := ExecWriteShortcut(d, id, body);
      case RenameRemote(newRel) => ok := ExecRenameRemote(d, id, newRel, a, now);
      case RenameLocal(newRel) => ok := ExecRenameLocal(d, id, newRel);
      case MarkConflict =>
    }
  }
}
