// Re-delivery is idempotent up to the drain, for every change the poller can report.
module Idempotence {
  import opened Paths
  import opened Tables
  import opened Disk
  import opened World
  import opened Continuous
  import opened Runtime
  import opened Invariants
  import opened Draining
  import opened Redelivery
  import opened RedeliveryCases
  import opened Timestamps

  // A tombstone is restored where it was deleted, and nothing has taken its place on disk.
  ghost predicate TombstoneUnmoved(w: World, c: Change) {
    var known := FindRemote(w.db, c.fileId);
    known.Some? && w.db.items[known.value].trashedAt.Some? && c.file.Some? && !c.file.value.trashed ==>
      var path := w.db.items[known.value].path;
      match c.file.value.mime
      case FolderMime => true
      case NativeDoc(ext, _) => ShortcutPath(Default(c.path, c.file.value.name), ext) == path
      case Opaque => (c.path.Some? ==> c.path.value == path) && !IsFile(w.disk, path)
  }

  // What the theorem assumes before the first delivery; the queue may hold anything.
  ghost predicate Reported(w: World, c: Change, now: int) {
    && Inv(w.db) && Tree(w.disk)
    && (c.file.Some? ==> c.file.value.id == c.fileId)
    && TombstoneUnmoved(w, c)
    && (FindRemote(w.db, c.fileId).Some? ==> WellNamed(w.db.items[FindRemote(w.db, c.fileId).value].path))
    && RemoteActs(w, c, now).Some?
  }

  // ... and the same with nothing queued.
  ghost predicate Quiescent(w: World, c: Change, now: int) {
    EmptyQueue(w) && Reported(w, c, now)
  }

  ghost predicate Settles(w: World, c: Change, now: int, Q: seq<(nat, Operation)>, R: seq<(nat, Operation)>) {
    FirstDelivery(w, Deliver(w, c, now), c, Q, R)
  }

  function Acts(Q: seq<(nat, Operation)>, now: int): seq<Act> {
    if |Q| == 1 then [Queue(Q[0].0, Q[0].1, now)]
    else if |Q| == 2 then [Queue(Q[0].0, Q[0].1, now), Queue(Q[0].0, Q[1].1, now)]
    else []
  }

  lemma QueueOnlySettles(w: World, c: Change, now: int, Q: seq<(nat, Operation)>)
    requires Quiescent(w, c, now) && KnownShape(Q)
    requires forall i :: 0 <= i < |Q| ==> Q[i].0 in w.db.items
    requires forall t :: RemoteActs(w, c, t) == Some(Acts(Q, t))
    ensures Settles(w, c, now, Q, Q)
  {
    hide RemoteActs, Run, EmptyQueue, Tree, TombstoneUnmoved, FirstDelivery, Deliver;
    QueueOnlyCase(w, c, now, Q);
  }

  lemma ImportSettles(w: World, c: Change, now: int, row: Row, op: Operation)
    requires Quiescent(w, c, now) && c.fileId !in w.inFlight
    requires !c.removed && c.file.Some? && !c.file.value.trashed && FindRemote(w.db, c.fileId).None?
    requires RemoteActs(w, c, now) == Some([InsertItem(row), Queue(w.db.nextItem, op, now)])
    requires FindPath(w.db, row.path).None? && row.remoteId == Some(c.fileId)
    ensures Settles(w, c, now, [(w.db.nextItem, op)], [])
  {
    hide RemoteActs, Run, Inv, Tree, TombstoneUnmoved, FindRemote, FindPath, FirstDelivery, Deliver;
    ImportCase(w, c, now, row, op);
  }

  // A restored shortcut: cleared and written once; afterwards the row matches the report.
  lemma NativeRestoreSettles(w: World, c: Change, now: int, id: nat)
    requires Quiescent(w, c, now) && c.fileId !in w.inFlight && !c.removed && c.file.Some? && !c.file.value.trashed
    requires FindRemote(w.db, c.fileId) == Some(id) && w.db.items[id].trashedAt.Some? && c.file.value.mime.NativeDoc?
    ensures Settles(w, c, now, [(id, WriteShortcut(c.file.value.mime.pointer))], [])
  {
    hide Run, Inv, Tree, FindRemote, FindPath, ShortcutPath, Queued;
    var op := WriteShortcut(c.file.value.mime.pointer);
    RunTwo(w, Tombstone(id, None), Queue(id, op, now));
    var w1 := Deliver(w, c, now);
    assert RemoteActs(w, c, now) == NativeActs(w, c, Some(id), now);
    QueueAny(Step(w, Tombstone(id, None)), id, op, now);
    SameRemotes(w, w1, c.fileId);
    forall t ensures RemoteActs(w1, c, t) == Some([]) {
      assert NativeActs(w1, c, Some(id), t) == Some([]);
    }
  }

  lemma FileRestoreSettles(w: World, c: Change, now: int, id: nat) returns (Q: seq<(nat, Operation)>,
          R: seq<(nat, Operation)>)
    requires Quiescent(w, c, now) && c.fileId !in w.inFlight && !c.removed && c.file.Some? && !c.file.value.trashed
    requires FindRemote(w.db, c.fileId) == Some(id) && w.db.items[id].trashedAt.Some?
    requires c.file.value.mime.Opaque? && c.file.value.md5.Some?
    ensures Settles(w, c, now, Q, R)
  {
    hide Run, Inv, Tree, FindRemote, FindPath, FirstDelivery;
    RestoreCase(w, c, now, id);
    var f := c.file.value;
    Q := [(id, Download(f.id, Default(f.size, 0), f.md5.value, w.db.items[id].path))];
    R := if FirstDelivery(w, Deliver(w, c, now), c, Q, Q) then Q else [];
    RunTwo(w, Tombstone(id, None), Queue(id, Q[0].1, now));
    assert RemoteActs(w, c, now).value[1] == Queue(id, Q[0].1, now);
  }

  // ---- a conflict ------------------------------------------------------------------------

  predicate IsNews(row: Row, f: Snapshot) {
    row.md5 != f.md5 || row.size != Some(Default(f.size, 0))
  }

  // The bytes on disk are neither the reported nor the recorded ones, and the report is news.
  ghost predicate Diverged(w: World, c: Change, id: nat) {
    && c.file.Some? && c.file.value.md5.Some? && c.file.value.mime.Opaque?
    && id in w.db.items && w.db.items[id].trashedAt.None? && w.db.items[id].md5.Some?
    && (c.path.Some? ==> c.path.value == w.db.items[id].path)
    && IsFile(w.disk, w.db.items[id].path)
    && var onDisk := Md5(w.disk[w.db.items[id].path].bytes);
       onDisk != c.file.value.md5.value && onDisk != w.db.items[id].md5.value && IsNews(w.db.items[id], c.file.value)
  }

  lemma FileHasNothingBelow(d: Disk, path: string, aside: string)
    requires Tree(d) && IsFile(d, path) && path != "" && !IsDir(d, aside)
    ensures Mergeable(d, path, aside)
  {
    hide Tree;
    forall p | p in d && Within(p, path) ensures p == path && Rebase(p, path, aside) == aside {
      if p != path { AncestorIsDir(d, p, path); }
      assert aside + path[|path|..] == aside;
    }
  }

  lemma AsideTree(d: Disk, path: string, aside: string)
    requires Tree(d) && IsFile(d, path) && path != "" && !IsDir(d, aside) && aside != ""
    requires Incomparable(path, aside) && ParentDir(aside) == ParentDir(path)
    ensures Tree(MoveTree(d, path, aside))
  {
    hide Tree, MoveTree, ParentDir, Mergeable;
    FileHasNothingBelow(d, path, aside);
    TreeParent(d, path);
    MoveKeepsTree(d, path, aside);
  }

  // Renaming one file moves its bytes and touches nothing else.
  lemma AsideNodes(d: Disk, path: string, aside: string, q: string)
    requires Tree(d) && IsFile(d, path) && path != "" && Incomparable(path, aside)
    ensures At(MoveTree(d, path, aside), q) == if q == path then None else if q == aside then At(d, path) else At(d, q)
  {
    hide Tree, MoveTree;
    MoveTreeAt(d, path, aside, q);
    assert Rebase(aside, aside, path) == path;
    if Within(q, aside) { RebaseWithin(q, aside, path); }
    if q != path && q in d && Within(q, path) { AncestorIsDir(d, q, path); }
    if q != aside && Within(q, aside) && Rebase(q, aside, path) in d { AncestorIsDir(d, Rebase(q, aside, path), path); }
  }

  lemma AsideDisk(d: Disk, path: string, now: int)
    requires Tree(d) && IsFile(d, path) && WellNamed(path) && !IsDir(d, ConflictPath(path, now))
    ensures var e := MoveTree(d, path, ConflictPath(path, now));
      && Tree(e) && path !in e
      && forall q :: q != path ==> At(e, q) == if q == ConflictPath(path, now) then At(d, path) else At(d, q)
  {
    hide Tree, MoveTree, ConflictPath, FileName, ParentDir, WellNamed;
    var aside := ConflictPath(path, now);
    TreeParent(d, path);
    ConflictPathIsSibling(path, now);
    AsideTree(d, path, aside);
    forall q
      ensures At(MoveTree(d, path, aside), q) == if q == path then None else if q == aside then At(d, path)
          else At(d, q)
    {
      AsideNodes(d, path, aside, q);
    }
    assert At(MoveTree(d, path, aside), path) == None;
  }

  lemma TreeParent(d: Disk, p: string)
    requires Tree(d) && p in d
    ensures p != "" && (ParentDir(p) == "" || IsDir(d, ParentDir(p)))
  {
  }

  ghost predicate Live(w: World, c: Change) {
    c.fileId !in w.inFlight && !c.removed && c.file.Some? && !c.file.value.trashed && c.file.value.id == c.fileId
  }

  function PullOf(f: Snapshot, path: string): Operation
    requires f.md5.Some?
  {
    Download(f.id, Default(f.size, 0), f.md5.value, path)
  }

  lemma DivergedActs(w: World, c: Change, now: int, id: nat)
    requires Live(w, c) && FindRemote(w.db, c.fileId) == Some(id) && Diverged(w, c, id)
    requires RemoteActs(w, c, now).Some?
    ensures var path := w.db.items[id].path;
      var aside := ConflictPath(path, now);
      && !IsDir(w.disk, aside)
      && RemoteActs(w, c, now) ==
        Some([MoveLocal(path, aside), OpenConflict(id, path, aside, now), Queue(id, PullOf(c.file.value, path), now)])
  {
    hide FindRemote, FindPath, ConflictPath, FileName, ParentDir, MovedFileActs;
    assert RemoteActs(w, c, now) == EditedFileActs(w, c.file.value, id, now);
  }

  lemma VanishedActs(w: World, c: Change, id: nat)
    requires Live(w, c) && FindRemote(w.db, c.fileId) == Some(id)
    requires c.file.value.md5.Some? && c.file.value.mime.Opaque? && w.db.items[id].trashedAt.None?
    requires IsNews(w.db.items[id], c.file.value) && (c.path.Some? ==> c.path.value == w.db.items[id].path)
    requires w.db.items[id].path !in w.disk
    ensures forall t :: RemoteActs(w, c, t) == Some([Queue(id, PullOf(c.file.value, w.db.items[id].path), t)])
  {
    hide FindRemote, FindPath, ConflictPath, FileName, ParentDir, MovedFileActs;
    forall t ensures RemoteActs(w, c, t) == Some([Queue(id, PullOf(c.file.value, w.db.items[id].path), t)]) {
      assert RemoteActs(w, c, t) == EditedFileActs(w, c.file.value, id, t);
    }
  }

  lemma OpenedConflict(w: World, id: nat, path: string, aside: string, op: Operation, now: int)
    requires w.db.ops == map[] && id in w.db.items
    ensures var v := Run(w, [MoveLocal(path, aside), OpenConflict(id, path, aside, now), Queue(id, op, now)]);
      && v.disk == MoveTree(w.disk, path, aside) && v.drive == w.drive && v.inFlight == w.inFlight
      && v.db.items == w.db.items && Queued(v.db, w.db.nextOp, [(id, op)])
      && v.db.conflicts == w.db.conflicts[w.db.nextConflict := ConflictRecord(id, path, aside, now)]
  {
    hide Run, MoveTree;
    RunThree(w, MoveLocal(path, aside), OpenConflict(id, path, aside, now), Queue(id, op, now));
    QueueAny(Step(Step(w, MoveLocal(path, aside)), OpenConflict(id, path, aside, now)), id, op, now);
  }

  // The first delivery moves the local copy aside; with nothing left at the canonical path no
  // further delivery can open a second conflict.
  lemma ConflictSettles(w: World, c: Change, now: int, id: nat) returns (Q: seq<(nat, Operation)>)
    requires Quiescent(w, c, now) && Live(w, c)
    requires FindRemote(w.db, c.fileId) == Some(id) && Diverged(w, c, id) && WellNamed(w.db.items[id].path)
    ensures Settles(w, c, now, Q, Q)
  {
    hide Run, Inv, Tree, FindRemote, FindPath, ConflictPath, MoveTree, FileName, ParentDir, WellNamed, RemoteActs,
      Queued;
    var path := w.db.items[id].path;
    var op := PullOf(c.file.value, path);
    Q := [(id, op)];
    DivergedActs(w, c, now, id);
    OpenedConflict(w, id, path, ConflictPath(path, now), op, now);
    AsideDisk(w.disk, path, now);
    TreeParent(w.disk, path);
    var w1 := Deliver(w, c, now);
    SameRemotes(w, w1, c.fileId);
    VanishedActs(w1, c, id);
  }

  // ---- every change ----------------------------------------------------------------------

  lemma MovedSettles(w: World, c: Change, now: int, id: nat) returns (Q: seq<(nat, Operation)>)
    requires Quiescent(w, c, now) && Live(w, c) && c.file.value.mime.Opaque? && c.file.value.md5.Some?
    requires FindRemote(w.db, c.fileId) == Some(id) && w.db.items[id].trashedAt.None?
    requires c.path.Some? && c.path.value != w.db.items[id].path
    ensures Settles(w, c, now, Q, Q)
  {
    hide Inv, Tree, FindRemote, FindPath, ParentDir, EmptyQueue, Settles, TombstoneUnmoved, WellNamed;
    var f, row, p := c.file.value, w.db.items[id], c.path.value;
    var dir := RenamedParent(w, f, row.path, p);
    if dir.Some? {
      Q := [(dir.value, RenameLocal(ParentDir(p)))];
      assert dir.value in w.db.items by { ParentRow(w, f, row.path, p); }
    } else if IsNews(row, f) {
      Q := [(id, RenameLocal(p)), (id, PullOf(f, p))];
    } else {
      Q := [(id, RenameLocal(p))];
    }
    forall t ensures RemoteActs(w, c, t) == Some(Acts(Q, t)) {
      assert RemoteActs(w, c, t) == Some(MovedFileActs(w, f, id, p, t));
    }
    QueueOnlySettles(w, c, now, Q);
  }

  lemma ParentRow(w: World, f: Snapshot, was: string, path: string)
    requires RenamedParent(w, f, was, path).Some?
    ensures RenamedParent(w, f, was, path).value in w.db.items
  {
  }

  lemma EditedSettles(w: World, c: Change, now: int, id: nat) returns (Q: seq<(nat, Operation)>)
    requires Quiescent(w, c, now) && Live(w, c) && c.file.value.mime.Opaque? && c.file.value.md5.Some?
    requires FindRemote(w.db, c.fileId) == Some(id) && w.db.items[id].trashedAt.None?
    requires c.path.Some? ==> c.path.value == w.db.items[id].path
    ensures Settles(w, c, now, Q, Q)
  {
    hide Inv, Tree, FindRemote, FindPath, ParentDir, EmptyQueue, Settles, TombstoneUnmoved, WellNamed,
      MovedFileActs, ConflictPath;
    var f, row := c.file.value, w.db.items[id];
    var same := !IsNews(row, f);
    if Diverged(w, c, id) {
      Q := ConflictSettles(w, c, now, id);
    } else {
      var kept := same || (IsFile(w.disk, row.path) && row.md5.Some? && Md5(w.disk[row.path].bytes) == f.md5.value);
      Q := if kept then [] else [(id, PullOf(f, row.path))];
      forall t ensures RemoteActs(w, c, t) == Some(Acts(Q, t)) {
        assert RemoteActs(w, c, t) == if same then Some([]) else EditedFileActs(w, f, id, t);
      }
      QueueOnlySettles(w, c, now, Q);
    }
  }

  lemma FileSettles(w: World, c: Change, now: int) returns (Q: seq<(nat, Operation)>, R: seq<(nat, Operation)>)
    requires Quiescent(w, c, now) && Live(w, c) && c.file.value.mime.Opaque?
    ensures Settles(w, c, now, Q, R)
  {
    hide Inv, Tree, FindRemote, FindPath, ParentDir, EmptyQueue, Settles, TombstoneUnmoved, WellNamed,
      MovedFileActs, EditedFileActs;
    var f, known := c.file.value, FindRemote(w.db, c.fileId);
    var rel := Default(c.path, f.name);
    if f.md5.Some? && known.Some? {
      var id := known.value;
      if w.db.items[id].trashedAt.Some? { Q, R := FileRestoreSettles(w, c, now, id); }
      else if c.path.Some? && c.path.value != w.db.items[id].path { Q := MovedSettles(w, c, now, id); R := Q; }
      else { Q := EditedSettles(w, c, now, id); R := Q; }
    } else if f.md5.Some? && FindPath(w.db, rel).None? {
      var row := NewRemote(rel, File, f.id, Some(Default(f.size, 0)), f.md5, PendingLocal);
      assert RemoteActs(w, c, now) == FileActs(w, c, known, now);
      ImportSettles(w, c, now, row, PullOf(f, rel));
      Q, R := [(w.db.nextItem, PullOf(f, rel))], [];
    } else {
      Q, R := [], [];
      QueueOnlySettles(w, c, now, []);
    }
  }

  lemma FolderSettles(w: World, c: Change, now: int) returns (Q: seq<(nat, Operation)>, R: seq<(nat, Operation)>)
    requires Quiescent(w, c, now) && Live(w, c) && c.file.value.mime.FolderMime?
    ensures Settles(w, c, now, Q, R)
  {
    hide Inv, Tree, FindRemote, FindPath, EmptyQueue, Settles, TombstoneUnmoved, WellNamed;
    var f, known := c.file.value, FindRemote(w.db, c.fileId);
    var rel := Default(c.path, f.name);
    if known.None? && FindPath(w.db, rel).None? {
      ImportSettles(w, c, now, NewRemote(rel, Dir, f.id, None, None, PendingLocal), CreateDirLocal);
      Q, R := [(w.db.nextItem, CreateDirLocal)], [];
    } else {
      Q := if known.Some? && w.db.items[known.value].path != rel then [(known.value, RenameLocal(rel))] else [];
      R := Q;
      forall t ensures RemoteActs(w, c, t) == Some(Acts(Q, t)) {
        assert RemoteActs(w, c, t) == Some(FolderActs(w, c, known, t));
      }
      QueueOnlySettles(w, c, now, Q);
    }
  }

  lemma NativeSettles(w: World, c: Change, now: int) returns (Q: seq<(nat, Operation)>, R: seq<(nat, Operation)>)
    requires Quiescent(w, c, now) && Live(w, c) && c.file.value.mime.NativeDoc?
    ensures Settles(w, c, now, Q, R)
  {
    hide Inv, Tree, FindRemote, FindPath, EmptyQueue, Settles, TombstoneUnmoved, WellNamed, ShortcutPath;
    var f, known := c.file.value, FindRemote(w.db, c.fileId);
    var rel := ShortcutPath(Default(c.path, f.name), f.mime.ext);
    assert RemoteActs(w, c, now) == NativeActs(w, c, known, now);
    if known.None? {
      ImportSettles(w, c, now, NewRemote(rel, File, f.id, None, None, Skipped), WriteShortcut(f.mime.pointer));
      Q, R := [(w.db.nextItem, WriteShortcut(f.mime.pointer))], [];
    } else if w.db.items[known.value].path == rel && w.db.items[known.value].trashedAt.Some? {
      NativeRestoreSettles(w, c, now, known.value);
      Q, R := [(known.value, WriteShortcut(f.mime.pointer))], [];
    } else {
      Q := if w.db.items[known.value].path != rel then [(known.value, RenameLocal(rel))] else [];
      R := Q;
      forall t ensures RemoteActs(w, c, t) == Some(Acts(Q, t)) {
        assert RemoteActs(w, c, t) == NativeActs(w, c, known, t);
      }
      QueueOnlySettles(w, c, now, Q);
    }
  }

  lemma AnyChangeSettles(w: World, c: Change, now: int) returns (Q: seq<(nat, Operation)>, R: seq<(nat, Operation)>)
    requires Quiescent(w, c, now)
    ensures Settles(w, c, now, Q, R)
  {
    hide Inv, Tree, FindRemote, FindPath, EmptyQueue, Settles, TombstoneUnmoved, WellNamed,
      FileActs, FolderActs, NativeActs;
    if Live(w, c) {
      match c.file.value.mime {
        case FolderMime => Q, R := FolderSettles(w, c, now);
        case NativeDoc(_, _) => Q, R := NativeSettles(w, c, now);
        case Opaque => Q, R := FileSettles(w, c, now);
      }
    } else {
      var known := FindRemote(w.db, c.fileId);
      Q := if c.fileId in w.inFlight || known.None? then []
        else if c.removed then [(known.value, DeleteLocal(false))]
        else if c.file.Some? && w.db.items[known.value].trashedAt.None? then
          [(known.value, DeleteLocal(w.db.items[known.value].kind.File?))]
        else [];
      R := Q;
      QueueOnlySettles(w, c, now, Q);
    }
  }

  // ---- with other work in the queue ------------------------------------------------------

  ghost function Emptied(w: World): World {
    w.(db := w.db.(ops := map[]))
  }

  // w is v with the operations of `base` queued before its own.
  ghost predicate Behind(w: World, v: World, base: map<nat, Pending>) {
    EqButOps(w, v) && w.db.nextOp == v.db.nextOp && w.db.ops == base + v.db.ops
  }

  // The writes of the reconciler: they drop nothing.
  predicate OnlyAdds(acts: seq<Act>) {
    forall a :: a in acts ==> a.InsertItem? || a.Queue? || a.Tombstone? || a.MoveLocal? || a.OpenConflict?
  }

  lemma RemoteOnlyAdds(w: World, c: Change, now: int)
    ensures RemoteActs(w, c, now).Some? ==> OnlyAdds(RemoteActs(w, c, now).value)
  {
    hide FindRemote, FindPath, ParentDir, ShortcutPath, ConflictPath;
  }

  lemma StepBehind(w: World, v: World, base: map<nat, Pending>, act: Act)
    requires Behind(w, v, base) && OnlyAdds([act])
    ensures Behind(Step(w, act), Step(v, act), base)
  {
    assert act in [act];
    match act {
      case InsertItem(row) => InsertBehind(w, v, base, row);
      case Queue(id, op, at) => QueueBehind(w, v, base, act);
      case _ => OtherBehind(w, v, base, act);
    }
  }

  lemma InsertBehind(w: World, v: World, base: map<nat, Pending>, row: Row)
    requires Behind(w, v, base)
    ensures Behind(Step(w, InsertItem(row)), Step(v, InsertItem(row)), base)
  {
    hide FindPath;
    SameFinds(w.db, v.db);
  }

  lemma QueueBehind(w: World, v: World, base: map<nat, Pending>, act: Act)
    requires Behind(w, v, base) && act.Queue?
    ensures Behind(Step(w, act), Step(v, act), base)
  {
  }

  lemma OtherBehind(w: World, v: World, base: map<nat, Pending>, act: Act)
    requires Behind(w, v, base) && (act.Tombstone? || act.MoveLocal? || act.OpenConflict?)
    ensures Behind(Step(w, act), Step(v, act), base)
  {
    hide MoveTree;
  }

  lemma {:induction false} RunBehind(w: World, v: World, base: map<nat, Pending>, acts: seq<Act>)
    requires Behind(w, v, base) && OnlyAdds(acts)
    ensures Behind(Run(w, acts), Run(v, acts), base)
    decreases |acts|
  {
    hide Behind, Step;
    if acts != [] {
      assert forall a :: a in [acts[0]] ==> a in acts;
      StepBehind(w, v, base, acts[0]);
      RunBehind(Step(w, acts[0]), Step(v, acts[0]), base, acts[1..]);
    }
  }

  // What the first delivery queues does not depend on what waits in front of it.
  lemma SettlesBehind(w: World, c: Change, now: int) returns (Q: seq<(nat, Operation)>, R: seq<(nat, Operation)>)
    requires Reported(w, c, now)
    ensures var w1, n := Deliver(w, c, now), w.db.nextOp;
      && OnlyRequeues(w1, c, R) && (R == [] || (R == Q && KnownShape(Q)))
      && w1.db.nextOp == n + |Q| && (forall o :: o in w1.db.ops && o >= n ==> o < n + |Q|)
      && (forall i :: 0 <= i < |Q| ==> Holds(w1.db, n + i, Q[i].0, Q[i].1))
  {
    hide RemoteActs, Run, Tree, WellNamed, OnlyRequeues, FindRemote;
    var v := Emptied(w);
    EmptiedIsQuiescent(w, c, now);
    Q, R := AnyChangeSettles(v, c, now);
    ReconcilerIgnoresQueue(v, w, c, now);
    RemoteOnlyAdds(w, c, now);
    assert w.db.ops + v.db.ops == w.db.ops;
    RunBehind(w, v, w.db.ops, RemoteActs(w, c, now).value);
    SameRequeues(Deliver(v, c, now), Deliver(w, c, now), c, R);
    OpsAreOld(w.db);
  }

  lemma OpsAreOld(db: Db)
    requires Inv(db)
    ensures forall o :: o in db.ops ==> o < db.nextOp
  {
  }

  lemma EmptiedIsQuiescent(w: World, c: Change, now: int)
    requires Reported(w, c, now)
    ensures Quiescent(Emptied(w), c, now)
  {
    hide RemoteActs, Tree, WellNamed, FindRemote, ShortcutPath;
    SameFinds(w.db, Emptied(w).db);
    ReconcilerIgnoresQueue(w, Emptied(w), c, now);
    EmptiedInv(w.db);
  }

  lemma EmptiedInv(db: Db)
    requires Inv(db)
    ensures Inv(db.(ops := map[]))
  {
  }

  lemma SameRequeues(v: World, w: World, c: Change, R: seq<(nat, Operation)>)
    requires EqButOps(w, v) && OnlyRequeues(v, c, R)
    ensures OnlyRequeues(w, c, R)
  {
    hide RemoteActs;
    forall t ensures RemoteActs(w, c, t) == RemoteActs(v, c, t) { ReconcilerIgnoresQueue(w, v, c, t); }
  }

  // The deliveries after the first touch no row, no file and no conflict record: with the local copy
  // moved aside there is nothing left to open a second conflict for.
  lemma RepeatsOnlyQueue(w: World, c: Change, now: int, later: seq<int>)
    requires Reported(w, c, now)
    ensures EqButOps(DeliverAll(w, c, [now] + later), Deliver(w, c, now))
  {
    hide Inv, Tree, RemoteActs, TombstoneUnmoved, WellNamed, Run, OnlyRequeues, Deliver, KnownShape, Holds;
    var Q, R := SettlesBehind(w, c, now);
    var w1 := Deliver(w, c, now);
    DeliverKeepsInv(w, c, now);
    StartTail(w1, R);
    RedeliveryOnlyQueues(w1, w1, c, later, w1.db.nextOp, R);
    assert ([now] + later)[1..] == later;
  }

  // When the turn of what the change queued comes: renames have a free destination, and downloads
  // name a file.
  ghost predicate TurnReady(u: World, n: nat) {
    Tree(u.disk) && forall o :: o in u.db.ops && o >= n ==>
      && (u.db.ops[o].op.RenameLocal? ==> RenameReady(u, u.db.ops[o].item, u.db.ops[o].op.newRel))
      && (u.db.ops[o].op.Download? ==> u.db.ops[o].op.rel != "")
  }

  ghost predicate Fails(w: World, o: nat, a: Answers, clock: nat -> int) {
    o in w.db.ops && w.db.ops[o].item in w.db.items
    && !ExecEffect(w, w.db.ops[o].item, w.db.ops[o].op, a, clock(o)).ok
  }

  lemma FailsMeans(w: World, o: nat, a: Answers, clock: nat -> int)
    ensures Fails(w, o, a, clock) ==> o in w.db.ops && w.db.ops[o].item in w.db.items
  {
    hide ExecEffect;
  }

  lemma OwnTurnLeavesIff(w: World, o: nat, a: Answers, clock: nat -> int)
    requires Inv(w.db)
    ensures var v := ExecOp(w, o, a, clock);
      o in v.db.ops <==> Fails(w, o, a, clock) && o in w.db.ops && w.db.ops[o].item in v.db.items
  {
    hide Inv, ExecEffect, Run;
    OpsHaveItems(w.db);
    KeysAreUsed(w.db);
    if o in w.db.ops {
      var id, op := w.db.ops[o].item, w.db.ops[o].op;
      var e := ExecEffect(w, id, op, a, clock(o));
      EffectIgnoresQueue(w, w, id, op, a, clock(o));
      RunKeepsItsOps(w, o, e.acts, a, clock);
      FinishRuns(Run(w, e.acts), o);
      RescheduleRuns(Run(w, e.acts), o, a.retryAt(o));
    }
  }

  // While an operation runs it goes exactly if its item does.
  lemma RunKeepsItsOps(w: World, o: nat, acts: seq<Act>, a: Answers, clock: nat -> int)
    requires Inv(w.db) && Quiet(acts) && o in w.db.ops
    requires o in w.db.ops && w.db.ops[o].item in w.db.items
    requires acts == ExecEffect(w, w.db.ops[o].item, w.db.ops[o].op, a, clock(o)).acts
    ensures o in Run(w, acts).db.ops <==> w.db.ops[o].item in Run(w, acts).db.items
  {
    hide Inv, ExecEffect, Run, Licensed;
    KeysAreUsed(w.db);
    RunSurvives(w, acts, o, o);
    ExecIsLicensed(w, o, a, clock(o));
    RunKeepsInv(w, acts);
    OpsHaveItems(Run(w, acts).db);
  }

  lemma OpsHaveItems(db: Db)
    requires Inv(db)
    ensures forall o :: o in db.ops ==> db.ops[o].item in db.items
    ensures forall i :: i in db.items ==> i < db.nextItem
  {
  }

  // Of the operations in the stretch just drained, exactly those are left whose turn ended in a failure
  // and whose item is still there.
  lemma DrainLeavesIff(w: World, k: nat, m: nat, o: nat, a: Answers, clock: nat -> int)
    requires Inv(w.db) && k <= o < m
    ensures var turn, v := DrainTo(w, k, o, a, clock), DrainTo(w, k, m, a, clock);
      o in v.db.ops <==> Fails(turn, o, a, clock) && o in turn.db.ops && turn.db.ops[o].item in v.db.items
  {
    hide Inv, ExecOp, Fails;
    var turn, v := DrainTo(w, k, o, a, clock), DrainTo(w, k, m, a, clock);
    var next := ExecOp(turn, o, a, clock);
    DrainSplits(w, k, o, m, a, clock);
    DrainKeepsInv(w, k, o, a, clock);
    KeysAreUsed(turn.db);
    OpsHaveItems(turn.db);
    ExecSurvives(turn, o, a, clock);
    OwnTurnLeavesIff(turn, o, a, clock);
    DrainSurvives(next, o + 1, m, a, clock);
    ExecKeepsInv(turn, o, a, clock);
    DrainKeepsInv(next, o + 1, m, a, clock);
    OpsHaveItems(v.db);
    FailsMeans(turn, o, a, clock);
  }

  // Once everything queued earlier has run, the change's own operations are alone in the queue, or
  // their item is gone and they with it.
  lemma OwnTurn(w1: World, n: nat, Q: seq<(nat, Operation)>, a: Answers, clock: nat -> int)
    requires Inv(w1.db) && w1.db.nextOp == n + |Q| && |Q| >= 1 && KnownShape(Q)
    requires forall i :: 0 <= i < |Q| ==> Holds(w1.db, n + i, Q[i].0, Q[i].1)
    ensures var u := DrainTo(w1, 0, n, a, clock);
      && Inv(u.db) && Survives(w1.db, u.db, 0, n) && KeysUsed(u.db)
      && (Q[0].0 in u.db.items ==> QueuedLast(u.db, n, Q))
  {
    hide Inv, ExecOp;
    var u := DrainTo(w1, 0, n, a, clock);
    assert KeysUsed(w1.db) && OpsBelow(w1.db) by { KeysAreUsed(w1.db); }
    DrainKeepsInv(w1, 0, n, a, clock);
    DrainSurvives(w1, 0, n, a, clock);
  }

  ghost predicate OpsBelow(db: Db) { forall o :: o in db.ops ==> o < db.nextOp }

  lemma KeysAreUsed(db: Db)
    requires Inv(db)
    ensures KeysUsed(db) && OpsBelow(db)
  {
  }

  lemma OwnTurnSettles(w1: World, c: Change, n: nat, Q: seq<(nat, Operation)>, a: Answers, clock: nat -> int)
    requires Inv(w1.db) && w1.db.nextOp == n + |Q| && |Q| >= 1 && KnownShape(Q)
    requires forall i :: 0 <= i < |Q| ==> Holds(w1.db, n + i, Q[i].0, Q[i].1)
    requires var u := DrainTo(w1, 0, n, a, clock); TurnReady(u, n) && AllSucceed(u, n, n + |Q|, a, clock)
    ensures var v := Drain(w1, a, clock); forall p :: p in Q && p.0 in v.db.items ==> Inert(v, p.0, p.1, a)
  {
    hide Inv, ExecOp, Tree, Inert, AllSucceed, RenameReady, DrainTo;
    var u := DrainTo(w1, 0, n, a, clock);
    OwnTurn(w1, n, Q, a, clock);
    DrainSplits(w1, 0, n, n + |Q|, a, clock);
    if Q[0].0 in u.db.items {
      forall i | 0 <= i < |Q| ensures u.db.ops[n + i].item == Q[i].0 && u.db.ops[n + i].op == Q[i].1 {}
      if |Q| == 1 { OneSettles(u, n, Q, a, clock); } else { TwoSettle(u, n, Q, a, clock); }
    } else {
      DrainSurvives(u, n, n + |Q|, a, clock);
      assert Q[0].0 < w1.db.nextItem by { KeysAreUsed(w1.db); assert Holds(w1.db, n + 0, Q[0].0, Q[0].1); }
    }
  }

  // Whatever waits in the queue, any number of further deliveries before the drain leaves the same
  // rows (up to two clock readings), the same files and the same conflict records as one delivery.
  lemma RedeliveryIsIdempotent(w: World, c: Change, now: int, later: seq<int>, a: Answers, clock: nat -> int)
    requires Reported(w, c, now)
    requires var w1, n := Deliver(w, c, now), w.db.nextOp;
      var u := DrainTo(w1, 0, n, a, clock);
      TurnReady(u, n) && AllSucceed(u, n, w1.db.nextOp, a, clock)
    ensures Same(Drain(Deliver(w, c, now), a, clock), Drain(DeliverAll(w, c, [now] + later), a, clock))
  {
    hide Inv, Tree, RemoteActs, TombstoneUnmoved, WellNamed, Run, Same, Drain, DrainTo, AllSucceed, OnlyRequeues, Inert,
      TurnReady, Deliver, KnownShape, Holds;
    var Q, R := SettlesBehind(w, c, now);
    var w1 := Deliver(w, c, now);
    DeliverKeepsInv(w, c, now);
    if R != [] { OwnTurnSettles(w1, c, w.db.nextOp, Q, a, clock); }
    RepetitionsAreHarmless(w1, c, later, R, a, clock);
    assert ([now] + later)[1..] == later;
  }
}
