// The change Drive reports for the daemon's own write is never taken for somebody else's: from
// the engine call on, whatever else runs in between, applying it writes nothing.
module Echo {
  import opened Paths
  import opened Tables
  import opened RenameSubtree
  import opened Disk
  import opened World
  import opened Continuous
  import opened Runtime
  import opened Invariants
  import opened RemoteFolders
  import opened Timestamps

  // The dispatcher's four kinds of write to a known id.
  datatype Write =
    | Edit(id: nat, rid: string, path: string, bytes: Bytes, at: int)
    | Create(id: nat, rid: string, path: string, bytes: Bytes, parent: string, at: int)
    | Move(id: nat, rid: string, path: string, row: Row, newRel: string, parent: string)
    | Remove(id: nat, rid: string, path: string)

  // Its micro-steps: registry mark, engine call, row writes, unmark.
  function Program(x: Write): seq<Act> {
    match x
    case Edit(id, rid, path, bytes, at) => UpdateActs(id, rid, bytes, at)
    case Create(id, rid, path, bytes, parent, at) => FirstUpload(id, rid, path, bytes, parent, at)
    case Move(id, rid, path, row, newRel, parent) => MoveActs(id, row, rid, parent, newRel)
    case Remove(id, rid, _) => [Mark(rid), TrashNode(rid), DeleteItem(id), Unmark(rid)]
  }

  // From this step on Drive may report the write.
  function EngineDone(x: Write): nat { if x.Create? then 1 else 2 }

  // The change record of the write.
  ghost predicate IsEcho(x: Write, c: Change) {
    && c.fileId == x.rid
    && (c.removed ==> x.Remove?)
    && (!c.removed ==> c.file.Some? && c.file.value.id == x.rid && (c.file.value.trashed <==> x.Remove?))
    && (match x
        case Edit(_, _, path, bytes, _) => IsContentOf(c, bytes) && (c.path.Some? ==> c.path.value == path)
        case Create(_, _, path, bytes, _, _) => IsContentOf(c, bytes) && c.path == Some(path)
        case Move(_, _, _, row, newRel, _) =>
          && c.path == Some(newRel)
          && (row.kind.Dir? ==> c.file.value.mime.FolderMime?)
          && (row.kind.File? ==> SamePrint(c.file.value, row))
        case Remove(_, _, _) => true)
  }

  ghost predicate SamePrint(f: Snapshot, row: Row) {
    f.mime.Opaque? && f.md5 == row.md5 && (row.md5.Some? ==> row.size == Some(Default(f.size, 0)))
  }

  ghost predicate IsContentOf(c: Change, bytes: Bytes) {
    !c.removed && c.file.Some? && c.file.value.mime.Opaque?
    && c.file.value.md5 == Some(Md5(bytes)) && c.file.value.size == Some(|bytes|)
  }

  // A state of the machine: the shared world, the dispatcher's position in the program, and the
  // marks other operations hold on the same id.
  datatype State = State(w: World, pc: nat, others: nat)

  // What another task may do meanwhile: anything but edit this item, move it, move something onto it,
  // or, while a folder moves, take away the row at its destination.
  ghost predicate Foreign(a: Act, x: Write, db: Db) {
    match a
    case InsertItem(row) => row.remoteId != Some(x.rid)
    case DeleteItem(id) => id != x.id && SparesTarget(x, db, id)
    case LinkRemote(id, rid) => id != x.id && rid != x.rid
    case Fingerprint(id, _, _, _) => id != x.id
    case Lifecycle(id, _) => id != x.id
    case Tombstone(id, _) => id != x.id
    case Repath(id, p) => id != x.id && p != x.path && p != FinalPath(x) && SparesTarget(x, db, id)
    case RepathTree(src, _) => forall id :: Affected(db, src, id) ==> id != x.id && SparesTarget(x, db, id)
    case _ => true
  }

  predicate SparesTarget(x: Write, db: Db, id: nat) {
    MovesFolder(x) && id in db.items ==> db.items[id].path != x.newRel
  }

  predicate MovesFolder(x: Write) { x.Move? && x.row.kind.Dir? }

  function FinalPath(x: Write): string { if x.Move? then x.newRel else x.path }

  ghost predicate OwnStep(x: Write, s: State, t: State) {
    s.pc < |Program(x)| && t == State(Step(s.w, Program(x)[s.pc]), s.pc + 1, s.others)
  }

  ghost predicate OtherStep(x: Write, s: State, t: State, a: Act) {
    && Foreign(a, x, s.w.db)
    && (a == Unmark(x.rid) ==> s.others > 0)
    && t == State(Step(s.w, a), s.pc,
                  if a == Mark(x.rid) then s.others + 1 else if a == Unmark(x.rid) then s.others - 1 else s.others)
  }

  ghost predicate Moves(x: Write, s: State, t: State) {
    OwnStep(x, s, t) || exists a :: OtherStep(x, s, t, a)
  }

  // Marks are counted: ours and those of the others.
  ghost predicate Counted(s: State, rid: string, own: nat) {
    && (forall r :: r in s.w.inFlight ==> s.w.inFlight[r] >= 1)
    && Marks(s.w.inFlight, rid) == s.others + own
  }

  ghost predicate Nobody(db: Db, rid: string) {
    forall j :: j in db.items ==> db.items[j].remoteId != Some(rid)
  }

  ghost predicate Owner(db: Db, id: nat, rid: string, path: string) {
    Sole(db, id, rid) && db.items[id].path == path && db.items[id].trashedAt.None?
  }

  ghost predicate Sole(db: Db, id: nat, rid: string) {
    && id in db.items && db.items[id].remoteId == Some(rid)
    && forall j :: j in db.items && j != id ==> db.items[j].remoteId != Some(rid)
  }

  ghost predicate HasPrint(db: Db, id: nat, bytes: Bytes) {
    id in db.items && db.items[id].md5 == Some(Md5(bytes)) && db.items[id].size == Some(|bytes|)
  }

  // The marks the program itself holds at a step.
  function Own(x: Write, pc: nat): nat {
    if x.Create? then (if 2 <= pc <= 4 then 1 else 0) else if 1 <= pc <= 3 then 1 else 0
  }

  // What holds at each step of the program.
  ghost predicate Facts(x: Write, s: State) {
    && s.pc <= |Program(x)| && Counted(s, x.rid, Own(x, s.pc))
    && match x
       case Edit(id, rid, path, bytes, _) =>
         && Owner(s.w.db, id, rid, path)
         && (s.pc >= 3 ==> HasPrint(s.w.db, id, bytes))
       case Create(id, rid, path, bytes, _, _) =>
         && id in s.w.db.items && s.w.db.items[id].path == path && s.w.db.items[id].trashedAt.None?
         && (s.pc <= 2 ==> Nobody(s.w.db, rid))
         && (s.pc >= 3 ==> Owner(s.w.db, id, rid, path))
         && (s.pc >= 4 ==> HasPrint(s.w.db, id, bytes))
       case Move(id, rid, path, row, newRel, _) =>
         if s.pc <= 2 then Owner(s.w.db, id, rid, path) && SameItem(s.w.db.items[id], row)
         else
           || (Owner(s.w.db, id, rid, newRel) && SameItem(s.w.db.items[id], row))
           || (row.kind.Dir? && Outrun(s.w.db, id, rid, newRel))
       case Remove(id, rid, path) =>
         && (s.pc <= 2 ==> Sole(s.w.db, id, rid) && s.w.db.items[id].path == path)
         && (s.pc >= 3 ==> Nobody(s.w.db, rid))
  }

  // The destination of a moved folder already had a row; it stayed, and the folder's own row went.
  ghost predicate Outrun(db: Db, id: nat, rid: string, newRel: string) {
    id !in db.items && id < db.nextItem && Nobody(db, rid) && FindPath(db, newRel).Some?
  }

  ghost predicate SameItem(a: Row, b: Row) {
    a.kind == b.kind && a.md5 == b.md5 && a.size == b.size
  }

  // The program itself makes sense: a move leaves its old path and starts from the row's path.
  ghost predicate Proper(x: Write) {
    x.Move? ==> x.row.path == x.path && Incomparable(x.path, x.newRel)
  }

  lemma FolderRowMoves(db: Db, id: nat, src: string, dst: string)
    requires Valid(db) && LiteralOnly(db, src) && Incomparable(src, dst)
    requires id in db.items && db.items[id].path == src
    ensures var after := RenameRows(db, src, dst);
      && (if FindPath(db, dst).None? then id in after.items && after.items[id] == db.items[id].(path := dst)
          else id !in after.items && FindPath(after, dst).Some?)
      && id < db.nextItem && after.nextItem == db.nextItem
      && forall j :: j in after.items ==> j in db.items && after.items[j].remoteId == db.items[j].remoteId
  {
    hide RenameLoop, Within;
    var order := ScanOrder(db, src, db.nextItem);
    RenameMeaning(db, src, dst, order);
    LoopKeepsOthers(db, src, dst, order);
    WithinSelf(src, dst);
    var after := RenameRows(db, src, dst);
    forall j | j in after.items ensures j in db.items && after.items[j].remoteId == db.items[j].remoteId {
      assert Within(db.items[j].path, src) || !Within(db.items[j].path, src);
    }
    if FindPath(db, dst).Some? {
      var j := FindPath(db, dst).value;
      assert !Within(dst, src) by { hide *; Apart(src, dst); }
      assert after.items[j] == db.items[j];
    }
  }

  lemma Apart(src: string, dst: string)
    requires Incomparable(src, dst)
    ensures !Within(dst, src)
  {
  }

  lemma WithinSelf(src: string, dst: string)
    ensures Within(src, src) && Rebase(src, src, dst) == dst
  {
  }

  lemma OwnKeepsEdit(x: Write, s: State, t: State)
    requires x.Edit? && Facts(x, s) && OwnStep(x, s, t)
    ensures Facts(x, t)
  {
    hide Valid;
  }

  lemma CreateProgram(x: Write)
    requires x.Create?
    ensures |Program(x)| == 5 && Program(x)[0].CreateNode? && Program(x)[1] == Mark(x.rid)
    ensures Program(x)[2] == LinkRemote(x.id, x.rid)
    ensures Program(x)[3] == Fingerprint(x.id, |x.bytes|, Md5(x.bytes), x.at) && Program(x)[4] == Unmark(x.rid)
  {
    hide FileName;
  }

  lemma CreateIsCounted(x: Write, s: State, t: State)
    requires x.Create? && Facts(x, s) && OwnStep(x, s, t)
    ensures Counted(t, x.rid, Own(x, t.pc))
  {
    hide Program, DbStep, DiskStep, DriveStep, Owner, Nobody, HasPrint;
    CreateProgram(x);
  }

  lemma OwnKeepsCreate(x: Write, s: State, t: State)
    requires x.Create? && Facts(x, s) && OwnStep(x, s, t)
    ensures Facts(x, t)
  {
    hide Program, DiskStep, DriveStep, Counted, Own;
    CreateProgram(x);
    CreateIsCounted(x, s, t);
  }

  lemma OwnKeepsMove(x: Write, s: State, t: State)
    requires x.Move? && Facts(x, s) && OwnStep(x, s, t) && Proper(x)
    requires Valid(s.w.db) && (MovesFolder(x) ==> LiteralOnly(s.w.db, x.path))
    ensures Facts(x, t)
  {
    hide Valid, FileName, LiteralOnly, Incomparable, RenameRows, FindPath;
    if s.pc == 2 && x.row.kind.Dir? {
      FolderRowMoves(s.w.db, x.id, x.path, x.newRel);
    }
  }

  lemma OwnKeepsRemove(x: Write, s: State, t: State)
    requires x.Remove? && Facts(x, s) && OwnStep(x, s, t)
    ensures Facts(x, t)
  {
    hide Valid;
  }

  // A foreign write leaves the item's row alone, gives nobody its Drive id, and leaves a row at the
  // destination of a folder that moves.
  ghost predicate Spared(x: Write, db: Db, after: Db) {
    && (x.id in db.items && (db.items[x.id].path == x.path || db.items[x.id].path == FinalPath(x)) ==>
          x.id in after.items && after.items[x.id] == db.items[x.id])
    && (x.id !in db.items && x.id < db.nextItem ==> x.id !in after.items)
    && db.nextItem <= after.nextItem
    && (forall j :: j in after.items && after.items[j].remoteId == Some(x.rid) ==>
          j in db.items && db.items[j].remoteId == Some(x.rid))
    && (MovesFolder(x) && FindPath(db, x.newRel).Some? ==> FindPath(after, x.newRel).Some?)
  }

  lemma ForeignSpares(x: Write, db: Db, a: Act)
    requires Foreign(a, x, db) && Valid(db)
    ensures Spared(x, db, DbStep(db, a))
  {
    hide RenameRows, Valid, InsertRow, SetPath, FindPath, PutRow, DropRows, Spared, FinalPath, MovesFolder, Affected;
    match a
    case InsertItem(row) => InsertSpares(x, db, row);
    case Repath(id, p) => RepathSpares(x, db, id, p);
    case RepathTree(src, dst) => TreeSpares(x, db, src, dst);
    case DeleteItem(id) => DropSpares(x, db, id);
    case LinkRemote(id, rid) =>
      if id in db.items {
        PutSpares(x, db, id, db.items[id].(remoteId := Some(rid)));
      } else {
        SameItemsSpare(x, db, db);
      }
    case Fingerprint(id, size, md5, at) =>
      if id in db.items { PutSpares(x, db, id, db.items[id].(size := Some(size), md5 := Some(md5), syncedAt := at)); }
      else { SameItemsSpare(x, db, db); }
    case Lifecycle(id, state) =>
      if id in db.items { PutSpares(x, db, id, db.items[id].(state := state)); } else { SameItemsSpare(x, db, db); }
    case Tombstone(id, since) =>
      if id in db.items { PutSpares(x, db, id, db.items[id].(trashedAt := since)); } else { SameItemsSpare(x, db, db); }
    case _ => SameItemsSpare(x, db, DbStep(db, a));
  }

  lemma SameItemsSpare(x: Write, db: Db, after: Db)
    requires after.items == db.items && after.nextItem == db.nextItem
    ensures Spared(x, db, after)
  {
    hide FinalPath, MovesFolder;
  }

  lemma DropSpares(x: Write, db: Db, id: nat)
    requires id != x.id && SparesTarget(x, db, id)
    ensures Spared(x, db, DropRows(db, {id}))
  {
    hide FinalPath, MovesFolder, FindPath;
    TargetStays(x, db, DropRows(db, {id}));
  }

  // Rows at the destination keep their place.
  lemma TargetStays(x: Write, db: Db, after: Db)
    requires MovesFolder(x) ==> forall j :: j in db.items && db.items[j].path == x.newRel ==>
      j in after.items && after.items[j].path == x.newRel
    ensures MovesFolder(x) && FindPath(db, x.newRel).Some? ==> FindPath(after, x.newRel).Some?
  {
    if MovesFolder(x) && FindPath(db, x.newRel).Some? {
      assert after.items[FindPath(db, x.newRel).value].path == x.newRel;
    }
  }

  lemma PutSpares(x: Write, db: Db, id: nat, row: Row)
    requires id in db.items && id != x.id && row.path == db.items[id].path
    requires row.remoteId == Some(x.rid) ==> db.items[id].remoteId == Some(x.rid)
    ensures Spared(x, db, PutRow(db, id, row))
  {
    hide FinalPath, MovesFolder, FindPath;
    TargetStays(x, db, PutRow(db, id, row));
  }

  lemma InsertSpares(x: Write, db: Db, row: Row)
    requires row.remoteId != Some(x.rid) && Valid(db)
    ensures Spared(x, db, InsertRow(db, row))
  {
    hide FinalPath, MovesFolder;
    TargetStays(x, db, InsertRow(db, row));
  }

  lemma RepathSpares(x: Write, db: Db, id: nat, p: string)
    requires Foreign(Repath(id, p), x, db)
    ensures Spared(x, db, SetPath(db, id, p))
  {
    hide FindPath;
    TargetStays(x, db, SetPath(db, id, p));
  }

  // A directory rename keeps every row it does not select, and every Drive id.
  lemma {:induction false} LoopKeepsOthers(db: Db, src: string, dst: string, order: seq<nat>)
    ensures var after := RenameLoop(db, src, dst, order);
      && (forall j :: j in after.items ==> j in db.items && after.items[j].remoteId == db.items[j].remoteId)
      && (forall j :: j in db.items && j !in order ==> j in after.items && after.items[j] == db.items[j])
      && after.nextItem == db.nextItem
    decreases |order|
  {
    hide Selected, Rebase;
    if order != [] {
      LoopKeepsOthers(RenameOne(db, src, dst, order[0]), src, dst, order[1..]);
    }
  }

  lemma TreeSpares(x: Write, db: Db, src: string, dst: string)
    requires Foreign(RepathTree(src, dst), x, db)
    ensures Spared(x, db, RenameRows(db, src, dst))
  {
    hide FinalPath, MovesFolder, FindPath, Selected, RenameLoop;
    var order := ScanOrder(db, src, db.nextItem);
    LoopKeepsOthers(db, src, dst, order);
    TargetStays(x, db, RenameRows(db, src, dst));
  }

  lemma OthersAreCounted(x: Write, s: State, t: State, a: Act, own: nat)
    requires OtherStep(x, s, t, a) && Counted(s, x.rid, own)
    ensures Counted(t, x.rid, own)
  {
    hide DbStep, DiskStep, DriveStep;
  }

  lemma OtherKeeps(x: Write, s: State, t: State, a: Act)
    requires Facts(x, s) && OtherStep(x, s, t, a) && Valid(s.w.db)
    ensures Facts(x, t)
  {
    hide Valid, FileName, DbStep, DiskStep, DriveStep, Counted, Foreign;
    ForeignSpares(x, s.w.db, a);
    OthersAreCounted(x, s, t, a, Own(x, s.pc));
  }

  // From the engine call on the echo is absorbed: by the registry, by the fingerprint, by the path
  // or by the row being gone.
  lemma EchoIsAbsorbed(x: Write, s: State, c: Change, now: int)
    requires Facts(x, s) && s.pc >= EngineDone(x) && IsEcho(x, c)
    ensures RemoteActs(s.w, c, now) == Some([])
  {
    hide Valid, FileName;
  }

  ghost predicate IsEchoRun(x: Write, states: seq<State>) {
    && |states| > 0
    && Facts(x, states[0]) && states[0].pc == 0
    && (forall i :: 0 <= i < |states| - 1 ==> Moves(x, states[i], states[i + 1]))
    && (forall i :: 0 <= i < |states| ==> Valid(states[i].w.db))
    && (MovesFolder(x) ==> forall i :: 0 <= i < |states| ==> LiteralOnly(states[i].w.db, x.path))
  }

  lemma {:induction false} FactsHold(x: Write, states: seq<State>, i: nat)
    requires Proper(x) && IsEchoRun(x, states) && i < |states|
    ensures Facts(x, states[i])
    decreases i
  {
    hide Facts, OwnStep, OtherStep;
    if i > 0 {
      FactsHold(x, states, i - 1);
      MovesKeep(x, states[i - 1], states[i]);
    }
  }

  lemma MovesKeep(x: Write, s: State, t: State)
    requires Proper(x) && Facts(x, s) && Moves(x, s, t) && Valid(s.w.db)
    requires MovesFolder(x) ==> LiteralOnly(s.w.db, x.path)
    ensures Facts(x, t)
  {
    hide Facts, OwnStep, OtherStep;
    if OwnStep(x, s, t) {
      match x
      case Edit(_, _, _, _, _) => OwnKeepsEdit(x, s, t);
      case Create(_, _, _, _, _, _) => OwnKeepsCreate(x, s, t);
      case Move(_, _, _, _, _, _) => OwnKeepsMove(x, s, t);
      case Remove(_, _, _) => OwnKeepsRemove(x, s, t);
    } else {
      var a :| OtherStep(x, s, t, a);
      OtherKeeps(x, s, t, a);
    }
  }

  // Self-echo safety over every interleaving.
  lemma OwnWritesAreNeverEchoed(x: Write, states: seq<State>, i: nat, c: Change, now: int)
    requires Proper(x) && IsEchoRun(x, states) && i < |states|
    requires states[i].pc >= EngineDone(x) && IsEcho(x, c)
    ensures RemoteActs(states[i].w, c, now) == Some([])
  {
    FactsHold(x, states, i);
    EchoIsAbsorbed(x, states[i], c, now);
  }

  // ---- the programs are what the dispatcher runs -----------------------------------------

  ghost predicate FreshRegistry(w: World, rid: string) {
    (forall r :: r in w.inFlight ==> w.inFlight[r] >= 1) && Marks(w.inFlight, rid) == 0
  }

  lemma EditsAreWrites(w: World, id: nat, rid: string, a: Answers, now: int)
    requires id in w.db.items && IsFile(w.disk, w.db.items[id].path) && a.reply.Accepted?
    requires w.db.items[id].trashedAt.None? && Sole(w.db, id, rid) && FreshRegistry(w, rid)
    requires !HasPrint(w.db, id, w.disk[w.db.items[id].path].bytes)
    ensures var path := w.db.items[id].path;
      var x := Edit(id, rid, path, w.disk[path].bytes, now);
      UploadEffect(w, id, a, now) == Effect(Program(x), true) && Facts(x, State(w, 0, 0))
  {
    hide UpdateActs, FolderFor, FirstUpload, RecordUpload, MoveActs;
  }

  lemma ActKeepsFacts(x: Write, w: World, act: Act)
    requires Facts(x, State(w, 0, 0)) && Foreign(act, x, w.db) && !act.Mark? && !act.Unmark? && Valid(w.db)
    ensures Facts(x, State(Step(w, act), 0, 0))
  {
    hide Facts, Foreign, Valid, Step;
    OtherKeeps(x, State(w, 0, 0), State(Step(w, act), 0, 0), act);
  }

  lemma StartsAtPath(x: Write, w: World)
    requires Facts(x, State(w, 0, 0))
    ensures x.id in w.db.items && w.db.items[x.id].path == x.path
  {
    hide FileName;
  }

  // A folder on the way is neither the item nor the id being written.
  lemma PersistKeepsFacts(x: Write, w: World, rel: string, rid: string, now: int)
    requires Facts(x, State(w, 0, 0)) && Valid(w.db) && rid != x.rid && rel != x.path
    ensures Facts(x, State(Run(w, PersistActs(w, rel, rid, now)), 0, 0))
  {
    hide Run, Valid, Facts, FindPath, Step, Foreign;
    StartsAtPath(x, w);
    var here := FindPath(w.db, rel);
    if here.None? {
      var row := Row(rel, Dir, Some(rid), None, None, now, Synced, None);
      RunOne(w, InsertItem(row));
      LinkIsForeign(x, w.db, 0, row, rid);
      ActKeepsFacts(x, w, InsertItem(row));
    } else if w.db.items[here.value].remoteId != Some(rid) {
      RunOne(w, LinkRemote(here.value, rid));
      LinkIsForeign(x, w.db, here.value, NewLocal(rel, Dir), rid);
      ActKeepsFacts(x, w, LinkRemote(here.value, rid));
    } else {
      RunNone(w);
    }
  }

  lemma LinkIsForeign(x: Write, db: Db, id: nat, row: Row, rid: string)
    requires rid != x.rid && row.remoteId != Some(x.rid)
    ensures Foreign(InsertItem(row), x, db) && (id != x.id ==> Foreign(LinkRemote(id, rid), x, db))
  {
  }

  lemma SegmentKeepsFacts(x: Write, w: World, current: string, rel: string, seg: string, a: Answers, now: int)
    requires Facts(x, State(w, 0, 0)) && Valid(w.db) && rel != x.path
    requires SegmentId(w.drive, current, rel, seg, a).Some? && SegmentId(w.drive, current, rel, seg, a).value != x.rid
    ensures Facts(x, State(Run(w, SegmentActs(w, current, rel, seg, a, now)), 0, 0))
  {
    hide Run, Valid, Facts, PersistActs, FindFolder;
    var id := SegmentId(w.drive, current, rel, seg, a).value;
    if FindFolder(w.drive, current, seg, a).Some? {
      assert [] + PersistActs(w, rel, id, now) == PersistActs(w, rel, id, now);
      PersistKeepsFacts(x, w, rel, id, now);
    } else {
      var made := CreateNode(id, FolderNode(seg, current));
      RunOne(w, made);
      RunConcat(w, [made], PersistActs(w, rel, id, now));
      PersistReadsRows(w, Step(w, made), rel, id, now);
      ActKeepsFacts(x, w, made);
      PersistKeepsFacts(x, Step(w, made), rel, id, now);
    }
  }

  lemma {:induction false} EnsureKeepsFacts(x: Write, w: World, current: string, done: string, segs: seq<string>,
          a: Answers, now: int)
    requires Facts(x, State(w, 0, 0)) && Inv(w.db)
    requires x.rid !in Visited(w.drive, current, done, segs, a) && x.path !in FolderPaths(done, segs)
    ensures Facts(x, State(Run(w, EnsureActs(w, current, done, segs, a, now)), 0, 0))
    decreases |segs|
  {
    hide Run, Facts, Inv, SegmentActs, SegmentId, SegmentDrive, Join;
    RunShort(w);
    if segs != [] {
      var rel := Join(done, segs[0]);
      var next := SegmentId(w.drive, current, rel, segs[0], a);
      if next.Some? {
        var first := SegmentActs(w, current, rel, segs[0], a, now);
        InvIsValid(w.db);
        SegmentKeepsFacts(x, w, current, rel, segs[0], a, now);
        SegmentKnows(w, current, rel, segs[0], a, now);
        SegmentRuns(w, current, rel, segs[0], a, now);
        EnsureKeepsFacts(x, Run(w, first), next.value, rel, segs[1..], a, now);
        RunConcat(w, first, EnsureActs(Run(w, first), next.value, rel, segs[1..], a, now));
      }
    }
  }

  // No folder on the way has the id in question: what is created gets ids of its own.
  ghost predicate OffTheWay(w: World, rel: string, a: Answers, rid: string) {
    rid !in Visited(w.drive, a.root, "", Segments(rel), a)
  }

  lemma CreatesAreWrites(w: World, id: nat, a: Answers, now: int)
    requires Inv(w.db) && id in w.db.items && IsFile(w.disk, w.db.items[id].path) && a.reply.Accepted?
    requires w.db.items[id].path != "" && w.db.items[id].trashedAt.None? && w.db.items[id].remoteId.None?
    requires Nobody(w.db, a.newId(w.db.items[id].path)) && FreshRegistry(w, a.newId(w.db.items[id].path))
    requires !HasPrint(w.db, id, w.disk[w.db.items[id].path].bytes)
    requires FolderId(w.drive, ParentDir(w.db.items[id].path), a).Some?
    requires OffTheWay(w, ParentDir(w.db.items[id].path), a, a.newId(w.db.items[id].path))
    ensures var path := w.db.items[id].path;
      var folder, parent := FolderFor(w, ParentDir(path), a, now), FolderId(w.drive, ParentDir(path), a).value;
      var x := Create(id, a.newId(path), path, w.disk[path].bytes, parent, now);
      && UploadEffect(w, id, a, now) == Effect(folder + Program(x), true)
      && Facts(x, State(Run(w, folder), 0, 0))
  {
    hide UpdateActs, EnsureActs, EnsuredId, Segments, ParentDir, FileName, FirstUpload, RecordUpload, MoveActs, Inv,
        Run, Visited, FolderPaths;
    var path := w.db.items[id].path;
    var x := Create(id, a.newId(path), path, w.disk[path].bytes, FolderId(w.drive, ParentDir(path), a).value, now);
    FolderPathsAreShort(ParentDir(path));
    EnsureKeepsFacts(x, w, a.root, "", Segments(ParentDir(path)), a, now);
  }

  lemma MovesAreWrites(w: World, id: nat, rid: string, newRel: string, a: Answers, now: int)
    requires Inv(w.db) && id in w.db.items && w.db.items[id].trashedAt.None? && a.reply.Accepted?
    requires Sole(w.db, id, rid) && FreshRegistry(w, rid)
    requires FolderId(w.drive, ParentDir(newRel), a).Some? && OffTheWay(w, ParentDir(newRel), a, rid)
    requires w.db.items[id].path !in FolderPaths("", Segments(ParentDir(newRel)))
    ensures var row := w.db.items[id];
      var folder, parent := FolderFor(w, ParentDir(newRel), a, now), FolderId(w.drive, ParentDir(newRel), a).value;
      var x := Move(id, rid, row.path, row, newRel, parent);
      && RenameRemoteEffect(w, id, newRel, a, now) == Effect(folder + Program(x), true)
      && Facts(x, State(Run(w, folder), 0, 0))
  {
    hide EnsureActs, EnsuredId, Segments, ParentDir, FileName, MoveActs, UpdateActs, RecordUpload, Inv, Run, Visited,
        FolderPaths;
    var row := w.db.items[id];
    var x := Move(id, rid, row.path, row, newRel, FolderId(w.drive, ParentDir(newRel), a).value);
    EnsureKeepsFacts(x, w, a.root, "", Segments(ParentDir(newRel)), a, now);
  }

  lemma DeletesAreWrites(w: World, id: nat, a: Answers)
    requires id in w.db.items && w.db.items[id].remoteId.Some? && a.reply.Accepted?
    requires Sole(w.db, id, w.db.items[id].remoteId.value) && FreshRegistry(w, w.db.items[id].remoteId.value)
    ensures var x := Remove(id, w.db.items[id].remoteId.value, w.db.items[id].path);
      DeleteRemoteEffect(w, id, a) == Effect(Program(x), true) && Facts(x, State(w, 0, 0))
  {
  }

  // ---- the other tasks are foreign -------------------------------------------------------

  ghost predicate AllForeign(x: Write, acts: seq<Act>, db: Db) {
    forall a :: a in acts ==> Foreign(a, x, db)
  }

  lemma FileChangeIsForeign(x: Write, w: World, c: Change, known: Option<nat>, now: int, db: Db)
    requires c.file.Some? && c.file.value.md5.Some? && c.file.value.id != x.rid
    requires known.Some? ==> known.value in w.db.items && known.value != x.id
    ensures FileActs(w, c, known, now).Some? ==> AllForeign(x, FileActs(w, c, known, now).value, db)
  {
    hide ParentDir, MoveTree, ConflictPath, FindPath, SparesTarget;
  }

  // The change consumer, working on any other Drive id, whatever it read and however late it writes.
  lemma ConsumerIsForeign(x: Write, w: World, c: Change, now: int, db: Db)
    requires c.fileId != x.rid && (c.file.Some? ==> c.file.value.id == c.fileId)
    requires x.id in w.db.items ==> w.db.items[x.id].remoteId == Some(x.rid) || w.db.items[x.id].remoteId.None?
    ensures RemoteActs(w, c, now).Some? ==> AllForeign(x, RemoteActs(w, c, now).value, db)
  {
    hide FileActs, ShortcutPath, FindPath, SparesTarget;
    var known := FindRemote(w.db, c.fileId);
    if c.file.Some? && c.file.value.md5.Some? {
      FileChangeIsForeign(x, w, c, known, now, db);
    }
  }

  // An event about the item itself, or about the destination of a folder that moves.
  ghost predicate Concerns(x: Write, w: World, p: string) {
    (x.id in w.db.items && w.db.items[x.id].path == p) || (MovesFolder(x) && p == x.newRel)
  }

  // The watcher side, for every event that does not concern the item; however late it writes, unless
  // the row it read has been moved to the folder's destination meanwhile.
  lemma WatcherIsForeign(x: Write, w: World, e: WatchEvent, walk: seq<string>, now: int, db: Db)
    requires e.Deleted? ==> !Concerns(x, w, e.path)
    requires e.Renamed? ==> !Concerns(x, w, e.from) && e.to != x.path && e.to != FinalPath(x)
    requires MovesFolder(x) ==> forall id :: id in db.items && id in w.db.items && db.items[id].path == x.newRel ==>
      w.db.items[id].path == x.newRel
    ensures AllForeign(x, LocalActs(w, e, walk, now), db)
  {
    hide WalkActs;
    match e
    case Created(p) => WalkIsForeign(x, w, [p] + walk, now, db);
    case Modified(p) => WalkIsForeign(x, w, [p] + walk, now, db);
    case Renamed(_, to) => WalkIsForeign(x, w, [to] + walk, now, db);
    case Deleted(_) =>
  }

  lemma {:induction false} WalkIsForeign(x: Write, w: World, entries: seq<string>, now: int, db: Db)
    ensures AllForeign(x, WalkActs(w, entries, now), db)
    decreases |entries|
  {
    hide Run, SparesTarget;
    if entries != [] {
      WalkIsForeign(x, Run(w, EntryActs(w, entries[0], now)), entries[1..], now, db);
    }
  }

  // A later directory rename, on either side, that takes neither the item nor the destination of a
  // moving folder along.
  lemma RenamesElsewhereAreForeign(x: Write, w: World, id: nat, newRel: string, rid: string, parent: string)
    requires id in w.db.items && w.db.items[id].kind.Dir?
    requires forall j :: Affected(w.db, w.db.items[id].path, j) ==> j != x.id && SparesTarget(x, w.db, j)
    ensures AllForeign(x, RenameLocalEffect(w, id, newRel).acts, w.db)
    ensures AllForeign(x, MoveActs(id, w.db.items[id], rid, parent, newRel), w.db)
  {
    hide *;
    ElsewhereIsForeign(x, w.db, w.db.items[id].path, newRel);
    LocalRenameIsForeign(x, w, id, newRel);
    FolderMoveIsForeign(x, w.db, id, w.db.items[id], rid, parent, newRel);
  }

  lemma LocalRenameIsForeign(x: Write, w: World, id: nat, newRel: string)
    requires id in w.db.items && Foreign(RepathTree(w.db.items[id].path, newRel), x, w.db)
    ensures AllForeign(x, RenameLocalEffect(w, id, newRel).acts, w.db)
  {
    hide Foreign, AllForeign, Affected, ParentDir, Below, MkdirAll, MkdirOk, RenameOutcome, Mergeable;
    RenameListsAreForeign(x, w.db, ParentDir(newRel), w.db.items[id].path, newRel);
  }

  lemma RenameListsAreForeign(x: Write, db: Db, up: string, src: string, dst: string)
    requires Foreign(RepathTree(src, dst), x, db)
    ensures AllForeign(x, [], db) && AllForeign(x, [MakeDirs(up)], db)
    ensures AllForeign(x, [MakeDirs(up), RepathTree(src, dst)], db)
    ensures AllForeign(x, [MakeDirs(up), MoveLocal(src, dst), RepathTree(src, dst)], db)
  {
    assert Foreign(MakeDirs(up), x, db) &&
        Foreign(MoveLocal(src, dst), x, db) by { HarmlessActs(x, db, up, src, dst, "", ""); }
    hide Foreign;
  }

  lemma FolderMoveIsForeign(x: Write, db: Db, id: nat, row: Row, rid: string, parent: string, newRel: string)
    requires row.kind.Dir? && Foreign(RepathTree(row.path, newRel), x, db)
    ensures AllForeign(x, MoveActs(id, row, rid, parent, newRel), db)
  {
    hide Foreign, AllForeign, Affected, FileName;
    HarmlessActs(x, db, "", row.path, newRel, rid, FileName(newRel));
    ShortIsForeign(x, db, MoveActs(id, row, rid, parent, newRel));
  }

  lemma ShortIsForeign(x: Write, db: Db, acts: seq<Act>)
    requires |acts| <= 4
    requires |acts| > 0 ==> Foreign(acts[0], x, db)
    requires |acts| > 1 ==> Foreign(acts[1], x, db)
    requires |acts| > 2 ==> Foreign(acts[2], x, db)
    requires |acts| > 3 ==> Foreign(acts[3], x, db)
    ensures AllForeign(x, acts, db)
  {
    hide Foreign;
  }

  lemma ElsewhereIsForeign(x: Write, db: Db, src: string, dst: string)
    requires forall j :: Affected(db, src, j) ==> j != x.id && SparesTarget(x, db, j)
    ensures Foreign(RepathTree(src, dst), x, db)
  {
    hide Affected, SparesTarget;
  }

  lemma HarmlessActs(x: Write, db: Db, up: string, src: string, dst: string, rid: string, name: string)
    ensures Foreign(MakeDirs(up), x, db) && Foreign(MoveLocal(src, dst), x, db)
    ensures forall parent :: Foreign(MoveNode(rid, parent, name), x, db)
    ensures Foreign(Mark(rid), x, db) && Foreign(Unmark(rid), x, db)
  {
  }

  // ---- where it does not hold ------------------------------------------------------------

  // A renamed shortcut is the exception: Drive reports the document under the file's new name, and
  // the reconciler appends the extension a second time. The echo always queues another rename.
  lemma ShortcutRenameIsEchoed(w: World, id: nat, rid: string, newRel: string, ext: string, pointer: Bytes, c: Change,
          now: int)
    requires Owner(w.db, id, rid, newRel) && rid !in w.inFlight
    requires c.fileId == rid && !c.removed && c.path == Some(newRel)
    requires c.file.Some? && !c.file.value.trashed && c.file.value.mime == NativeDoc(ext, pointer)
    ensures RemoteActs(w, c, now) == Some([Queue(id, RenameLocal(newRel + "." + ext), now)])
  {
    assert |newRel + "." + ext| > |newRel|;
  }

  // A crash drops the registry. If it falls between the engine call and the fingerprint of an
  // edit, the echo is still absorbed exactly when the row had a fingerprint to compare with.
  lemma CrashBeforeFingerprint(x: Write, w: World, c: Change, now: int)
    requires x.Edit? && Owner(w.db, x.id, x.rid, x.path) && IsEcho(x, c) && x.rid !in w.inFlight
    requires IsFile(w.disk, x.path) && w.disk[x.path].bytes == x.bytes && !HasPrint(w.db, x.id, x.bytes)
    ensures RemoteActs(w, c, now) == Some([]) <==> w.db.items[x.id].md5.Some?
  {
  }

  // A crash between the two row writes of a first upload leaves a linked row without fingerprint:
  // there the echo queues a download; before the link and after the fingerprint it is absorbed.
  lemma CrashDuringFirstUpload(x: Write, w: World, c: Change, now: int)
    requires x.Create? && IsEcho(x, c) && x.rid !in w.inFlight
    requires x.id in w.db.items && w.db.items[x.id].path == x.path && w.db.items[x.id].trashedAt.None?
    requires Nobody(w.db, x.rid) || Sole(w.db, x.id, x.rid)
    requires Sole(w.db, x.id, x.rid) ==> w.db.items[x.id].md5.None? || HasPrint(w.db, x.id, x.bytes)
    ensures RemoteActs(w, c, now) == Some([]) <==> Nobody(w.db, x.rid) || HasPrint(w.db, x.id, x.bytes)
  {
  }
}
