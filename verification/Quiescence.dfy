// A converged folder stays converged: the echoes the watcher and the poller produce on their own
// never lead to a call to Drive, a changed row or a changed file.
module Quiescence {
  import opened Paths
  import opened Tables
  import opened Disk
  import opened World
  import opened Continuous
  import opened Runtime
  import opened Invariants
  import opened Draining
  import opened Redelivery

  predicate Fingerprinted(row: Row, bytes: Bytes) {
    row.md5 == Some(Md5(bytes)) && row.size == Some(|bytes|)
  }

  // Nothing is queued, and every tracked file on disk is the one its row describes.
  ghost predicate Converged(w: World) {
    && Inv(w.db) && w.db.ops == map[]
    && forall i :: i in w.db.items && IsFile(w.disk, w.db.items[i].path) && !w.db.items[i].state.Skipped? ==>
         Fingerprinted(w.db.items[i], w.disk[w.db.items[i].path].bytes)
  }

  datatype Signal =
    | Watched(event: WatchEvent, walk: seq<string>, at: int)
    | Polled(change: Change, at: int)

  predicate Tracked(db: Db, p: string) {
    exists i :: i in db.items && db.items[i].path == p
  }

  ghost predicate AllTracked(db: Db, p: string, walk: seq<string>) {
    Tracked(db, p) && forall q :: q in walk ==> Tracked(db, q)
  }

  // A change that reports what the row already records.
  ghost predicate Recorded(w: World, c: Change) {
    var known := FindRemote(w.db, c.fileId);
    known.Some? && !c.removed && c.file.Some? &&
    var row, f := w.db.items[known.value], c.file.value;
    if f.trashed then row.trashedAt.Some?
    else
      match f.mime
      case FolderMime => row.path == Default(c.path, f.name)
      case NativeDoc(ext, _) => row.path == ShortcutPath(Default(c.path, f.name), ext) && row.trashedAt.None?
      case Opaque =>
        f.md5.Some? ==> (
          && row.trashedAt.None? && (c.path.Some? ==> c.path.value == row.path)
          && row.md5 == f.md5 && row.size == Some(Default(f.size, 0)))
  }

  ghost predicate IsEcho(w: World, s: Signal) {
    match s
    case Polled(c, _) => Recorded(w, c)
    case Watched(e, walk, _) =>
      match e
      case Created(p) => AllTracked(w.db, p, walk)
      case Modified(p) => AllTracked(w.db, p, walk)
      case Deleted(p) => FindPath(w.db, p).Some? && w.db.items[FindPath(w.db, p).value].trashedAt.Some?
      case Renamed(from, to) => FindPath(w.db, from).None? && AllTracked(w.db, to, walk)
  }

  ghost function Hear(w: World, s: Signal): World {
    match s
    case Polled(c, at) => Deliver(w, c, at)
    case Watched(e, walk, at) => Run(w, LocalActs(w, e, walk, at))
  }

  // The reconciler hears a signal, or the dispatcher runs an operation.
  datatype Move = Heard(signal: Signal) | Dispatched(o: nat)

  ghost function After(w: World, moves: seq<Move>, a: Answers, clock: nat -> int): World
    decreases |moves|
  {
    if moves == [] then w
    else
      var next := match moves[0] case Heard(s) => Hear(w, s) case Dispatched(o) => ExecOp(w, o, a, clock);
      After(next, moves[1..], a, clock)
  }

  // Only uploads of unchanged files may be waiting; everything else is as in w.
  ghost predicate Calm(w: World, v: World) {
    && v.disk == w.disk && v.drive == w.drive && v.inFlight == w.inFlight
    && v.db.items == w.db.items && v.db.nextItem == w.db.nextItem
    && Inv(v.db)
    && forall o :: o in v.db.ops ==> v.db.ops[o].op == Upload && Unchanged(w, v.db.ops[o].item)
  }

  ghost predicate Unchanged(w: World, id: nat) {
    id in w.db.items && (IsFile(w.disk, w.db.items[id].path) ==>
        Fingerprinted(w.db.items[id], w.disk[w.db.items[id].path].bytes))
  }

  // Such an upload is skipped before any call to Drive.
  lemma UploadIsIdle(w: World, v: World, o: nat, a: Answers, clock: nat -> int)
    requires Calm(w, v)
    ensures Calm(w, ExecOp(v, o, a, clock))
    ensures ExecOp(v, o, a, clock) == v.(db := FinishOp(v.db, o))
    ensures o in v.db.ops ==> v.db.ops[o].item in v.db.items
    ensures o in v.db.ops ==> ExecEffect(v, v.db.ops[o].item, v.db.ops[o].op, a, clock(o)) == Effect([], true)
  {
    hide Run, Inv;
    ExecKeepsInv(v, o, a, clock);
    assert o in v.db.ops ==> v.db.ops[o].item in v.db.items;
    RunShort(v);
    assert o !in v.db.ops ==> v.db.ops - {o} == v.db.ops;
  }

  lemma QueueStaysCalm(w: World, v: World, id: nat, now: int)
    requires Calm(w, v) && Unchanged(w, id)
    ensures Calm(w, Run(v, [Queue(id, Upload, now)]))
  {
    hide Run, Inv, Unchanged;
    RunOne(v, Queue(id, Upload, now));
    QueueKeepsInv(v.db, id, Upload, now);
  }

  lemma EntryStaysCalm(w: World, v: World, p: string, now: int)
    requires Converged(w) && Calm(w, v) && Tracked(w.db, p)
    ensures Calm(w, Run(v, EntryActs(v, p, now)))
  {
    hide Run, Inv, Calm;
    RunShort(v);
    var known := FindPath(v.db, p);
    assert v.db.items == w.db.items && v.disk == w.disk by { CalmIsEqual(w, v); }
    assert known.Some?;
    if !IsDir(v.disk, p) && !w.db.items[known.value].state.Skipped? {
      QueueStaysCalm(w, v, known.value, now);
    }
  }

  lemma CalmIsEqual(w: World, v: World)
    requires Calm(w, v)
    ensures v.db.items == w.db.items && v.disk == w.disk && v.inFlight == w.inFlight && Inv(v.db)
  {
  }

  lemma {:induction false} WalkStaysCalm(w: World, v: World, entries: seq<string>, now: int)
    requires Converged(w) && Calm(w, v) && forall q :: q in entries ==> Tracked(w.db, q)
    ensures Calm(w, Run(v, WalkActs(v, entries, now)))
    decreases |entries|
  {
    hide Calm, EntryActs, Converged, Tracked, Run;
    if entries == [] {
      RunShort(v);
    } else {
      var first := EntryActs(v, entries[0], now);
      EntryStaysCalm(w, v, entries[0], now);
      WalkStaysCalm(w, Run(v, first), entries[1..], now);
      RunConcat(v, first, WalkActs(Run(v, first), entries[1..], now));
    }
  }

  lemma AppearanceStaysCalm(w: World, v: World, p: string, walk: seq<string>, now: int)
    requires Converged(w) && Calm(w, v) && AllTracked(w.db, p, walk)
    ensures Calm(w, Run(v, AppearedActs(v, p, walk, now)))
  {
    hide Calm, EntryActs, Converged, Tracked, Run, WalkActs;
    WalkStaysCalm(w, v, [p] + walk, now);
    EntryStaysCalm(w, v, p, now);
    RunShort(v);
  }

  lemma DeletionStaysCalm(w: World, v: World, p: string, now: int)
    requires Calm(w, v) && FindPath(w.db, p).Some? && w.db.items[FindPath(w.db, p).value].trashedAt.Some?
    ensures Calm(w, Run(v, DeletedActs(v, p, now)))
  {
    hide Run, Inv, Unchanged;
    SameFinds(w.db, v.db);
    RunOne(v, CloseConflicts(p));
    CloseKeepsInv(v.db, p);
  }

  lemma RecordedWritesNothing(w: World, c: Change, now: int)
    requires Recorded(w, c)
    ensures RemoteActs(w, c, now) == Some([])
  {
    hide ParentDir, FindRemote, FindPath, ShortcutPath, MovedFileActs, EditedFileActs;
  }

  lemma HearingStaysCalm(w: World, v: World, s: Signal)
    requires Converged(w) && Calm(w, v) && IsEcho(w, s)
    ensures Calm(w, Hear(v, s))
  {
    hide Run, Converged, Calm, AppearedActs, DeletedActs, RemoteActs, AllTracked, Inv;
    assert v.db.items == w.db.items && v.disk == w.disk && v.inFlight == w.inFlight by { CalmIsEqual(w, v); }
    SameFinds(w.db, v.db);
    match s {
      case Polled(c, at) =>
        RecordedWritesNothing(v, c, at);
        RunShort(v);
      case Watched(e, walk, at) =>
        match e {
          case Created(p) => AppearanceStaysCalm(w, v, p, walk, at);
          case Modified(p) => AppearanceStaysCalm(w, v, p, walk, at);
          case Deleted(p) => DeletionStaysCalm(w, v, p, at);
          case Renamed(_, to) => AppearanceStaysCalm(w, v, to, walk, at);
        }
    }
  }

  lemma {:induction false} MovesStayCalm(w: World, v: World, moves: seq<Move>, a: Answers, clock: nat -> int)
    requires Converged(w) && Calm(w, v)
    requires forall m :: m in moves && m.Heard? ==> IsEcho(w, m.signal)
    ensures Calm(w, After(v, moves, a, clock))
    decreases |moves|
  {
    hide Converged, Calm, IsEcho, Hear, ExecOp;
    if moves != [] {
      match moves[0] {
        case Heard(s) =>
          HearingStaysCalm(w, v, s);
          MovesStayCalm(w, Hear(v, s), moves[1..], a, clock);
        case Dispatched(o) =>
          UploadIsIdle(w, v, o, a, clock);
          MovesStayCalm(w, ExecOp(v, o, a, clock), moves[1..], a, clock);
      }
    }
  }

  lemma {:induction false} CalmDrains(w: World, v: World, k: nat, n: nat, a: Answers, clock: nat -> int)
    requires Calm(w, v) && k <= n
    ensures var u := DrainTo(v, k, n, a, clock);
      && Calm(w, u) && u.db == v.db.(ops := u.db.ops)
      && forall o :: o in u.db.ops <==> o in v.db.ops && !(k <= o < n)
    decreases n - k
  {
    hide Calm, ExecOp;
    if k < n {
      UploadIsIdle(w, v, k, a, clock);
      CalmDrains(w, ExecOp(v, k, a, clock), k + 1, n, a, clock);
    }
  }

  // Any finite run of echoes and dispatches, in any order, followed by a drain: no row, no file and
  // nothing on Drive changes, the registry is never touched and the queue is empty again.
  lemma EchoesDieOut(w: World, moves: seq<Move>, a: Answers, clock: nat -> int)
    requires Converged(w)
    requires forall m :: m in moves && m.Heard? ==> IsEcho(w, m.signal)
    ensures var v := Drain(After(w, moves, a, clock), a, clock);
      && v.db.items == w.db.items && v.disk == w.disk && v.drive == w.drive && v.inFlight == w.inFlight
      && v.db.ops == map[]
  {
    hide ExecOp, IsEcho, After;
    MovesStayCalm(w, w, moves, a, clock);
    var u := After(w, moves, a, clock);
    CalmDrains(w, u, 0, u.db.nextOp, a, clock);
  }

  // ... and no call to Drive is made on the way: whatever the dispatcher picks up has no effect.
  lemma EchoesCallNobody(w: World, moves: seq<Move>, o: nat, a: Answers, clock: nat -> int)
    requires Converged(w)
    requires forall m :: m in moves && m.Heard? ==> IsEcho(w, m.signal)
    ensures var v := After(w, moves, a, clock);
      o in v.db.ops ==> (
        && v.db.ops[o].item in v.db.items
        && ExecEffect(v, v.db.ops[o].item, v.db.ops[o].op, a, clock(o)) == Effect([], true))
  {
    hide ExecOp, IsEcho, After, ExecEffect;
    MovesStayCalm(w, w, moves, a, clock);
    UploadIsIdle(w, After(w, moves, a, clock), o, a, clock);
  }
}
