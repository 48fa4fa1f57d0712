// What the daemon's tasks share: the tables, the mapped folder, Drive and the in-flight registry.
// A task touches them through atomic acts (one SQL statement or transaction, one file system
// call, one engine call, one registry update); between two acts any other task may run, and a
// crash may cut the rest off.
module World {
  import opened Paths
  import opened Tables
  import opened RenameSubtree
  import opened Disk

  datatype DriveNode = DriveNode(name: string, parents: seq<string>, folder: bool, bytes: Bytes, trashed: bool)

  datatype World = World(db: Db, disk: Disk, drive: map<string, DriveNode>, inFlight: map<string, nat>)

  datatype Act =
    | InsertItem(row: Row)
    | DeleteItem(id: nat)
    | LinkRemote(id: nat, rid: string)
    | Fingerprint(id: nat, size: int, md5: Hash, at: int)
    | Lifecycle(id: nat, state: LifeState)
    | Tombstone(id: nat, since: Option<int>)
    | Repath(id: nat, path: string)
    | RepathTree(src: string, dst: string)
    | Queue(id: nat, op: Operation, at: int)
    | OpenConflict(id: nat, original: string, conflict: string, at: int)
    | CloseConflicts(path: string)
    | FinishOperation(o: nat)
    | Reschedule(o: nat, next: int)
    | MakeDirs(path: string)
    | WriteFile(path: string, bytes: Bytes)
    | RemoveTree(path: string)
    | MoveLocal(src: string, dst: string)
    | PutContent(rid: string, bytes: Bytes)
    | CreateNode(rid: string, node: DriveNode)
    | MoveNode(rid: string, parent: string, name: string)
    | TrashNode(rid: string)
    | UnlinkNode(rid: string)
    | Mark(rid: string)
    | Unmark(rid: string)

  // Rowid order of the rows a SELECT for the subtree returns.
  function ScanOrder(db: Db, src: string, n: nat): (order: seq<nat>)
    ensures forall id: nat :: id in order <==> id < n && Affected(db, src, id)
    ensures forall i, j :: 0 <= i < j < |order| ==> order[i] != order[j]
  {
    if n == 0 then []
    else ScanOrder(db, src, n - 1) + if Affected(db, src, n - 1) then [n - 1] else []
  }

  ghost function RenameRows(db: Db, src: string, dst: string): Db {
    RenameLoop(db, src, dst, ScanOrder(db, src, db.nextItem))
  }

  // `create_dir_all`
  function MkdirAll(d: Disk, p: string): Disk
    decreases |p|
  {
    if p == "" || p in d then d else MkdirAll(d, ParentDir(p))[p := DirNode]
  }

  predicate MkdirOk(d: Disk, p: string)
    decreases |p|
  {
    p == "" || if p in d then d[p].DirNode? else MkdirOk(d, ParentDir(p))
  }

  lemma {:induction false} MkdirAddsAncestors(d: Disk, up: string)
    ensures forall q :: q in d ==> q in MkdirAll(d, up) && MkdirAll(d, up)[q] == d[q]
    ensures forall q :: q in MkdirAll(d, up) && q !in d ==> q != "" && Within(up, q) && MkdirAll(d, up)[q] == DirNode
    decreases |up|
  {
    if up != "" && up !in d {
      MkdirAddsAncestors(d, ParentDir(up));
      forall q | q in MkdirAll(d, ParentDir(up)) && q !in d ensures Within(up, q) {
        BelowTransitive(up, ParentDir(up), q);
      }
    }
  }

  function Removed(d: Disk, p: string): Disk {
    map q | q in d && !Within(q, p) :: d[q]
  }

  function Marks(inFlight: map<string, nat>, rid: string): nat {
    if rid in inFlight then inFlight[rid] else 0
  }

  function Marked(inFlight: map<string, nat>, rid: string): map<string, nat> {
    inFlight[rid := Marks(inFlight, rid) + 1]
  }

  function Unmarked(inFlight: map<string, nat>, rid: string): map<string, nat> {
    if rid !in inFlight then inFlight
    else if inFlight[rid] <= 1 then inFlight - {rid}
    else inFlight[rid := inFlight[rid] - 1]
  }

  ghost function DbStep(db: Db, a: Act): Db {
    match a
    case InsertItem(row) => InsertRow(db, row)
    case DeleteItem(id) => DropRows(db, {id})
    case LinkRemote(id, rid) => SetRemoteId(db, id, rid)
    case Fingerprint(id, size, md5, at) => SetFingerprint(db, id, size, md5, at)
    case Lifecycle(id, state) => SetState(db, id, state)
    case Tombstone(id, since) => SetTrashed(db, id, since)
    case Repath(id, path) => SetPath(db, id, path)
    case RepathTree(src, dst) => RenameRows(db, src, dst)
    case Queue(id, op, at) => Enqueue(db, id, op, at)
    case OpenConflict(id, original, conflict, at) => AddConflict(db, id, original, conflict, at)
    case CloseConflicts(path) => DropConflicts(db, path)
    case FinishOperation(o) => FinishOp(db, o)
    case Reschedule(o, next) => MarkAttempt(db, o, next)
    case _ => db
  }

  ghost function DiskStep(d: Disk, a: Act): Disk {
    match a
    case MakeDirs(path) => MkdirAll(d, path)
    case WriteFile(path, bytes) => d[path := FileNode(bytes)]
    case RemoveTree(path) => Removed(d, path)
    case MoveLocal(src, dst) => MoveTree(d, src, dst)
    case _ => d
  }

  ghost function DriveStep(drive: map<string, DriveNode>, a: Act): map<string, DriveNode> {
    match a
    case PutContent(rid, bytes) => if rid in drive then drive[rid := drive[rid].(bytes := bytes)] else drive
    case CreateNode(rid, node) => drive[rid := node]
    case MoveNode(rid, parent, name) =>
      if rid in drive then drive[rid := drive[rid].(parents := [parent], name := name)] else drive
    case TrashNode(rid) => if rid in drive then drive[rid := drive[rid].(trashed := true)] else drive
    case UnlinkNode(rid) => if rid in drive then drive[rid := drive[rid].(parents := [])] else drive
    case _ => drive
  }

  ghost function Step(w: World, a: Act): World {
    World(DbStep(w.db, a), DiskStep(w.disk, a), DriveStep(w.drive, a),
      match a
      case Mark(rid) => Marked(w.inFlight, rid)
      case Unmark(rid) => Unmarked(w.inFlight, rid)
      case _ => w.inFlight)
  }

  ghost function Run(w: World, acts: seq<Act>): World
    decreases |acts|
  {
    if acts == [] then w else Run(Step(w, acts[0]), acts[1..])
  }

  lemma {:induction false} RunConcat(w: World, a: seq<Act>, b: seq<Act>)
    ensures Run(w, a + b) == Run(Run(w, a), b)
    decreases |a|
  {
    if a == [] {
      assert a + b == b;
    } else {
      assert (a + b)[1..] == a[1..] + b;
      RunConcat(Step(w, a[0]), a[1..], b);
    }
  }

  lemma {:induction false} RunNone(w: World)
    ensures Run(w, []) == w
  {
  }

  lemma {:induction false} RunOne(w: World, a: Act)
    ensures Run(w, [a]) == Step(w, a)
  {
    assert [a][1..] == [];
  }

  lemma {:induction false} RunTwo(w: World, a: Act, b: Act)
    ensures Run(w, [a, b]) == Step(Step(w, a), b)
  {
    assert [a, b][1..] == [b];
    RunOne(Step(w, a), b);
  }

  lemma {:induction false} RunThree(w: World, a: Act, b: Act, c: Act)
    ensures Run(w, [a, b, c]) == Step(Step(Step(w, a), b), c)
  {
    assert [a, b, c][1..] == [b, c];
    RunTwo(Step(w, a), b, c);
  }

  lemma {:induction false} RunFour(w: World, a: Act, b: Act, c: Act, d: Act)
    ensures Run(w, [a, b, c, d]) == Step(Step(Step(Step(w, a), b), c), d)
  {
    assert [a, b, c, d][1..] == [b, c, d];
    RunThree(Step(w, a), b, c, d);
  }

  lemma {:induction false} RunShort(w: World)
    ensures Run(w, []) == w
    ensures forall a :: Run(w, [a]) == Step(w, a)
    ensures forall a, b :: Run(w, [a, b]) == Step(Step(w, a), b)
    ensures forall a, b, c :: Run(w, [a, b, c]) == Step(Step(Step(w, a), b), c)
  {
    forall a ensures Run(w, [a]) == Step(w, a) { RunOne(w, a); }
    forall a, b ensures Run(w, [a, b]) == Step(Step(w, a), b) { RunTwo(w, a, b); }
    forall a, b, c ensures Run(w, [a, b, c]) == Step(Step(Step(w, a), b), c) { RunThree(w, a, b, c); }
  }

  // SQLite may return the rows in any order: RenameRows is the outcome for each of them, unless
  // two rows compete for one free path.
  lemma RenameRowsForAnyOrder(db: Db, src: string, dst: string, order: seq<nat>)
    requires Valid(db) && Outward(db, src, dst) && Uncontested(db, src, dst) && Enumerates(db, src, order)
    ensures RenameLoop(db, src, dst, order) == RenameRows(db, src, dst) == RenamedTable(db, src, dst)
  {
    LoopIsOneShot(db, src, dst, order);
    LoopIsOneShot(db, src, dst, ScanOrder(db, src, db.nextItem));
  }
}
