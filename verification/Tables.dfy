// The three SQLite tables that survive a restart (src/state/schema.rs) and the statements the
// daemon runs on them (src/state/items.rs, ops.rs, conflicts.rs), as functions on table values.
module Tables {
  datatype Option<+T> = None | Some(value: T)

  type Bytes = string
  // md5, idealised as an injective digest.
  datatype Hash = Md5(content: Bytes)

  datatype Kind = File | Dir
  datatype LifeState = Synced | PendingLocal | PendingRemote | InConflict | Skipped

  datatype Row = Row(
    path: string, kind: Kind, remoteId: Option<string>, size: Option<int>, md5: Option<Hash>,
    syncedAt: int, state: LifeState, trashedAt: Option<int>)

  datatype Operation =
    | Upload
    | Download(remoteId: string, size: int, md5: Hash, rel: string)
    | DeleteLocal(tombstone: bool)
    | DeleteRemote
    | RenameLocal(newRel: string)
    | RenameRemote(newRel: string)
    | CreateDirLocal
    | CreateDirRemote
    | WriteShortcut(body: Bytes)
    | MarkConflict

  datatype Pending = Pending(item: nat, op: Operation, attempts: int, due: int, enqueuedAt: int)
  datatype ConflictRecord = ConflictRecord(item: nat, original: string, conflict: string, detectedAt: int)

  datatype Db = Db(
    items: map<nat, Row>, ops: map<nat, Pending>, conflicts: map<nat, ConflictRecord>,
    nextItem: nat, nextOp: nat, nextConflict: nat)

  // What SQLite itself enforces: the unique path index, the two foreign keys, and
  // AUTOINCREMENT keys that are never handed out twice.
  ghost predicate Valid(db: Db) {
    && UniquePaths(db.items)
    && (forall o :: o in db.ops ==> db.ops[o].item in db.items)
    && (forall c :: c in db.conflicts ==> db.conflicts[c].item in db.items)
    && (forall i :: i in db.items ==> i < db.nextItem)
    && (forall o :: o in db.ops ==> o < db.nextOp)
    && (forall c :: c in db.conflicts ==> c < db.nextConflict)
  }

  ghost predicate UniquePaths(items: map<nat, Row>) {
    forall i, j :: i in items && j in items && items[i].path == items[j].path ==> i == j
  }

  ghost function MinId(s: set<nat>): (m: nat)
    requires s != {}
    ensures m in s && forall i :: i in s ==> m <= i
  {
    var x :| x in s;
    MinExists(s, x);
    var i :| i in s && forall j :: j in s ==> i <= j;
    i
  }

  lemma {:induction false} MinExists(s: set<nat>, x: nat)
    requires x in s
    ensures exists i :: i in s && forall j :: j in s ==> i <= j
  {
    if y :| y in s && y < x {
      MinExists(s, y);
    }
  }

  // `WHERE relative_path = ?` and `WHERE remote_id = ?`: the first matching row in rowid order.
  ghost function FindPath(db: Db, p: string): (r: Option<nat>)
    ensures r.Some? ==> r.value in db.items && db.items[r.value].path == p
    ensures r.Some? ==> forall j :: j in db.items && db.items[j].path == p ==> r.value <= j
    ensures r.None? ==> forall j :: j in db.items ==> db.items[j].path != p
  {
    var hits := set j | j in db.items && db.items[j].path == p;
    assert forall j :: j in db.items && db.items[j].path == p ==> j in hits;
    if hits == {} then None else Some(MinId(hits))
  }

  ghost function FindRemote(db: Db, rid: string): (r: Option<nat>)
    ensures r.Some? ==> r.value in db.items && db.items[r.value].remoteId == Some(rid)
    ensures r.Some? ==> forall j :: j in db.items && db.items[j].remoteId == Some(rid) ==> r.value <= j
    ensures r.None? ==> forall j :: j in db.items ==> db.items[j].remoteId != Some(rid)
  {
    var hits := set j | j in db.items && db.items[j].remoteId == Some(rid);
    assert forall j :: j in db.items && db.items[j].remoteId == Some(rid) ==> j in hits;
    if hits == {} then None else Some(MinId(hits))
  }

  // INSERT INTO sync_item: refused by the unique index when the path is taken.
  ghost function InsertRow(db: Db, row: Row): Db {
    if FindPath(db, row.path).Some? then db
    else db.(items := db.items[db.nextItem := row], nextItem := db.nextItem + 1)
  }

  // DELETE FROM sync_item, with ON DELETE CASCADE into the two dependent tables.
  function DropRows(db: Db, ids: set<nat>): Db {
    db.(items := db.items - ids,
        ops := map o | o in db.ops && db.ops[o].item !in ids :: db.ops[o],
        conflicts := map c | c in db.conflicts && db.conflicts[c].item !in ids :: db.conflicts[c])
  }

  // UPDATE ... WHERE id = ?: no row, no effect.
  function PutRow(db: Db, id: nat, row: Row): Db {
    if id in db.items then db.(items := db.items[id := row]) else db
  }

  function SetRemoteId(db: Db, id: nat, rid: string): Db {
    if id in db.items then PutRow(db, id, db.items[id].(remoteId := Some(rid))) else db
  }

  function SetFingerprint(db: Db, id: nat, size: int, md5: Hash, now: int): Db {
    if id in db.items then PutRow(db, id, db.items[id].(size := Some(size), md5 := Some(md5), syncedAt := now)) else db
  }

  function SetState(db: Db, id: nat, state: LifeState): Db {
    if id in db.items then PutRow(db, id, db.items[id].(state := state)) else db
  }

  function SetTrashed(db: Db, id: nat, at: Option<int>): Db {
    if id in db.items then PutRow(db, id, db.items[id].(trashedAt := at)) else db
  }

  // `set_relative_path`: any other row at the destination is dropped, the moved row wins.
  function SetPath(db: Db, id: nat, p: string): Db {
    if id in db.items then
      PutRow(DropRows(db, set j | j in db.items && j != id && db.items[j].path == p), id, db.items[id].(path := p))
    else db
  }

  // INSERT INTO pending_operation, refused by the foreign key when the item is gone.
  function Enqueue(db: Db, item: nat, op: Operation, now: int): Db {
    if item in db.items then
      db.(ops := db.ops[db.nextOp := Pending(item, op, 0, now, now)], nextOp := db.nextOp + 1)
    else db
  }

  function FinishOp(db: Db, o: nat): Db {
    db.(ops := db.ops - {o})
  }

  function MarkAttempt(db: Db, o: nat, next: int): Db {
    if o in db.ops then
      db.(ops := db.ops[o := db.ops[o].(attempts := db.ops[o].attempts + 1, due := next)])
    else db
  }

  function AddConflict(db: Db, item: nat, original: string, conflict: string, now: int): Db {
    if item in db.items then
      db.(conflicts := db.conflicts[db.nextConflict := ConflictRecord(item, original, conflict, now)],
          nextConflict := db.nextConflict + 1)
    else db
  }

  function DropConflicts(db: Db, p: string): Db {
    db.(conflicts := map c | c in db.conflicts && db.conflicts[c].original != p && db.conflicts[c].conflict != p
                     :: db.conflicts[c])
  }

  function GcTombstones(db: Db, cutoff: int): Db {
    DropRows(db, set i | i in db.items && db.items[i].trashedAt.Some? && db.items[i].trashedAt.value < cutoff)
  }
}
