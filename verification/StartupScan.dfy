// The scan at every start of the daemon (`startup_local_scan`, src/reconcile/mod.rs): what changed
// on disk while it was down is replayed, unless Drive has moved on as well.
module StartupScan {
  import opened Paths
  import opened Tables
  import opened Disk
  import opened World
  import opened Continuous
  import opened Quiescence

  // `remote_matches_synced`: one lookup of the digest Drive has now; a failed lookup confirms nothing.
  predicate RemoteUnchanged(row: Row, digest: string -> Option<Option<Hash>>) {
    row.remoteId.Some? && digest(row.remoteId.value) == Some(row.md5)
  }

  // What the scan replays for one local entry.
  ghost function EntryEvent(w: World, p: string, ignored: string -> bool,
          digest: string -> Option<Option<Hash>>): Option<WatchEvent> {
    var known := FindPath(w.db, p);
    if ignored(p) || p !in w.disk then None
    else if known.None? then Some(Created(p))
    else
      var row := w.db.items[known.value];
      match w.disk[p]
      case DirNode => None
      case FileNode(bytes) =>
        if row.state.Skipped? || Fingerprinted(row, bytes) then None
        else if RemoteUnchanged(row, digest) then Some(Modified(p)) else None
  }

  // ... and for one row.
  ghost function RowEvent(w: World, id: nat, ignored: string -> bool,
          digest: string -> Option<Option<Hash>>): Option<WatchEvent>
    requires id in w.db.items
  {
    var row := w.db.items[id];
    if row.kind != File || row.state.Skipped? || row.trashedAt.Some? || IsFile(w.disk, row.path) ||
        ignored(row.path) then None
    else if RemoteUnchanged(row, digest) then Some(Deleted(row.path)) else None
  }

  ghost function Replay(w: World, e: Option<WatchEvent>, walk: seq<string>, now: int): World {
    match e case None => w case Some(event) => Run(w, LocalActs(w, event, walk, now))
  }

  // The first loop: every local entry, each applied before the next is looked at.
  ghost function ScanEntries(w: World, entries: seq<string>, walk: string -> seq<string>, ignored: string -> bool,
                             digest: string -> Option<Option<Hash>>, now: int): World
    decreases |entries|
  {
    if entries == [] then w
    else
      var next := Replay(w, EntryEvent(w, entries[0], ignored, digest), walk(entries[0]), now);
      ScanEntries(next, entries[1..], walk, ignored, digest, now)
  }

  // The second loop: every row that was listed.
  ghost function ScanRows(w: World, ids: seq<nat>, ignored: string -> bool, digest: string -> Option<Option<Hash>>,
          now: int): World
    decreases |ids|
  {
    if ids == [] then w
    else if ids[0] !in w.db.items then ScanRows(w, ids[1..], ignored, digest, now)
    else ScanRows(Replay(w, RowEvent(w, ids[0], ignored, digest), [], now), ids[1..], ignored, digest, now)
  }

  predicate Live(row: Row) { row.kind.File? && row.trashedAt.None? && !row.state.Skipped? }

  // Everything on disk is tracked, and every tracked file is on disk or a tombstone.
  ghost predicate Settled(w: World, ignored: string -> bool) {
    && Converged(w)
    && (forall p :: p in w.disk && !ignored(p) ==> Tracked(w.db, p))
    && (forall i :: i in w.db.items && Live(w.db.items[i]) ==> IsFile(w.disk, w.db.items[i].path))
  }

  lemma SettledEntryIsQuiet(w: World, p: string, ignored: string -> bool, digest: string -> Option<Option<Hash>>)
    requires Settled(w, ignored)
    ensures EntryEvent(w, p, ignored, digest) == None
  {
  }

  lemma {:induction false} SettledEntries(w: World, entries: seq<string>, walk: string -> seq<string>,
                                          ignored: string -> bool, digest: string -> Option<Option<Hash>>, now: int)
    requires Settled(w, ignored)
    ensures ScanEntries(w, entries, walk, ignored, digest, now) == w
    decreases |entries|
  {
    hide Settled, EntryEvent;
    if entries != [] {
      SettledEntryIsQuiet(w, entries[0], ignored, digest);
      SettledEntries(w, entries[1..], walk, ignored, digest, now);
    }
  }

  lemma {:induction false} SettledRows(w: World, ids: seq<nat>, ignored: string -> bool,
          digest: string -> Option<Option<Hash>>, now: int)
    requires Settled(w, ignored)
    ensures ScanRows(w, ids, ignored, digest, now) == w
    decreases |ids|
  {
    hide Converged, Tracked;
    if ids != [] { SettledRows(w, ids[1..], ignored, digest, now); }
  }

  // From a folder that was left in step with its index the scan changes nothing, whatever Drive
  // answers and in whatever order the entries and rows come.
  lemma ScanOfSettledFolderIsIdle(w: World, entries: seq<string>, ids: seq<nat>, walk: string -> seq<string>,
                                  ignored: string -> bool, digest: string -> Option<Option<Hash>>, now: int)
    requires Settled(w, ignored)
    ensures ScanRows(ScanEntries(w, entries, walk, ignored, digest, now), ids, ignored, digest, now) == w
  {
    hide Settled, ScanEntries, ScanRows;
    SettledEntries(w, entries, walk, ignored, digest, now);
    SettledRows(w, ids, ignored, digest, now);
  }

  // ---- what the scan may push to Drive ---------------------------------------------------

  // The directory walks: nodes below the directory, those of its subdirectories included.
  ghost predicate Walks(d: Disk, walk: string -> seq<string>) {
    && (forall p :: IsWalk(d, p, walk(p)))
    && (forall p, q, r :: q in walk(p) && r in walk(q) ==> r in walk(p))
  }

  // A tracked file that changed here while Drive does not confirm the recorded bytes.
  ghost predicate Drifted(w: World, id: nat, q: string, digest: string -> Option<Option<Hash>>) {
    && id in w.db.items && w.db.items[id].path == q && IsFile(w.disk, q) && !w.db.items[id].state.Skipped?
    && !Fingerprinted(w.db.items[id], w.disk[q].bytes) && !RemoteUnchanged(w.db.items[id], digest)
  }

  // Since operation n an upload was queued for the item.
  ghost predicate Uploads(db: Db, id: nat, n: nat) {
    exists o :: o in db.ops && o >= n && db.ops[o].item == id && db.ops[o].op == Upload
  }

  // The file lies below a directory the index does not know, and that is not ignored.
  ghost predicate Adopted(w: World, entries: seq<string>, walk: string -> seq<string>, ignored: string -> bool,
          q: string) {
    exists d :: d in entries && IsDir(w.disk, d) && FindPath(w.db, d).None? && !ignored(d) && q in walk(d)
  }

  // What the first loop may do to the world: add rows for new paths and queue work for them.
  ghost predicate Grows(v: World, u: World, paths: seq<string>) {
    && u.disk == v.disk && Valid(u.db) && v.db.nextOp <= u.db.nextOp
    && (forall i :: i in v.db.items ==> i in u.db.items && u.db.items[i] == v.db.items[i])
    && (forall i :: i in u.db.items && i !in v.db.items ==> u.db.items[i].path in paths && u.db.items[i].remoteId.None?)
    && (forall o :: o in v.db.ops ==> o in u.db.ops && u.db.ops[o] == v.db.ops[o])
    && (forall o :: o in u.db.ops && o !in v.db.ops ==>
          v.db.nextOp <= o && (u.db.ops[o].op.Upload? || u.db.ops[o].op.CreateDirRemote?))
  }

  lemma GrowsOn(v: World, u: World, t: World, a: seq<string>, b: seq<string>)
    requires Grows(v, u, a) && Grows(u, t, b)
    ensures Grows(v, t, a + b)
  {
    hide Valid;
  }

  lemma NothingGrows(v: World, paths: seq<string>)
    requires Valid(v.db)
    ensures Grows(v, v, paths)
  {
  }

  // A tracked file an upload may be queued for.
  ghost predicate Pushable(v: World, id: nat, q: string) {
    id in v.db.items && v.db.items[id].path == q && IsFile(v.disk, q) && !v.db.items[id].state.Skipped?
  }

  // The table after one entry: a row and an operation more, or just an operation, or neither.
  ghost function WithWork(db: Db, id: nat, op: Operation, now: int): Db {
    db.(ops := db.ops[db.nextOp := Pending(id, op, 0, now, now)], nextOp := db.nextOp + 1)
  }

  ghost function WithRow(db: Db, row: Row): Db {
    db.(items := db.items[db.nextItem := row], nextItem := db.nextItem + 1)
  }

  lemma EntryRuns(v: World, p: string, now: int)
    ensures var u, known := Run(v, EntryActs(v, p, now)), FindPath(v.db, p);
      u == v.(db :=
        if known.None? then
          (if IsDir(v.disk, p) then WithWork(WithRow(v.db, NewLocal(p, Dir)), v.db.nextItem, CreateDirRemote, now)
           else WithWork(WithRow(v.db, NewLocal(p, File)), v.db.nextItem, Upload, now))
        else if IsDir(v.disk, p) || v.db.items[known.value].state.Skipped? then v.db
        else WithWork(v.db, known.value, Upload, now))
  {
    hide Run, FindPath;
    var known := FindPath(v.db, p);
    if known.None? {
      var row := NewLocal(p, if IsDir(v.disk, p) then Dir else File);
      var op := if IsDir(v.disk, p) then CreateDirRemote else Upload;
      RunTwo(v, InsertItem(row), Queue(v.db.nextItem, op, now));
      InsertRuns(v, row, op, now);
    } else {
      RunNone(v);
      RunOne(v, Queue(known.value, Upload, now));
    }
  }

  lemma InsertRuns(v: World, row: Row, op: Operation, now: int)
    requires FindPath(v.db, row.path).None?
    ensures Step(Step(v, InsertItem(row)), Queue(v.db.nextItem, op, now))
      == v.(db := WithWork(WithRow(v.db, row), v.db.nextItem, op, now))
  {
    hide FindPath;
  }

  lemma WorkGrows(v: World, id: nat, op: Operation, now: int, paths: seq<string>)
    requires Valid(v.db) && id in v.db.items && (op.Upload? || op.CreateDirRemote?)
    ensures Grows(v, v.(db := WithWork(v.db, id, op, now)), paths)
  {
  }

  lemma RowGrows(v: World, row: Row)
    requires Valid(v.db) && FindPath(v.db, row.path).None? && row.remoteId.None?
    ensures Grows(v, v.(db := WithRow(v.db, row)), [row.path])
  {
    assert row.path in [row.path];
  }

  lemma EntryGrows(v: World, p: string, now: int)
    requires Valid(v.db)
    ensures var u := Run(v, EntryActs(v, p, now)); Grows(v, u, [p]) && FindPath(u.db, p).Some?
  {
    EntryRuns(v, p, now);
    hide Run, EntryActs, Grows, Valid;
    var known := FindPath(v.db, p);
    if known.None? {
      var row := NewLocal(p, if IsDir(v.disk, p) then Dir else File);
      var mid := v.(db := WithRow(v.db, row));
      RowGrows(v, row);
      GrowsIsValid(v, mid, [p]);
      WorkGrows(mid, v.db.nextItem, if IsDir(v.disk, p) then CreateDirRemote else Upload, now, []);
      GrowsOn(v, mid, Run(v, EntryActs(v, p, now)), [p], []);
      assert [p] + [] == [p];
      assert mid.db.items[v.db.nextItem].path == p;
    } else {
      NothingGrows(v, [p]);
      WorkGrows(v, known.value, Upload, now, [p]);
    }
  }

  lemma EntryUploads(v: World, p: string, now: int, id: nat, q: string, n: nat)
    requires Valid(v.db) && Pushable(v, id, q) && n <= v.db.nextOp
    ensures Uploads(Run(v, EntryActs(v, p, now)).db, id, n) <==> Uploads(v.db, id, n) || p == q
  {
    EntryRuns(v, p, now);
    PathIsTheirs(v, id, q);
    hide Run, EntryActs, Valid, FindPath, Pushable, Uploads;
    var known := FindPath(v.db, p);
    if known.None? {
      MoreUploads(WithRow(v.db, NewLocal(p, File)), v.db.nextItem, Upload, now, id, n);
      MoreUploads(WithRow(v.db, NewLocal(p, Dir)), v.db.nextItem, CreateDirRemote, now, id, n);
      RowsDoNotUpload(v.db, NewLocal(p, File), id, n);
      RowsDoNotUpload(v.db, NewLocal(p, Dir), id, n);
    } else {
      MoreUploads(v.db, known.value, Upload, now, id, n);
    }
  }

  lemma MoreUploads(db: Db, item: nat, op: Operation, now: int, id: nat, n: nat)
    requires n <= db.nextOp && forall o :: o in db.ops ==> o < db.nextOp
    ensures Uploads(WithWork(db, item, op, now), id, n) <==> Uploads(db, id, n) || (item == id && op == Upload)
  {
    var after := WithWork(db, item, op, now);
    assert after.ops[db.nextOp] == Pending(item, op, 0, now, now);
    if o :| o in db.ops && o >= n && db.ops[o].item == id && db.ops[o].op == Upload {
      assert after.ops[o] == db.ops[o];
    }
  }

  lemma RowsDoNotUpload(db: Db, row: Row, id: nat, n: nat)
    ensures Uploads(WithRow(db, row), id, n) <==> Uploads(db, id, n)
  {
  }

  lemma PathIsTheirs(v: World, id: nat, q: string)
    requires Valid(v.db) && Pushable(v, id, q)
    ensures FindPath(v.db, q) == Some(id) && id < v.db.nextItem && !IsDir(v.disk, q) && !v.db.items[id].state.Skipped?
    ensures forall p :: p != q ==> FindPath(v.db, p) != Some(id)
    ensures forall o :: o in v.db.ops ==> o < v.db.nextOp
  {
  }

  lemma {:induction false} WalkGrows(v: World, list: seq<string>, now: int)
    requires Valid(v.db)
    ensures var u := Run(v, WalkActs(v, list, now)); Grows(v, u, list) && forall p :: p in list ==>
        FindPath(u.db, p).Some?
    decreases |list|
  {
    hide Run, EntryActs, Valid, Grows, FindPath;
    RunShort(v);
    if list == [] {
      NothingGrows(v, list);
    } else {
      var first := EntryActs(v, list[0], now);
      var mid := Run(v, first);
      EntryGrows(v, list[0], now);
      GrowsIsValid(v, mid, [list[0]]);
      WalkGrows(mid, list[1..], now);
      RunConcat(v, first, WalkActs(mid, list[1..], now));
      var u := Run(v, WalkActs(v, list, now));
      assert [list[0]] + list[1..] == list;
      GrowsOn(v, mid, u, [list[0]], list[1..]);
      StillTracked(mid, u, list[1..], list[0]);
    }
  }

  lemma GrowsIsValid(v: World, u: World, paths: seq<string>)
    requires Grows(v, u, paths)
    ensures Valid(u.db) && v.db.nextOp <= u.db.nextOp && u.disk == v.disk
  {
  }

  lemma StillTracked(v: World, u: World, paths: seq<string>, p: string)
    requires Grows(v, u, paths)
    ensures FindPath(v.db, p).Some? ==> FindPath(u.db, p).Some?
    ensures FindPath(v.db, p).None? && FindPath(u.db, p).Some? ==> p in paths
  {
    hide Valid;
    if FindPath(v.db, p).Some? { assert u.db.items[FindPath(v.db, p).value].path == p; }
  }

  lemma StillPushable(v: World, u: World, paths: seq<string>, id: nat, q: string)
    requires Grows(v, u, paths) && Pushable(v, id, q)
    ensures Pushable(u, id, q)
  {
    hide Valid;
  }

  lemma {:induction false} WalkUploads(v: World, list: seq<string>, now: int, id: nat, q: string, n: nat)
    requires Valid(v.db) && Pushable(v, id, q) && n <= v.db.nextOp
    ensures Uploads(Run(v, WalkActs(v, list, now)).db, id, n) <==> Uploads(v.db, id, n) || q in list
    decreases |list|
  {
    hide Run, EntryActs, Valid, Grows, FindPath, Uploads, Pushable;
    RunShort(v);
    if list != [] {
      var first := EntryActs(v, list[0], now);
      var mid := Run(v, first);
      EntryGrows(v, list[0], now);
      EntryUploads(v, list[0], now, id, q, n);
      GrowsIsValid(v, mid, [list[0]]);
      StillPushable(v, mid, [list[0]], id, q);
      WalkUploads(mid, list[1..], now, id, q, n);
      RunConcat(v, first, WalkActs(mid, list[1..], now));
      assert [list[0]] + list[1..] == list;
    }
  }

  // What the first loop has done after some turns, seen from one drifted file: a directory that got
  // its row meanwhile took everything below it along.
  ghost predicate Swept(w: World, v: World, walk: string -> seq<string>, id: nat, q: string) {
    && v.disk == w.disk && Valid(v.db) && w.db.nextOp <= v.db.nextOp && Pushable(v, id, q)
    && id in w.db.items && v.db.items[id] == w.db.items[id]
    && (forall p :: FindPath(w.db, p).Some? ==> FindPath(v.db, p).Some?)
    && (forall p :: IsDir(w.disk, p) && FindPath(w.db, p).None? && FindPath(v.db, p).Some? && q in walk(p) ==>
          Uploads(v.db, id, w.db.nextOp))
  }

  // Looked at by itself the file is left to the poller.
  lemma LeftToPoller(w: World, v: World, walk: string -> seq<string>, ignored: string -> bool,
                     digest: string -> Option<Option<Hash>>, id: nat, q: string)
    requires Swept(w, v, walk, id, q) && Drifted(w, id, q, digest)
    ensures EntryEvent(v, q, ignored, digest) == None
  {
    PathIsTheirs(v, id, q);
  }

  // One turn of the loop queues the upload only for a directory that is new to the index.
  lemma TurnSweeps(w: World, v: World, p: string, walk: string -> seq<string>, ignored: string -> bool,
                   digest: string -> Option<Option<Hash>>, now: int, id: nat, q: string)
    requires Swept(w, v, walk, id, q) && Drifted(w, id, q, digest) && Walks(w.disk, walk)
    ensures var u := Replay(v, EntryEvent(v, p, ignored, digest), walk(p), now);
      && Swept(w, u, walk, id, q)
      && (IsDir(w.disk, p) && !ignored(p) ==> FindPath(u.db, p).Some?)
      && (Uploads(v.db, id, w.db.nextOp) ==> Uploads(u.db, id, w.db.nextOp))
      && (Uploads(u.db, id, w.db.nextOp) ==> (
            || Uploads(v.db, id, w.db.nextOp)
            || (IsDir(w.disk, p) && FindPath(w.db, p).None? && !ignored(p) && q in walk(p))))
  {
    var e := EntryEvent(v, p, ignored, digest);
    assert IsWalk(w.disk, p, walk(p));
    LeftToPoller(w, v, walk, ignored, digest, id, q);
    if e.Some? {
      var list := if IsDir(w.disk, p) then [p] + walk(p) else [p];
      ReplayWalks(v, p, ignored, digest, walk(p), now);
      hide Valid, Run, WalkActs, EntryEvent, Fingerprinted, RemoteUnchanged;
      var u := Run(v, WalkActs(v, list, now));
      assert Replay(v, e, walk(p), now) == u;
      WalkGrows(v, list, now);
      WalkUploads(v, list, now, id, q, w.db.nextOp);
      GrowsIsValid(v, u, list);
      StillPushable(v, u, list, id, q);
      SweptOn(w, v, u, p, list, walk, id, q);
    }
  }

  lemma ReplayWalks(v: World, p: string, ignored: string -> bool, digest: string -> Option<Option<Hash>>,
          walk: seq<string>, now: int)
    requires EntryEvent(v, p, ignored, digest).Some?
    ensures Replay(v, EntryEvent(v, p, ignored, digest), walk, now)
      == Run(v, WalkActs(v, if IsDir(v.disk, p) then [p] + walk else [p], now))
    ensures IsDir(v.disk, p) ==> FindPath(v.db, p).None? && !ignored(p)
    ensures p in v.disk
  {
    hide Run, FindPath;
    if IsFile(v.disk, p) {
      assert WalkActs(v, [p], now) == EntryActs(v, p, now) by {
        assert [p][1..] == [];
        assert EntryActs(v, p, now) + [] == EntryActs(v, p, now);
      }
    }
  }

  lemma SweptOn(w: World, v: World, u: World, p: string, list: seq<string>, walk: string -> seq<string>, id: nat,
          q: string)
    requires Swept(w, v, walk, id, q) && Grows(v, u, list) && Pushable(u, id, q) && Walks(w.disk, walk)
    requires list == if IsDir(w.disk, p) then [p] + walk(p) else [p]
    requires IsDir(w.disk, p) ==> FindPath(v.db, p).None?
    requires forall r :: r in list ==> FindPath(u.db, r).Some?
    requires Uploads(u.db, id, w.db.nextOp) <==> Uploads(v.db, id, w.db.nextOp) || q in list
    ensures Swept(w, u, walk, id, q)
    ensures IsDir(w.disk, p) ==> FindPath(w.db, p).None?
  {
    hide Valid, FindPath;
    GrowsIsValid(v, u, list);
    forall r ensures FindPath(w.db, r).Some? ==> FindPath(u.db, r).Some? { StillTracked(v, u, list, r); }
    forall r | IsDir(w.disk, r) && FindPath(w.db, r).None? && FindPath(u.db, r).Some? && q in walk(r)
      ensures Uploads(u.db, id, w.db.nextOp)
    {
      StillTracked(v, u, list, r);
      if FindPath(v.db, r).None? {
        assert r in list;
        if r != p { assert r in walk(p) && q in walk(p); }
        assert q in list;
      }
    }
  }

  lemma {:induction false} EntriesSweep(w: World, v: World, entries: seq<string>, walk: string -> seq<string>,
                                        ignored: string -> bool, digest: string -> Option<Option<Hash>>, now: int,
                                            id: nat, q: string)
    requires Swept(w, v, walk, id, q) && Drifted(w, id, q, digest) && Walks(w.disk, walk)
    ensures var u := ScanEntries(v, entries, walk, ignored, digest, now);
      && Swept(w, u, walk, id, q)
      && (forall p :: FindPath(v.db, p).Some? ==> FindPath(u.db, p).Some?)
      && (forall p :: p in entries && IsDir(w.disk, p) && !ignored(p) ==> FindPath(u.db, p).Some?)
      && (Uploads(v.db, id, w.db.nextOp) ==> Uploads(u.db, id, w.db.nextOp))
      && (Uploads(u.db, id, w.db.nextOp) ==> Uploads(v.db, id, w.db.nextOp) || Adopted(w, entries, walk, ignored, q))
    decreases |entries|
  {
    hide Swept, Drifted, Walks, Replay, EntryEvent, FindPath, Uploads;
    if entries != [] {
      var next := Replay(v, EntryEvent(v, entries[0], ignored, digest), walk(entries[0]), now);
      TurnSweeps(w, v, entries[0], walk, ignored, digest, now, id, q);
      TurnKeepsTracked(v, entries[0], walk, ignored, digest, now, w, id, q);
      EntriesSweep(w, next, entries[1..], walk, ignored, digest, now, id, q);
      assert entries == [entries[0]] + entries[1..];
    }
  }

  lemma TurnKeepsTracked(v: World, p: string, walk: string -> seq<string>, ignored: string -> bool,
                         digest: string -> Option<Option<Hash>>, now: int, w: World, id: nat, q: string)
    requires Swept(w, v, walk, id, q)
    ensures var u := Replay(v, EntryEvent(v, p, ignored, digest), walk(p), now);
      forall r :: FindPath(v.db, r).Some? ==> FindPath(u.db, r).Some?
  {
    hide Run, WalkActs, FindPath, Fingerprinted, RemoteUnchanged;
    if EntryEvent(v, p, ignored, digest).Some? {
      var list := if IsDir(v.disk, p) then [p] + walk(p) else [p];
      ReplayWalks(v, p, ignored, digest, walk(p), now);
      hide EntryEvent, Replay;
      WalkGrows(v, list, now);
      var u := Run(v, WalkActs(v, list, now));
      forall r ensures FindPath(v.db, r).Some? ==> FindPath(u.db, r).Some? { StillTracked(v, u, list, r); }
    }
  }

  // The first loop uploads a drifted file exactly when it lies below a directory that is neither
  // tracked nor ignored: the walk of that directory queues everything in it without asking Drive.
  lemma DriftedIsUploadedIff(w: World, entries: seq<string>, walk: string -> seq<string>, ignored: string -> bool,
                             digest: string -> Option<Option<Hash>>, now: int, id: nat, q: string)
    requires Valid(w.db) && Walks(w.disk, walk) && Drifted(w, id, q, digest)
    ensures Uploads(ScanEntries(w, entries, walk, ignored, digest, now).db, id, w.db.nextOp) <==>
        Adopted(w, entries, walk, ignored, q)
  {
    assert !Uploads(w.db, id, w.db.nextOp);
    hide Valid, Walks, ScanEntries, Fingerprinted, RemoteUnchanged, FindPath;
    EntriesSweep(w, w, entries, walk, ignored, digest, now, id, q);
  }

  lemma {:induction false} EntriesGrow(v: World, entries: seq<string>, walk: string -> seq<string>,
                                       ignored: string -> bool, digest: string -> Option<Option<Hash>>,
                                           now: int) returns (paths: seq<string>)
    requires Valid(v.db)
    ensures Grows(v, ScanEntries(v, entries, walk, ignored, digest, now), paths)
    decreases |entries|
  {
    hide Valid, Grows, EntryEvent, LocalActs, Run, WalkActs, FindPath;
    paths := [];
    if entries == [] {
      NothingGrows(v, []);
    } else {
      var next := Replay(v, EntryEvent(v, entries[0], ignored, digest), walk(entries[0]), now);
      var list := if IsDir(v.disk, entries[0]) then [entries[0]] + walk(entries[0]) else [entries[0]];
      if EntryEvent(v, entries[0], ignored, digest).Some? {
        ReplayWalks(v, entries[0], ignored, digest, walk(entries[0]), now);
        WalkGrows(v, list, now);
      } else {
        NothingGrows(v, list);
      }
      GrowsIsValid(v, next, list);
      var rest := EntriesGrow(next, entries[1..], walk, ignored, digest, now);
      paths := list + rest;
      GrowsOn(v, next, ScanEntries(v, entries, walk, ignored, digest, now), list, rest);
    }
  }

  // The second loop queues deletions, each for a row whose bytes Drive confirms.
  ghost predicate Deletes(v: World, u: World, digest: string -> Option<Option<Hash>>) {
    && u.disk == v.disk && u.db.items == v.db.items && Valid(u.db) && v.db.nextOp <= u.db.nextOp
    && (forall o :: o in v.db.ops ==> o in u.db.ops && u.db.ops[o] == v.db.ops[o])
    && (forall o :: o in u.db.ops && o !in v.db.ops ==>
          && v.db.nextOp <= o && u.db.ops[o].op == DeleteRemote && u.db.ops[o].item in v.db.items
          && RemoteUnchanged(v.db.items[u.db.ops[o].item], digest))
  }

  lemma RowRuns(v: World, id: nat, ignored: string -> bool, digest: string -> Option<Option<Hash>>, now: int)
    requires Valid(v.db) && id in v.db.items && RowEvent(v, id, ignored, digest).Some?
    ensures Replay(v, RowEvent(v, id, ignored, digest), [], now)
      == v.(db := WithWork(DropConflicts(v.db, v.db.items[id].path), id, DeleteRemote, now))
    ensures RemoteUnchanged(v.db.items[id], digest)
  {
    hide Run;
    var p := v.db.items[id].path;
    assert FindPath(v.db, p) == Some(id);
    RunTwo(v, CloseConflicts(p), Queue(id, DeleteRemote, now));
  }

  lemma RowDeletes(v: World, id: nat, ignored: string -> bool, digest: string -> Option<Option<Hash>>, now: int)
    requires Valid(v.db) && id in v.db.items
    ensures Deletes(v, Replay(v, RowEvent(v, id, ignored, digest), [], now), digest)
  {
    if RowEvent(v, id, ignored, digest).Some? {
      RowRuns(v, id, ignored, digest, now);
      hide RowEvent, RemoteUnchanged, Run, LocalActs, Replay;
      DeleteQueued(v, id, v.db.items[id].path, digest, now);
    }
  }

  lemma DeleteQueued(v: World, id: nat, p: string, digest: string -> Option<Option<Hash>>, now: int)
    requires Valid(v.db) && id in v.db.items && RemoteUnchanged(v.db.items[id], digest)
    ensures Deletes(v, v.(db := WithWork(DropConflicts(v.db, p), id, DeleteRemote, now)), digest)
  {
    hide RemoteUnchanged;
  }

  lemma DeletesOn(v: World, u: World, t: World, digest: string -> Option<Option<Hash>>)
    requires Deletes(v, u, digest) && Deletes(u, t, digest)
    ensures Deletes(v, t, digest)
  {
    hide Valid, RemoteUnchanged;
  }

  lemma {:induction false} RowsDelete(v: World, ids: seq<nat>, ignored: string -> bool,
          digest: string -> Option<Option<Hash>>, now: int)
    requires Valid(v.db)
    ensures Deletes(v, ScanRows(v, ids, ignored, digest, now), digest)
    decreases |ids|
  {
    hide Valid, RowEvent, Replay, RemoteUnchanged;
    if ids != [] {
      if ids[0] in v.db.items {
        var next := Replay(v, RowEvent(v, ids[0], ignored, digest), [], now);
        RowDeletes(v, ids[0], ignored, digest, now);
        RowsDelete(next, ids[1..], ignored, digest, now);
        DeletesOn(v, next, ScanRows(next, ids[1..], ignored, digest, now), digest);
      } else {
        RowsDelete(v, ids[1..], ignored, digest, now);
      }
    }
  }

  ghost function Scan(w: World, entries: seq<string>, ids: seq<nat>, walk: string -> seq<string>,
                      ignored: string -> bool, digest: string -> Option<Option<Hash>>, now: int): World
  {
    ScanRows(ScanEntries(w, entries, walk, ignored, digest, now), ids, ignored, digest, now)
  }

  // What the whole scan pushes over a change somebody made on Drive meanwhile: never a deletion, and
  // an upload exactly of what lies below a new directory.
  lemma ScanSparesRemoteEdits(w: World, entries: seq<string>, ids: seq<nat>, walk: string -> seq<string>,
                              ignored: string -> bool, digest: string -> Option<Option<Hash>>, now: int)
    requires Valid(w.db) && Walks(w.disk, walk)
    ensures var u := Scan(w, entries, ids, walk, ignored, digest, now);
      && (forall o :: o in u.db.ops && o >= w.db.nextOp && u.db.ops[o].op == DeleteRemote ==>
            u.db.ops[o].item in w.db.items && RemoteUnchanged(w.db.items[u.db.ops[o].item], digest))
      && (forall id, q :: Drifted(w, id, q, digest) ==>
            (Uploads(u.db, id, w.db.nextOp) <==> Adopted(w, entries, walk, ignored, q)))
  {
    var v := ScanEntries(w, entries, walk, ignored, digest, now);
    var paths := EntriesGrow(w, entries, walk, ignored, digest, now);
    GrowsIsValid(w, v, paths);
    RowsDelete(v, ids, ignored, digest, now);
    NoneWaits(w.db);
    hide Valid, Walks, ScanEntries, ScanRows, FindPath;
    var u := Scan(w, entries, ids, walk, ignored, digest, now);
    forall id, q | Drifted(w, id, q, digest)
      ensures Uploads(u.db, id, w.db.nextOp) <==> Adopted(w, entries, walk, ignored, q)
    {
      DriftedIsUploadedIff(w, entries, walk, ignored, digest, now, id, q);
      SameUploads(v, u, digest, id, w.db.nextOp);
    }
  }

  lemma NoneWaits(db: Db)
    requires Valid(db)
    ensures forall o :: o in db.ops ==> o < db.nextOp
  {
  }

  lemma SameUploads(v: World, u: World, digest: string -> Option<Option<Hash>>, id: nat, n: nat)
    requires Deletes(v, u, digest)
    ensures Uploads(u.db, id, n) <==> Uploads(v.db, id, n)
  {
    hide Valid, RemoteUnchanged;
    if o :| o in v.db.ops && o >= n && v.db.ops[o].item == id && v.db.ops[o].op == Upload {
      assert u.db.ops[o] == v.db.ops[o];
    }
  }

  // Ignored paths are left alone by both loops, and so are missing directories, tombstones and
  // pointers of native documents by the second.
  lemma IgnoredIsLeftAlone(w: World, p: string, id: nat, ignored: string -> bool,
                           digest: string -> Option<Option<Hash>>, walk: seq<string>, now: int)
    requires id in w.db.items
    ensures ignored(p) ==> Replay(w, EntryEvent(w, p, ignored, digest), walk, now) == w
    ensures var row := w.db.items[id];
      ignored(row.path) || row.kind.Dir? || row.trashedAt.Some? || row.state.Skipped? || IsFile(w.disk, row.path) ==>
        Replay(w, RowEvent(w, id, ignored, digest), walk, now) == w
  {
    hide Run, LocalActs;
  }

  // ---- what is new is queued -------------------------------------------------------------

  // Since v, row i was added for what lies at p, and operation o was queued to create it on Drive.
  ghost predicate Enters(v: World, u: World, p: string, i: nat, o: nat) {
    && i in u.db.items && i !in v.db.items && o in u.db.ops && o >= v.db.nextOp && u.db.ops[o].item == i
    && if IsDir(v.disk, p) then u.db.items[i] == Row(p, Dir, None, None, None, 0, PendingLocal, None)
         && u.db.ops[o].op == CreateDirRemote
       else u.db.items[i] == Row(p, File, None, None, None, 0, PendingLocal, None) && u.db.ops[o].op == Upload
  }

  ghost predicate Entered(v: World, u: World, p: string) { exists i, o :: Enters(v, u, p, i, o) }

  lemma EntryEnters(v: World, p: string, now: int)
    requires Valid(v.db) && FindPath(v.db, p).None?
    ensures Entered(v, Run(v, EntryActs(v, p, now)), p)
  {
    EntryRuns(v, p, now);
    hide Run, EntryActs, FindPath;
    assert Enters(v, Run(v, EntryActs(v, p, now)), p, v.db.nextItem, v.db.nextOp);
  }

  lemma EnteredOn(v: World, u: World, t: World, a: seq<string>, b: seq<string>, p: string)
    requires Grows(v, u, a) && Grows(u, t, b) && (Entered(v, u, p) || Entered(u, t, p))
    ensures Entered(v, t, p)
  {
    hide Valid;
    if Entered(v, u, p) {
      var i, o :| Enters(v, u, p, i, o);
      assert Enters(v, t, p, i, o);
    } else {
      var i, o :| Enters(u, t, p, i, o);
      assert Enters(v, t, p, i, o);
    }
  }

  // A walk leaves nothing out.
  lemma {:induction false} WalkEnters(v: World, list: seq<string>, now: int)
    requires Valid(v.db)
    ensures var u := Run(v, WalkActs(v, list, now));
      forall p :: p in list && FindPath(v.db, p).None? ==> Entered(v, u, p)
    decreases |list|
  {
    hide Run, EntryActs, Valid, Grows, FindPath, Entered;
    if list != [] {
      var first := EntryActs(v, list[0], now);
      var mid := Run(v, first);
      var u := Run(mid, WalkActs(mid, list[1..], now));
      EntryGrows(v, list[0], now);
      GrowsIsValid(v, mid, [list[0]]);
      WalkEnters(mid, list[1..], now);
      WalkGrows(mid, list[1..], now);
      RunConcat(v, first, WalkActs(mid, list[1..], now));
      forall p | p in list && FindPath(v.db, p).None? ensures Entered(v, u, p) {
        StillTracked(v, mid, [list[0]], p);
        if p == list[0] { EntryEnters(v, p, now); } else { assert p in list[1..]; }
        EnteredOn(v, mid, u, [list[0]], list[1..], p);
      }
    }
  }

  // A directory that appears takes all that lies in it along, whatever was reported of it: each entry
  // the index does not know gets its row and its operation.
  lemma ContentsAreQueued(w: World, e: WatchEvent, d: string, walk: seq<string>, now: int)
    requires Valid(w.db) && IsDir(w.disk, d)
    requires e == Created(d) || e == Modified(d) || (e.Renamed? && e.to == d && FindPath(w.db, e.from).None?)
    ensures var u := Run(w, LocalActs(w, e, walk, now));
      forall p :: (p == d || p in walk) && FindPath(w.db, p).None? ==> Entered(w, u, p)
  {
    hide Run, WalkActs, Valid, FindPath, Entered;
    WalkEnters(w, [d] + walk, now);
  }

  lemma {:induction false} EntriesEnter(v: World, entries: seq<string>, walk: string -> seq<string>,
                                        ignored: string -> bool, digest: string -> Option<Option<Hash>>, now: int)
    requires Valid(v.db)
    ensures var u := ScanEntries(v, entries, walk, ignored, digest, now);
      forall p :: p in entries && p in v.disk && !ignored(p) && FindPath(v.db, p).None? ==> Entered(v, u, p)
    decreases |entries|
  {
    hide Valid, Grows, EntryEvent, LocalActs, Run, WalkActs, FindPath, Entered;
    if entries != [] {
      var q := entries[0];
      var next := Replay(v, EntryEvent(v, q, ignored, digest), walk(q), now);
      var u := ScanEntries(next, entries[1..], walk, ignored, digest, now);
      var list := if IsDir(v.disk, q) then [q] + walk(q) else [q];
      TurnEnters(v, q, walk, ignored, digest, now);
      GrowsIsValid(v, next, list);
      EntriesEnter(next, entries[1..], walk, ignored, digest, now);
      var rest := EntriesGrow(next, entries[1..], walk, ignored, digest, now);
      forall p | p in entries && p in v.disk && !ignored(p) && FindPath(v.db, p).None? ensures Entered(v, u, p) {
        if FindPath(next.db, p).Some? {
          StillTracked(v, next, list, p);
        } else if p != q {
          assert p in entries[1..];
        }
        EnteredOn(v, next, u, list, rest, p);
      }
    }
  }

  lemma TurnEnters(v: World, q: string, walk: string -> seq<string>, ignored: string -> bool,
                   digest: string -> Option<Option<Hash>>, now: int)
    requires Valid(v.db)
    ensures var next := Replay(v, EntryEvent(v, q, ignored, digest), walk(q), now);
      var list := if IsDir(v.disk, q) then [q] + walk(q) else [q];
      && Grows(v, next, list)
      && (forall p :: FindPath(v.db, p).None? && FindPath(next.db, p).Some? ==> Entered(v, next, p))
      && (q in v.disk && !ignored(q) ==> FindPath(next.db, q).Some?)
  {
    var list := if IsDir(v.disk, q) then [q] + walk(q) else [q];
    UnknownIsReplayed(v, q, ignored, digest);
    hide Valid, Grows, EntryEvent, LocalActs, Run, WalkActs, FindPath, Entered;
    var next := Replay(v, EntryEvent(v, q, ignored, digest), walk(q), now);
    if EntryEvent(v, q, ignored, digest).Some? {
      ReplayWalks(v, q, ignored, digest, walk(q), now);
      WalkGrows(v, list, now);
      WalkEnters(v, list, now);
      forall p | FindPath(v.db, p).None? && FindPath(next.db, p).Some? ensures Entered(v, next, p) {
        StillTracked(v, next, list, p);
      }
    } else {
      NothingGrows(v, list);
    }
  }

  lemma UnknownIsReplayed(v: World, q: string, ignored: string -> bool, digest: string -> Option<Option<Hash>>)
    ensures q in v.disk && !ignored(q) && FindPath(v.db, q).None? ==> EntryEvent(v, q, ignored, digest).Some?
  {
  }

  // Everything that is new on disk, and not ignored, has a row and an operation after the scan.
  lemma OfflineCreationIsReplayed(w: World, entries: seq<string>, ids: seq<nat>, walk: string -> seq<string>,
                                  ignored: string -> bool, digest: string -> Option<Option<Hash>>, now: int, p: string)
    requires Valid(w.db) && p in entries && p in w.disk && !ignored(p) && FindPath(w.db, p).None?
    ensures Entered(w, Scan(w, entries, ids, walk, ignored, digest, now), p)
  {
    hide Valid, ScanEntries, ScanRows, FindPath;
    var v := ScanEntries(w, entries, walk, ignored, digest, now);
    EntriesEnter(w, entries, walk, ignored, digest, now);
    var paths := EntriesGrow(w, entries, walk, ignored, digest, now);
    GrowsIsValid(w, v, paths);
    RowsDelete(v, ids, ignored, digest, now);
    StaysEntered(w, v, Scan(w, entries, ids, walk, ignored, digest, now), digest, p);
  }

  lemma StaysEntered(w: World, v: World, u: World, digest: string -> Option<Option<Hash>>, p: string)
    requires Entered(w, v, p) && Deletes(v, u, digest)
    ensures Entered(w, u, p)
  {
    hide Valid, RemoteUnchanged;
    var i, o :| Enters(w, v, p, i, o);
    assert Enters(w, u, p, i, o);
  }

  lemma OneFileWalk(d: Disk, walk: string -> seq<string>)
    requires "d/f" in d && forall p :: walk(p) == if p == "d" then ["d/f"] else []
    ensures Walks(d, walk)
  {
    assert Below("d/f", "d") by { assert "d/f"[..1] == "d"; }
    assert "d/f" != "d";
  }

  // The smallest such folder: a tracked file below a directory without a row, edited on both sides.
  // Looked at by itself it is left to the poller; the scan uploads it nevertheless.
  lemma DriftedBelowNewDirectory(now: int) returns (w: World, walk: string -> seq<string>,
          digest: string -> Option<Option<Hash>>)
    ensures Valid(w.db) && Walks(w.disk, walk) && Drifted(w, 0, "d/f", digest)
    ensures EntryEvent(w, "d/f", p => false, digest) == None
    ensures Uploads(Scan(w, ["d", "d/f"], [0], walk, p => false, digest, now).db, 0, w.db.nextOp)
  {
    hide Scan, Uploads;
    var row := Row("d/f", File, Some("r"), Some(3), Some(Md5("old")), 0, Synced, None);
    w := World(Db(map[0 := row], map[], map[], 1, 0, 0), map["d" := DirNode, "d/f" := FileNode("mine")], map[], map[]);
    walk := p => if p == "d" then ["d/f"] else [];
    digest := r => Some(Some(Md5("theirs")));
    assert w.db.items[0].path == "d/f" && FindPath(w.db, "d/f") == Some(0);
    assert Md5("mine") != Md5("old") &&
        Md5("theirs") != Md5("old") by { assert "mine"[0] != "old"[0] && "theirs"[0] != "old"[0]; }
    OneFileWalk(w.disk, walk);
    assert Adopted(w, ["d", "d/f"], walk, p => false, "d/f") by { assert "d" in ["d", "d/f"] &&
        FindPath(w.db, "d").None?; }
    ScanSparesRemoteEdits(w, ["d", "d/f"], [0], walk, p => false, digest, now);
  }

  // An edit made while the daemon was down is replayed exactly when Drive did not move on.
  lemma OfflineEditIsReplayedIff(w: World, p: string, id: nat, ignored: string -> bool,
          digest: string -> Option<Option<Hash>>, now: int)
    requires Valid(w.db) && IsFile(w.disk, p) && FindPath(w.db, p) == Some(id) && !ignored(p)
    requires !w.db.items[id].state.Skipped? && !Fingerprinted(w.db.items[id], w.disk[p].bytes)
    ensures var v := Replay(w, EntryEvent(w, p, ignored, digest), [], now);
      && v.disk == w.disk && v.db.items == w.db.items
      && (w.db.nextOp in v.db.ops <==> RemoteUnchanged(w.db.items[id], digest))
      && (w.db.nextOp in v.db.ops ==> v.db.ops[w.db.nextOp].item == id && v.db.ops[w.db.nextOp].op == Upload)
  {
    hide Run, WalkActs;
    RunOne(w, Queue(id, Upload, now));
    assert w.db.nextOp !in w.db.ops;
  }

  // ... and so is a deletion.
  lemma OfflineDeleteIsReplayedIff(w: World, id: nat, ignored: string -> bool, digest: string -> Option<Option<Hash>>,
          now: int)
    requires Valid(w.db) && id in w.db.items && w.db.items[id].kind == File && w.db.items[id].trashedAt.None?
    requires !w.db.items[id].state.Skipped? && w.db.items[id].path !in w.disk && !ignored(w.db.items[id].path)
    ensures var v := Replay(w, RowEvent(w, id, ignored, digest), [], now);
      && v.disk == w.disk && v.db.items == w.db.items
      && (w.db.nextOp in v.db.ops <==> RemoteUnchanged(w.db.items[id], digest))
      && (w.db.nextOp in v.db.ops ==> v.db.ops[w.db.nextOp].item == id && v.db.ops[w.db.nextOp].op == DeleteRemote)
  {
    hide Run;
    var p := w.db.items[id].path;
    RunTwo(w, CloseConflicts(p), Queue(id, DeleteRemote, now));
    assert FindPath(w.db, p) == Some(id);
    assert w.db.nextOp !in w.db.ops;
  }
}
