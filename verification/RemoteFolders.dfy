// `ensure_remote_folder` (src/daemon/runtime.rs): after it has run, the index knows every folder on
// the way, and running it again finds nothing to create and nothing to write.
module RemoteFolders {
  import opened Paths
  import opened Tables
  import opened World
  import opened Invariants
  import opened Runtime

  type Drive = map<string, DriveNode>

  // Drive after a run, and the ids it came through, up to the first failing request.
  function EnsuredDrive(drive: Drive, current: string, done: string, segs: seq<string>, a: Answers): Drive
    decreases |segs|
  {
    if segs == [] then drive
    else
      var rel := Join(done, segs[0]);
      match SegmentId(drive, current, rel, segs[0], a)
      case None => drive
      case Some(id) => EnsuredDrive(SegmentDrive(drive, current, rel, segs[0], a), id, rel, segs[1..], a)
  }

  function Visited(drive: Drive, current: string, done: string, segs: seq<string>, a: Answers): (ids: seq<string>)
    ensures |ids| <= |segs|
    decreases |segs|
  {
    if segs == [] then []
    else
      var rel := Join(done, segs[0]);
      match SegmentId(drive, current, rel, segs[0], a)
      case None => []
      case Some(id) => [id] + Visited(SegmentDrive(drive, current, rel, segs[0], a), id, rel, segs[1..], a)
  }

  function Last(current: string, ids: seq<string>): string {
    if ids == [] then current else ids[|ids| - 1]
  }

  // A run succeeds iff it gets through all segments, and then ends at the last id.
  lemma {:induction false} SuccessIff(drive: Drive, current: string, done: string, segs: seq<string>, a: Answers)
    ensures var ids := Visited(drive, current, done, segs, a);
      EnsuredId(drive, current, done, segs, a) == if |ids| == |segs| then Some(Last(current, ids)) else None
    decreases |segs|
  {
    hide SegmentId, SegmentDrive, Join;
    if segs != [] {
      var rel := Join(done, segs[0]);
      var next := SegmentId(drive, current, rel, segs[0], a);
      if next.Some? {
        SuccessIff(SegmentDrive(drive, current, rel, segs[0], a), next.value, rel, segs[1..], a);
      }
    }
  }

  lemma PersistRuns(w: World, rel: string, rid: string, now: int)
    ensures var v := Run(w, PersistActs(w, rel, rid, now));
      v.drive == w.drive && v.disk == w.disk && v.inFlight == w.inFlight
  {
    hide Run, FindPath;
    RunShort(w);
  }

  lemma SegmentRuns(w: World, current: string, rel: string, seg: string, a: Answers, now: int)
    ensures var v := Run(w, SegmentActs(w, current, rel, seg, a, now));
      v.drive == SegmentDrive(w.drive, current, rel, seg, a) && v.disk == w.disk && v.inFlight == w.inFlight
  {
    hide Run, FindFolder, PersistActs;
    RunNone(w);
    var next := SegmentId(w.drive, current, rel, seg, a);
    if next.Some? {
      var id := next.value;
      PersistRuns(w, rel, id, now);
      if FindFolder(w.drive, current, seg, a).Some? {
        assert [] + PersistActs(w, rel, id, now) == PersistActs(w, rel, id, now);
      } else {
        var made := CreateNode(id, FolderNode(seg, current));
        RunOne(w, made);
        RunConcat(w, [made], PersistActs(w, rel, id, now));
        PersistReadsRows(w, Step(w, made), rel, id, now);
        PersistRuns(Step(w, made), rel, id, now);
      }
    }
  }

  lemma {:induction false} EnsureRuns(w: World, current: string, done: string, segs: seq<string>, a: Answers, now: int)
    ensures var v := Run(w, EnsureActs(w, current, done, segs, a, now));
      v.drive == EnsuredDrive(w.drive, current, done, segs, a) && v.disk == w.disk && v.inFlight == w.inFlight
    decreases |segs|
  {
    hide Run, SegmentActs, SegmentId, SegmentDrive, Join;
    RunShort(w);
    if segs != [] {
      var rel := Join(done, segs[0]);
      var next := SegmentId(w.drive, current, rel, segs[0], a);
      if next.Some? {
        var first := SegmentActs(w, current, rel, segs[0], a, now);
        SegmentRuns(w, current, rel, segs[0], a, now);
        EnsureRuns(Run(w, first), next.value, rel, segs[1..], a, now);
        RunConcat(w, first, EnsureActs(Run(w, first), next.value, rel, segs[1..], a, now));
      }
    }
  }

  // ---- what the index knows --------------------------------------------------------------

  ghost predicate Known(db: Db, rel: string, rid: string) {
    exists i :: i in db.items && db.items[i].path == rel && db.items[i].remoteId == Some(rid)
  }

  // Every folder that was come through has a row with its id.
  ghost predicate AllKnown(db: Db, done: string, segs: seq<string>, ids: seq<string>)
    requires |ids| <= |segs|
    decreases |segs|
  {
    ids == [] || (Known(db, Join(done, segs[0]), ids[0]) && AllKnown(db, Join(done, segs[0]), segs[1..], ids[1..]))
  }

  ghost predicate Names(segs: seq<string>) { forall s :: s in segs ==> s != "" }

  lemma {:induction false} SegmentsAreNames(rel: string)
    ensures Names(Segments(rel))
    decreases |rel|
  {
    hide ParentDir, FileName;
    if rel != "" { SegmentsAreNames(ParentDir(rel)); }
  }

  // No row but that of the folder itself is touched.
  ghost predicate RowsKept(db: Db, after: Db, rel: string) {
    forall i :: i in db.items && db.items[i].path != rel ==> i in after.items && after.items[i] == db.items[i]
  }

  lemma PersistedRows(w: World, rel: string, rid: string, now: int)
    requires Inv(w.db)
    ensures var v := Run(w, PersistActs(w, rel, rid, now)); Known(v.db, rel, rid) && RowsKept(w.db, v.db, rel)
  {
    hide Run;
    RunShort(w);
    var v := Run(w, PersistActs(w, rel, rid, now));
    var here := FindPath(w.db, rel);
    var i := if here.None? then w.db.nextItem else here.value;
    assert i in v.db.items && v.db.items[i].path == rel && v.db.items[i].remoteId == Some(rid);
  }

  lemma SegmentKnows(w: World, current: string, rel: string, seg: string, a: Answers, now: int)
    requires Inv(w.db) && SegmentId(w.drive, current, rel, seg, a).Some?
    ensures var v := Run(w, SegmentActs(w, current, rel, seg, a, now));
      Inv(v.db) && Known(v.db, rel, SegmentId(w.drive, current, rel, seg, a).value) && RowsKept(w.db, v.db, rel)
  {
    hide Run, Inv, PersistActs, Known, RowsKept, FindFolder, Licensed;
    SegmentIsLicensed(w, current, rel, seg, a, now, w.db);
    RunKeepsInv(w, SegmentActs(w, current, rel, seg, a, now));
    var id := SegmentId(w.drive, current, rel, seg, a).value;
    if FindFolder(w.drive, current, seg, a).Some? {
      assert [] + PersistActs(w, rel, id, now) == PersistActs(w, rel, id, now);
      PersistedRows(w, rel, id, now);
    } else {
      var made := CreateNode(id, FolderNode(seg, current));
      RunOne(w, made);
      RunConcat(w, [made], PersistActs(w, rel, id, now));
      PersistReadsRows(w, Step(w, made), rel, id, now);
      PersistedRows(Step(w, made), rel, id, now);
    }
  }

  lemma KnownStays(db: Db, after: Db, rel: string, q: string, rid: string)
    requires Known(db, q, rid) && q != rel && RowsKept(db, after, rel)
    ensures Known(after, q, rid)
  {
    var j :| j in db.items && db.items[j].path == q && db.items[j].remoteId == Some(rid);
    assert after.items[j] == db.items[j];
  }

  lemma {:induction false} EnsureKnows(w: World, current: string, done: string, segs: seq<string>, a: Answers, now: int)
    requires Inv(w.db) && Names(segs)
    ensures var v := Run(w, EnsureActs(w, current, done, segs, a, now));
      && Inv(v.db) && AllKnown(v.db, done, segs, Visited(w.drive, current, done, segs, a))
      && forall q, r :: |q| <= |done| && Known(w.db, q, r) ==> Known(v.db, q, r)
    decreases |segs|
  {
    hide Run, Inv, SegmentActs, Known, SegmentId, SegmentDrive, RowsKept;
    RunShort(w);
    if segs != [] {
      var rel := Join(done, segs[0]);
      var next := SegmentId(w.drive, current, rel, segs[0], a);
      if next.Some? {
        var first := SegmentActs(w, current, rel, segs[0], a, now);
        SegmentKnows(w, current, rel, segs[0], a, now);
        SegmentRuns(w, current, rel, segs[0], a, now);
        assert segs[0] in segs && |rel| > |done|;
        forall x | x in segs[1..] ensures x != "" { assert x in segs; }
        EnsureKnows(Run(w, first), next.value, rel, segs[1..], a, now);
        RunConcat(w, first, EnsureActs(Run(w, first), next.value, rel, segs[1..], a, now));
        forall q, r | |q| <= |done| && Known(w.db, q, r)
          ensures Known(Run(w, EnsureActs(w, current, done, segs, a, now)).db, q, r)
        {
          KnownStays(w.db, Run(w, first).db, rel, q, r);
        }
      }
    }
  }

  // ---- what Drive lists afterwards -------------------------------------------------------

  // Looking every segment up finds these folders.
  ghost predicate Finds(drive: Drive, current: string, segs: seq<string>, ids: seq<string>, a: Answers)
    requires |ids| <= |segs|
    decreases |segs|
  {
    ids == [] || (FindFolder(drive, current, segs[0], a) == Some(ids[0]) &&
        Finds(drive, ids[0], segs[1..], ids[1..], a))
  }

  // The ids Drive will hand out for the folders below `done` are new.
  ghost predicate FreshIds(drive: Drive, done: string, a: Answers) {
    && (forall p {:trigger a.newId(p)} :: |p| > |done| ==> a.newId(p) !in drive)
    && (forall p, q :: p != q ==> a.newId(p) != a.newId(q))
  }

  // A folder is created only where none of its name is listed, so what a listing showed it still shows.
  lemma SegmentKeepsListing(drive: Drive, current: string, done: string, seg: string, a: Answers, parent: string,
          name: string)
    requires FreshIds(drive, done, a) && seg != "" && FoldersNamed(drive, parent, name) != {}
    ensures var next := SegmentDrive(drive, current, Join(done, seg), seg, a);
      FreshIds(next, Join(done, seg), a) && FoldersNamed(next, parent, name) == FoldersNamed(drive, parent, name)
  {
    var rel := Join(done, seg);
    assert |rel| > |done|;
    var next := SegmentDrive(drive, current, rel, seg, a);
    if next != drive {
      assert parent != current || name != seg;
      assert next == drive[a.newId(rel) := FolderNode(seg, current)];
    }
  }

  lemma {:induction false} EnsureKeepsListing(drive: Drive, current: string, done: string, segs: seq<string>,
                                              a: Answers, parent: string, name: string)
    requires FreshIds(drive, done, a) && Names(segs) && FoldersNamed(drive, parent, name) != {}
    ensures FoldersNamed(EnsuredDrive(drive, current, done, segs, a), parent, name) == FoldersNamed(drive, parent, name)
    decreases |segs|
  {
    hide SegmentId, SegmentDrive, FoldersNamed, FreshIds, Join;
    if segs != [] {
      var rel := Join(done, segs[0]);
      var next := SegmentId(drive, current, rel, segs[0], a);
      if next.Some? {
        assert segs[0] in segs;
        forall x | x in segs[1..] ensures x != "" { assert x in segs; }
        SegmentKeepsListing(drive, current, done, segs[0], a, parent, name);
        EnsureKeepsListing(SegmentDrive(drive, current, rel, segs[0], a), next.value, rel, segs[1..], a, parent, name);
      }
    }
  }

  lemma SegmentIsListed(drive: Drive, current: string, done: string, seg: string, a: Answers)
    requires FreshIds(drive, done, a) && seg != "" && SegmentId(drive, current, Join(done, seg), seg, a).Some?
    ensures var next := SegmentDrive(drive, current, Join(done, seg), seg, a);
      && FindFolder(next, current, seg, a) == SegmentId(drive, current, Join(done, seg), seg, a)
      && FoldersNamed(next, current, seg) != {} && FreshIds(next, Join(done, seg), a)
  {
    var rel := Join(done, seg);
    assert |rel| > |done|;
    if FindFolder(drive, current, seg, a).None? {
      assert FoldersNamed(SegmentDrive(drive, current, rel, seg, a), current, seg) == {a.newId(rel)};
    }
  }

  lemma {:induction false} EnsureFinds(drive: Drive, current: string, done: string, segs: seq<string>, a: Answers)
    requires FreshIds(drive, done, a) && Names(segs)
    ensures Finds(EnsuredDrive(drive, current, done, segs, a), current, segs, Visited(drive, current, done, segs, a), a)
    decreases |segs|
  {
    hide SegmentId, SegmentDrive, FoldersNamed, FreshIds, Join;
    if segs != [] {
      var rel := Join(done, segs[0]);
      var next := SegmentId(drive, current, rel, segs[0], a);
      if next.Some? {
        assert segs[0] in segs;
        forall x | x in segs[1..] ensures x != "" { assert x in segs; }
        SegmentIsListed(drive, current, done, segs[0], a);
        var drive' := SegmentDrive(drive, current, rel, segs[0], a);
        EnsureFinds(drive', next.value, rel, segs[1..], a);
        EnsureKeepsListing(drive', next.value, rel, segs[1..], a, current, segs[0]);
      }
    }
  }

  // ---- what stays as it was --------------------------------------------------------------

  // The paths of the folders on the way.
  function FolderPaths(done: string, segs: seq<string>): (ps: seq<string>)
    decreases |segs|
  {
    if segs == [] then [] else [Join(done, segs[0])] + FolderPaths(Join(done, segs[0]), segs[1..])
  }

  function JoinAll(done: string, segs: seq<string>): string
    decreases |segs|
  {
    if segs == [] then done else JoinAll(Join(done, segs[0]), segs[1..])
  }

  lemma {:induction false} FolderPathsPush(done: string, segs: seq<string>, seg: string)
    ensures FolderPaths(done, segs + [seg]) == FolderPaths(done, segs) + [Join(JoinAll(done, segs), seg)]
    ensures JoinAll(done, segs + [seg]) == Join(JoinAll(done, segs), seg)
    decreases |segs|
  {
    hide Join;
    if segs == [] {
      assert ([] + [seg])[1..] == [] && segs + [seg] == [seg];
    } else {
      assert (segs + [seg])[1..] == segs[1..] + [seg];
      FolderPathsPush(Join(done, segs[0]), segs[1..], seg);
    }
  }

  lemma {:induction false} FolderPathsAreShort(rel: string)
    ensures |JoinAll("", Segments(rel))| <= |rel|
    ensures forall p :: p in FolderPaths("", Segments(rel)) ==> |p| <= |rel|
    decreases |rel|
  {
    hide ParentDir, FileName;
    if rel != "" {
      var up, name := ParentDir(rel), FileName(rel);
      FolderPathsAreShort(up);
      if name == "" {
        assert Segments(rel) == Segments(up) + [] == Segments(up);
      } else {
        FolderPathsPush("", Segments(up), name);
        assert |Join(JoinAll("", Segments(up)), name)| <= |rel|;
      }
    }
  }

  // No name on the way is empty.
  predicate CleanPath(p: string)
    decreases |p|
  {
    p == "" || (WellNamed(p) && CleanPath(ParentDir(p)))
  }

  lemma {:induction false} CleanSegments(p: string)
    requires CleanPath(p)
    ensures JoinAll("", Segments(p)) == p
    ensures p != "" ==> Segments(p) == Segments(ParentDir(p)) + [FileName(p)]
    decreases |p|
  {
    if p != "" {
      CleanSegments(ParentDir(p));
      FolderPathsPush("", Segments(ParentDir(p)), FileName(p));
    }
  }

  lemma {:induction false} LastIsKnown(db: Db, done: string, segs: seq<string>, ids: seq<string>)
    requires |ids| == |segs| > 0 && AllKnown(db, done, segs, ids)
    ensures Known(db, JoinAll(done, segs), ids[|ids| - 1])
    decreases |segs|
  {
    hide Known, Join;
    assert JoinAll(done, segs) == JoinAll(Join(done, segs[0]), segs[1..]);
    if |segs| > 1 { LastIsKnown(db, Join(done, segs[0]), segs[1..], ids[1..]); }
  }

  lemma {:induction false} LastIsFound(drive: Drive, current: string, segs: seq<string>, seg: string, ids: seq<string>,
          a: Answers)
    requires |ids| == |segs| + 1 && Finds(drive, current, segs + [seg], ids, a)
    ensures FindFolder(drive, Last(current, ids[..|segs|]), seg, a) == Some(ids[|segs|])
    ensures Finds(drive, current, segs, ids[..|segs|], a)
    decreases |segs|
  {
    hide FindFolder;
    if segs != [] {
      assert (segs + [seg])[1..] == segs[1..] + [seg];
      LastIsFound(drive, ids[0], segs[1..], seg, ids[1..], a);
      assert ids[1..][..|segs| - 1] == ids[..|segs|][1..];
    }
  }

  // The folders on the way may get a Drive id; nothing else happens to the rows that were there.
  ghost predicate OnlyLinks(db: Db, after: Db, paths: seq<string>) {
    forall i :: i in db.items ==>
      && i in after.items && after.items[i].(remoteId := None) == db.items[i].(remoteId := None)
      && (db.items[i].path !in paths ==> after.items[i] == db.items[i])
  }

  // ... and every row that is new is one of theirs.
  ghost predicate OnlyFolders(db: Db, after: Db, paths: seq<string>) {
    forall i :: i in after.items && i !in db.items ==>
      db.nextItem <= i && after.items[i].path in paths && after.items[i].kind.Dir?
  }

  lemma PersistLinks(w: World, rel: string, rid: string, now: int)
    requires Valid(w.db)
    ensures var v := Run(w, PersistActs(w, rel, rid, now));
      OnlyLinks(w.db, v.db, [rel]) && OnlyFolders(w.db, v.db, [rel]) && w.db.nextItem <= v.db.nextItem
  {
    hide Run, OnlyLinks, OnlyFolders, Valid;
    var here, row := FindPath(w.db, rel), Row(rel, Dir, Some(rid), None, None, now, Synced, None);
    if here.None? {
      RunOne(w, InsertItem(row));
      InsertLinks(w.db, row);
    } else if w.db.items[here.value].remoteId != Some(rid) {
      RunOne(w, LinkRemote(here.value, rid));
      RowLinks(w.db, here.value, rid);
    } else {
      RunNone(w);
      NothingLinked(w.db, [rel]);
    }
  }

  lemma InsertLinks(db: Db, row: Row)
    requires row.kind.Dir? && Valid(db)
    ensures var after := InsertRow(db, row);
      OnlyLinks(db, after, [row.path]) && OnlyFolders(db, after, [row.path]) && db.nextItem <= after.nextItem
  {
    assert row.path in [row.path];
    hide FindPath;
  }

  lemma RowLinks(db: Db, id: nat, rid: string)
    requires Valid(db) && id in db.items
    ensures var after := SetRemoteId(db, id, rid);
      OnlyLinks(db, after, [db.items[id].path]) && OnlyFolders(db, after, [db.items[id].path])
  {
    assert db.items[id].path in [db.items[id].path];
  }

  lemma SegmentLinks(w: World, current: string, rel: string, seg: string, a: Answers, now: int)
    requires Valid(w.db)
    ensures var v := Run(w, SegmentActs(w, current, rel, seg, a, now));
      OnlyLinks(w.db, v.db, [rel]) && OnlyFolders(w.db, v.db, [rel]) && w.db.nextItem <= v.db.nextItem
  {
    hide Run, Valid, FindFolder, PersistActs, OnlyLinks, OnlyFolders;
    var next := SegmentId(w.drive, current, rel, seg, a);
    if next.None? {
      RunNone(w);
      NothingLinked(w.db, [rel]);
    } else if FindFolder(w.drive, current, seg, a).Some? {
      assert [] + PersistActs(w, rel, next.value, now) == PersistActs(w, rel, next.value, now);
      PersistLinks(w, rel, next.value, now);
    } else {
      var made := CreateNode(next.value, FolderNode(seg, current));
      RunOne(w, made);
      RunConcat(w, [made], PersistActs(w, rel, next.value, now));
      PersistReadsRows(w, Step(w, made), rel, next.value, now);
      PersistLinks(Step(w, made), rel, next.value, now);
    }
  }

  lemma NothingLinked(db: Db, paths: seq<string>)
    ensures OnlyLinks(db, db, paths) && OnlyFolders(db, db, paths)
  {
  }

  lemma LinksOn(a: Db, b: Db, c: Db, p: string, rest: seq<string>)
    requires OnlyLinks(a, b, [p]) && OnlyLinks(b, c, rest) && OnlyFolders(a, b, [p]) && OnlyFolders(b, c, rest)
    requires a.nextItem <= b.nextItem
    ensures OnlyLinks(a, c, [p] + rest) && OnlyFolders(a, c, [p] + rest)
  {
  }

  lemma {:induction false} EnsureLinks(w: World, current: string, done: string, segs: seq<string>, a: Answers, now: int)
    requires Inv(w.db)
    ensures var v := Run(w, EnsureActs(w, current, done, segs, a, now));
      && OnlyLinks(w.db, v.db, FolderPaths(done, segs)) && OnlyFolders(w.db, v.db, FolderPaths(done, segs))
      && w.db.nextItem <= v.db.nextItem
    decreases |segs|
  {
    hide Run, Inv, SegmentActs, SegmentId, SegmentDrive, Join, OnlyLinks, OnlyFolders;
    RunShort(w);
    NothingLinked(w.db, FolderPaths(done, segs));
    if segs != [] {
      var rel := Join(done, segs[0]);
      var next := SegmentId(w.drive, current, rel, segs[0], a);
      if next.Some? {
        var first := SegmentActs(w, current, rel, segs[0], a, now);
        InvIsValid(w.db);
        SegmentLinks(w, current, rel, segs[0], a, now);
        SegmentKnows(w, current, rel, segs[0], a, now);
        SegmentRuns(w, current, rel, segs[0], a, now);
        EnsureLinks(Run(w, first), next.value, rel, segs[1..], a, now);
        RunConcat(w, first, EnsureActs(Run(w, first), next.value, rel, segs[1..], a, now));
        LinksOn(w.db, Run(w, first).db, Run(w, EnsureActs(w, current, done, segs, a, now)).db, rel,
            FolderPaths(rel, segs[1..]));
      }
    }
  }

  // Every node stays as it was; what is new are folders on the way.
  ghost predicate OnlyNewFolders(drive: Drive, after: Drive, ids: seq<string>) {
    && (forall n :: n in drive ==> n in after && after[n] == drive[n])
    && (forall n :: n in after && n !in drive ==> n in ids && after[n].folder && !after[n].trashed)
  }

  lemma SegmentAddsFolder(drive: Drive, current: string, done: string, seg: string, a: Answers)
    requires FreshIds(drive, done, a) && seg != "" && SegmentId(drive, current, Join(done, seg), seg, a).Some?
    ensures var next := SegmentDrive(drive, current, Join(done, seg), seg, a);
      OnlyNewFolders(drive, next, [SegmentId(drive, current, Join(done, seg), seg, a).value]) &&
          FreshIds(next, Join(done, seg), a)
  {
    SegmentIsListed(drive, current, done, seg, a);
    assert a.newId(Join(done, seg)) !in drive by { assert |Join(done, seg)| > |done|; }
    hide FreshIds, FindFolder, Join;
    assert a.newId(Join(done, seg)) in [a.newId(Join(done, seg))];
  }

  lemma FoldersOn(a: Drive, b: Drive, c: Drive, id: string, rest: seq<string>)
    requires OnlyNewFolders(a, b, [id]) && OnlyNewFolders(b, c, rest)
    ensures OnlyNewFolders(a, c, [id] + rest)
  {
  }

  lemma NothingAdded(drive: Drive)
    ensures OnlyNewFolders(drive, drive, [])
  {
  }

  lemma {:induction false} EnsureAddsFolders(drive: Drive, current: string, done: string, segs: seq<string>, a: Answers)
    requires FreshIds(drive, done, a) && Names(segs)
    ensures OnlyNewFolders(drive, EnsuredDrive(drive, current, done, segs, a), Visited(drive, current, done, segs, a))
    ensures forall p {:trigger a.newId(p)} :: |p| > |JoinAll(done, segs)| ==>
        a.newId(p) !in EnsuredDrive(drive, current, done, segs, a)
    decreases |segs|
  {
    hide FreshIds, OnlyNewFolders, SegmentId, SegmentDrive, Join;
    NothingAdded(drive);
    NoneHandedOut(drive, done, a);
    if segs != [] {
      var rel := Join(done, segs[0]);
      var next := SegmentId(drive, current, rel, segs[0], a);
      assert segs[0] in segs;
      forall x | x in segs[1..] ensures x != "" { assert x in segs; }
      JoinAllGrows(done, segs);
      if next.Some? {
        var drive' := SegmentDrive(drive, current, rel, segs[0], a);
        SegmentAddsFolder(drive, current, done, segs[0], a);
        EnsureAddsFolders(drive', next.value, rel, segs[1..], a);
        FoldersOn(drive, drive', EnsuredDrive(drive, current, done, segs, a), next.value,
          Visited(drive', next.value, rel, segs[1..], a));
      }
    }
  }

  lemma NoneHandedOut(drive: Drive, done: string, a: Answers)
    requires FreshIds(drive, done, a)
    ensures forall p {:trigger a.newId(p)} :: |p| > |done| ==> a.newId(p) !in drive
  {
  }

  lemma {:induction false} JoinAllGrows(done: string, segs: seq<string>)
    ensures |JoinAll(done, segs)| >= |done|
    decreases |segs|
  {
    if segs != [] { JoinAllGrows(Join(done, segs[0]), segs[1..]); }
  }

  // ---- the second run --------------------------------------------------------------------

  // Drive lists folders of one name in the same order again.
  ghost predicate SameOrder(a: Answers, a': Answers) {
    a'.root == a.root && forall s :: a'.first(s) == a.first(s)
  }

  lemma {:induction false} FindsAgain(drive: Drive, current: string, segs: seq<string>, ids: seq<string>, a: Answers,
          a': Answers)
    requires |ids| <= |segs| && Finds(drive, current, segs, ids, a) && SameOrder(a, a')
    ensures Finds(drive, current, segs, ids, a')
    decreases |segs|
  {
    hide FoldersNamed;
    if ids != [] { FindsAgain(drive, ids[0], segs[1..], ids[1..], a, a'); }
  }

  lemma KnownNeedsNothing(w: World, rel: string, rid: string, now: int)
    requires Valid(w.db) && Known(w.db, rel, rid)
    ensures PersistActs(w, rel, rid, now) == []
  {
    var i :| i in w.db.items && w.db.items[i].path == rel && w.db.items[i].remoteId == Some(rid);
    assert FindPath(w.db, rel) == Some(i);
  }

  // One segment of the second run: nothing to do, and the folder found is the one from before.
  lemma SegmentIsIdle(w: World, current: string, done: string, segs: seq<string>, ids: seq<string>, a: Answers,
          now: int)
    requires Valid(w.db) && |ids| == |segs| && segs != [] && a.lists(current)
    requires AllKnown(w.db, done, segs, ids) && Finds(w.drive, current, segs, ids, a)
    ensures var rel := Join(done, segs[0]);
      && SegmentActs(w, current, rel, segs[0], a, now) == []
      && SegmentId(w.drive, current, rel, segs[0], a) == Some(ids[0])
      && SegmentDrive(w.drive, current, rel, segs[0], a) == w.drive
      && AllKnown(w.db, rel, segs[1..], ids[1..]) && Finds(w.drive, ids[0], segs[1..], ids[1..], a)
  {
    hide Valid, Join, Known, FindFolder;
    KnownNeedsNothing(w, Join(done, segs[0]), ids[0], now);
  }

  lemma {:induction false} NothingLeft(w: World, current: string, done: string, segs: seq<string>, ids: seq<string>,
          a: Answers, now: int)
    requires Valid(w.db) && |ids| == |segs| && AllKnown(w.db, done, segs, ids) && Finds(w.drive, current, segs, ids, a)
    ensures EnsureActs(w, current, done, segs, a, now) == []
    decreases |segs|
  {
    hide Valid, Join, AllKnown, Finds, SegmentActs, FindFolder;
    if segs != [] && a.lists(current) {
      SegmentIsIdle(w, current, done, segs, ids, a, now);
      RunShort(w);
      NothingLeft(w, ids[0], Join(done, segs[0]), segs[1..], ids[1..], a, now);
    }
  }

  lemma {:induction false} SameFolderAgain(w: World, current: string, done: string, segs: seq<string>,
          ids: seq<string>, a: Answers)
    requires Valid(w.db) && |ids| == |segs| && AllKnown(w.db, done, segs, ids) && Finds(w.drive, current, segs, ids, a)
    ensures var id := EnsuredId(w.drive, current, done, segs, a);
      (id.Some? ==> id.value == Last(current, ids)) && ((forall s :: a.lists(s)) ==> id.Some?)
    decreases |segs|
  {
    hide Valid, Join, AllKnown, Finds, FindFolder, SegmentActs, SegmentDrive;
    if segs != [] && a.lists(current) {
      SegmentIsIdle(w, current, done, segs, ids, a, 0);
      SameFolderAgain(w, ids[0], Join(done, segs[0]), segs[1..], ids[1..], a);
    }
  }

  // Once is enough. After a run that got through, Drive lists a folder for every segment and the
  // index knows them all; the second run creates no folder and writes no row, and unless a listing
  // fails it ends at the same id.
  lemma EnsureTwiceIsOnce(w: World, rel: string, a: Answers, a': Answers, now: int, later: int)
    requires Inv(w.db) && FreshIds(w.drive, "", a) && SameOrder(a, a') && FolderId(w.drive, rel, a).Some?
    ensures var v := Run(w, FolderFor(w, rel, a, now));
      var ids := Visited(w.drive, a.root, "", Segments(rel), a);
      && |ids| == |Segments(rel)| && AllKnown(v.db, "", Segments(rel), ids)
      && Finds(v.drive, a.root, Segments(rel), ids, a')
      && FolderFor(v, rel, a', later) == []
      && (FolderId(v.drive, rel, a').Some? ==> FolderId(v.drive, rel, a') == FolderId(w.drive, rel, a))
      && ((forall id :: a'.lists(id)) ==> FolderId(v.drive, rel, a').Some?)
  {
    hide Run, EnsureActs, EnsuredId, AllKnown, Finds, Segments, Inv, Visited, EnsuredDrive, FreshIds;
    var segs := Segments(rel);
    var ids := Visited(w.drive, a.root, "", segs, a);
    var v := Run(w, FolderFor(w, rel, a, now));
    SegmentsAreNames(rel);
    SuccessIff(w.drive, a.root, "", segs, a);
    EnsureKnows(w, a.root, "", segs, a, now);
    EnsureRuns(w, a.root, "", segs, a, now);
    EnsureFinds(w.drive, a.root, "", segs, a);
    FindsAgain(v.drive, a.root, segs, ids, a, a');
    assert Valid(v.db) by { InvIsValid(v.db); }
    NothingLeft(v, a.root, "", segs, ids, a', later);
    SameFolderAgain(v, a.root, "", segs, ids, a');
  }
}
