// `initial` (src/reconcile/mod.rs) as it runs: directories, shortcuts, classification, bulk
// transfer, rows, cursor. Every write costs one unit of a budget, and an attempt whose budget is
// used up stops there, so that every prefix of the run is covered.
module InitialRun {
  import opened Paths
  import opened Tables
  import opened Disk
  import opened World
  import opened Store
  import opened Continuous
  import opened Bootstrap

  ghost predicate DirsDone(b: Setting, s: Progress) {
    forall p :: IsDirGoal(b, p) ==> p in s.disk && p in s.remote && HasRow(s, p)
  }

  ghost predicate ShortcutsDone(b: Setting, s: Progress) {
    forall p :: IsShortcut(b, p) ==> p in s.disk && HasRow(s, p)
  }

  // Folder ids by path, the mapped folder under "".
  ghost predicate KnowsFolders(b: Setting, ids: map<string, string>) {
    && "" in ids && ids[""] == b.root
    && forall p :: p in ids && p != "" ==> RemoteGoal(b, p) == Some(RFolder(ids[p]))
  }

  // The row of a synced file, without its clock reading.
  function FileRow(p: string, node: RNode): Row
    requires node.RFile?
  {
    Row(p, File, Some(node.id), Some(|node.bytes|), Some(Md5(node.bytes)), 0, Synced, None)
  }

  lemma AfterMkdir(d: Disk, p: string)
    requires ParentDir(p) == "" || IsDir(d, ParentDir(p))
    requires p != "" && (p in d ==> d[p].DirNode?)
    ensures MkdirAll(d, p) == d[p := DirNode]
  {
    assert MkdirAll(d, ParentDir(p)) == d;
  }

  // The folder with that id, in a listing with unique ids.
  ghost predicate IsFolderPath(remote: Listing, root: string, id: string, q: string) {
    (q == "" && id == root) || (q in remote && remote[q] == RFolder(id))
  }

  lemma GoalIdsAreUnique(b: Setting, p: string, q: string)
    requires UniqueIds(b) && RemoteGoal(b, p).Some? && RemoteGoal(b, q).Some?
    requires RemoteGoal(b, p).value.id == RemoteGoal(b, q).value.id
    ensures p == q && RemoteGoal(b, p).value.id != b.root
  {
  }

  lemma FolderPathIsUnique(b: Setting, s: Progress, id: string, p: string, q: string)
    requires UniqueIds(b) && Between(b, s) && IsFolderPath(s.remote, b.root, id, p)
    requires IsFolderPath(s.remote, b.root, id, q)
    ensures p == q
  {
    hide RemoteGoal, DiskGoal, RowGoal, UniqueIds, Valid;
    if p in s.remote && s.remote[p] == RFolder(id) { GoalIdsAreUnique(b, p, p); }
    if q in s.remote && s.remote[q] == RFolder(id) { GoalIdsAreUnique(b, q, q); }
    if p in s.remote && s.remote[p] == RFolder(id) && q in s.remote && s.remote[q] == RFolder(id) {
      GoalIdsAreUnique(b, p, q);
    }
  }

  class Initial {
    const b: Setting
    const db: StateDb
    var disk: Disk
    var remote: Listing
    var cursor: Option<string>
    var budget: nat

    constructor (b: Setting, db: StateDb)
      requires db.View() == Db(map[], map[], map[], 1, 1, 1)
      ensures this.b == b && this.db == db && View() == Progress(b.disk, b.remote, db.View()) && cursor == None
    {
      this.b, this.db, disk, remote, cursor, budget := b, db, b.disk, b.remote, None, 0;
    }

    ghost function View(): Progress
      reads this, db
    {
      Progress(disk, remote, db.View())
    }

    // What every phase keeps.
    ghost predicate Kept(was: Progress, token: Option<string>)
      reads this, db
    {
      Between(b, View()) && Grows(was, View()) && cursor == token
    }

    // Is there budget for one more write?
    method Spend() returns (ok: bool)
      modifies this`budget
      ensures ok ==> budget == old(budget) - 1
      ensures !ok ==> budget == old(budget)
    {
      ok := budget > 0;
      if ok { budget := budget - 1; }
    }

    // `record_synced_dir`, `record_synced_item`, `record_skipped_shortcut`: nothing if a row is there.
    method Record(row: Row) returns (ok: bool)
      requires Between(b, View()) && RowGoal(b, row.path) == Some(Timeless(row))
      requires row.path in disk && (!row.state.Skipped? ==> row.path in remote)
      modifies this`budget, db
      ensures Kept(old(View()), old(cursor)) && disk == old(disk) && remote == old(remote)
      ensures ok ==> HasRow(View(), row.path)
    {
      hide Between, RowGoal, DiskGoal, RemoteGoal;
      ghost var s := View();
      assert Valid(db.View()) by { BetweenIsValid(b, s); }
      GrowsSelf(s);
      var here := db.GetByPath(row.path);
      if here.Some? { return true; }
      ok := Spend();
      if ok {
        AddRow(b, s, row);
        var _ := db.Insert(row);
      }
    }

    // `engine.create_dir_remote`: the node appears below the folder with that id.
    method CreateDirRemote(parentId: string, name: string, ghost up: string) returns (ok: bool, id: string)
      requires Between(b, View()) && UniqueIds(b) && IsFolderPath(remote, b.root, parentId, up)
      requires RemoteGoal(b, Join(up, name)) == Some(RFolder(b.newId(Join(up, name))))
      modifies this`remote, this`budget
      ensures Kept(old(View()), old(cursor)) && disk == old(disk)
      ensures ok ==> Join(up, name) in remote && id == b.newId(Join(up, name))
      ensures forall q :: q in remote && q !in old(remote) ==> q == Join(up, name)
    {
      hide Between, RowGoal, DiskGoal, RemoteGoal, Valid;
      id := "";
      ok := Spend();
      GrowsSelf(View());
      if ok {
        var q := "";
        if parentId != b.root { q :| q in remote && remote[q] == RFolder(parentId); }
        FolderPathIsUnique(b, View(), parentId, up, q);
        AddRemote(b, View(), Join(q, name), RFolder(b.newId(Join(q, name))));
        id := b.newId(Join(q, name));
        remote := remote[Join(q, name) := RFolder(id)];
      }
    }

    // `engine.upload`
    method Upload(p: string, parentId: string, name: string, ghost up: string) returns (ok: bool)
      requires Between(b, View()) && UniqueIds(b) && IsFolderPath(remote, b.root, parentId, up)
      requires Join(up, name) == p && IsFile(disk, p) && RemoteGoal(b, p) == Some(RFile(b.newId(p), disk[p].bytes))
      modifies this`remote, this`budget
      ensures Kept(old(View()), old(cursor)) && disk == old(disk)
      ensures ok ==> p in remote
    {
      hide Between, RowGoal, DiskGoal, RemoteGoal, Valid;
      ok := Spend();
      GrowsSelf(View());
      if ok {
        var q := "";
        if parentId != b.root { q :| q in remote && remote[q] == RFolder(parentId); }
        FolderPathIsUnique(b, View(), parentId, up, q);
        AddRemote(b, View(), p, RFile(b.newId(p), disk[p].bytes));
        remote := remote[Join(q, name) := RFile(b.newId(Join(q, name)), disk[p].bytes)];
      }
    }

    // `engine.download`, and the write of a shortcut.
    method WriteLocal(p: string, bytes: Bytes) returns (ok: bool)
      requires Between(b, View()) && DiskGoal(b, p) == Some(FileNode(bytes))
      modifies this`disk, this`budget
      ensures Kept(old(View()), old(cursor)) && remote == old(remote)
      ensures ok ==> p in disk
    {
      hide Between, RowGoal, DiskGoal, RemoteGoal;
      ok := Spend();
      GrowsSelf(View());
      if ok {
        AddNode(b, View(), p, FileNode(bytes));
        disk := disk[p := FileNode(bytes)];
      }
    }

    // The remote half of one directory: its id is known, or it is created below its parent.
    method EnsureFolder(p: string, ids: map<string, string>) returns (ok: bool, ids': map<string, string>)
      requires Between(b, View()) && Sane(b) && IsDirGoal(b, p) && KnowsFolders(b, ids)
      requires p in ids <==> p in remote
      requires ParentDir(p) in ids && (ParentDir(p) == "" || ParentDir(p) in remote)
      modifies this`remote, this`budget
      ensures Kept(old(View()), old(cursor)) && disk == old(disk)
      ensures KnowsFolders(b, ids') && (forall q :: q in ids ==> q in ids')
      ensures (forall q :: q in ids' && q !in ids ==> q == p)
      ensures ok ==> p in remote && p in ids'
      ensures forall q :: q in remote && q !in old(remote) ==> q == p
    {
      hide Between, RowGoal, DiskGoal, RemoteGoal, Valid, Sane, ParentDir, FileName, WellNamed, Join;
      SaneIds(b);
      GrowsSelf(View());
      ids' := ids;
      ok := true;
      if p in ids { return; }
      NewFolderGoal(b, View(), p);
      var up, name := SplitParent(p);
      // The parent came first, so its id is known and the mapped folder is never the fallback.
      var parentId := if up in ids then ids[up] else b.root;
      assert up in ids;
      ParentFolder(b, View(), ids, up);
      var id;
      ok, id := CreateDirRemote(parentId, name, up);
      if ok { ids' := ids[p := id]; }
    }

    // `create_dir_all`, where the parent is there already.
    method EnsureDir(p: string) returns (ok: bool)
      requires Between(b, View()) && Sane(b) && IsDirGoal(b, p)
      requires ParentDir(p) == "" || IsDir(disk, ParentDir(p))
      modifies this`disk, this`budget
      ensures Kept(old(View()), old(cursor)) && remote == old(remote)
      ensures ok ==> p in disk
    {
      hide Between, RowGoal, DiskGoal, RemoteGoal, Valid, Sane, MkdirAll, ParentDir, WellNamed;
      ok := Spend();
      GrowsSelf(View());
      if ok {
        DirGoals(b, p);
        DirNodeAt(b, View(), p);
        AfterMkdir(disk, p);
        AddNode(b, View(), p, DirNode);
        disk := MkdirAll(disk, p);
      }
    }

    // One directory: on Drive, on disk, in the index.
    method ReconcileDir(p: string, ids: map<string, string>, now: int) returns (ok: bool, ids': map<string, string>)
      requires Between(b, View()) && Sane(b) && IsDirGoal(b, p) && KnowsFolders(b, ids)
      requires p in ids <==> p in remote
      requires ParentDir(p) in ids && (ParentDir(p) == "" || (ParentDir(p) in remote && IsDir(disk, ParentDir(p))))
      modifies this`disk, this`remote, this`budget, db
      ensures Kept(old(View()), old(cursor))
      ensures KnowsFolders(b, ids') && (forall q :: q in ids ==> q in ids')
      ensures (forall q :: q in ids' && q !in ids ==> q == p)
      ensures ok ==> p in disk && p in remote && HasRow(View(), p) && p in ids'
      ensures forall q :: q in remote && q !in old(remote) ==> q == p
    {
      hide Between, RowGoal, DiskGoal, RemoteGoal, Valid, Sane, ParentDir, KnowsFolders, Grows, HasRow, IsDirGoal;
      ghost var s := View();
      ok, ids' := EnsureFolder(p, ids);
      if !ok { return; }
      ghost var t := View();
      ok := EnsureDir(p);
      GrowsTrans(s, t, View());
      if !ok { return; }
      ghost var u := View();
      FolderIdAt(b, u, p, ids');
      GrownRemote(t, u, p);
      ok := Record(Row(p, Dir, Some(ids'[p]), None, None, now, Synced, None));
      GrowsTrans(s, u, View());
    }

    // Step 0: all directories of both sides, in byte order.
    method ReconcileDirs(localDirs: set<string>, known: map<string, string>, now: int) returns (ok: bool,
            ids: map<string, string>)
      requires Between(b, View()) && Sane(b) && KnowsFolders(b, known)
      requires forall p :: p in localDirs <==> IsDir(disk, p)
      requires forall p :: p in known && p != "" <==> p in remote && remote[p].RFolder?
      modifies this`disk, this`remote, this`budget, db
      ensures Kept(old(View()), old(cursor))
      ensures ok ==> DirsDone(b, View()) && KnowsFolders(b, ids) && forall p :: IsDirGoal(b, p) ==> p in ids
    {
      hide Between, RowGoal, DiskGoal, RemoteGoal, Valid, Sane, ParentDir, KnowsFolders, Grows, HasRow, IsDirGoal,
          LexLess;
      ghost var s := View();
      ids := known;
      var todo := localDirs + (known.Keys - {""});
      StartOfDirs(b, s, localDirs, known);
      GrowsSelf(s);
      while todo != {}
        invariant Kept(s, old(cursor)) && KnowsFolders(b, ids)
        invariant DirsLeft(b, View(), ids, todo)
        decreases todo
      {
        LeastExists(todo);
        var p :| p in todo && forall x :: x in todo ==> x == p || LexLess(p, x);
        ParentIsDone(b, View(), ids, todo, p);
        ghost var t := View();
        ghost var before := ids;
        ok, ids := ReconcileDir(p, ids, now);
        GrowsTrans(s, t, View());
        if !ok { return; }
        OneDirLess(b, t, View(), before, ids, todo, p);
        todo := todo - {p};
      }
      ok := true;
      NoDirsLeft(b, View(), ids);
    }

    // Step 1: a pointer file and a skipped row for every native document.
    method WriteShortcuts(natives: map<string, RNode>, now: int) returns (ok: bool)
      requires Between(b, View()) && Sane(b)
      requires forall q :: q in natives <==> q in remote && remote[q].RNative?
      requires forall q :: q in natives ==> natives[q] == remote[q]
      modifies this`disk, this`budget, db
      ensures Kept(old(View()), old(cursor)) && remote == old(remote)
      ensures ok ==> ShortcutsDone(b, View())
    {
      hide Between, RowGoal, DiskGoal, RemoteGoal, Valid, Sane, ShortcutsDone, Grows, HasRow, ShortcutPath;
      ghost var s := View();
      var todo := natives.Keys;
      GrowsSelf(s);
      NativesAreOld(b, s);
      while todo != {}
        invariant Kept(s, old(cursor)) && remote == old(remote) && todo <= natives.Keys
        invariant ShortcutsLeft(b, View(), todo)
        decreases todo
      {
        var q :| q in todo;
        var rel := ShortcutPath(q, natives[q].ext);
        ghost var t := View();
        ShortcutGoal(b, t, q);
        BetweenIsValid(b, t);
        var here := db.GetByPath(rel);
        if here.None? {
          ok := WriteLocal(rel, natives[q].pointer);
          GrowsTrans(s, t, View());
          if !ok { return; }
          ghost var u := View();
          ok := Record(Row(rel, File, Some(natives[q].id), None, None, now, Skipped, None));
          GrowsTrans(t, u, View());
          GrowsTrans(s, t, View());
          if !ok { return; }
        } else {
          GrowsSelf(t);
          RowHasItsFile(b, t, rel);
        }
        OneShortcutLess(b, t, View(), todo, q, rel);
        todo := todo - {q};
      }
      ok := true;
      NoShortcutsLeft(b, View());
    }

    // Files on both sides: equal ones are recorded, different ones left to the conflict handler.
    method RecordCommon(common: set<string>, remoteFiles: map<string, RNode>, now: int) returns (ok: bool)
      requires Between(b, View()) && Sane(b)
      requires forall p :: p in common ==>
          IsFile(disk, p) && p in remoteFiles && p in remote && remoteFiles[p] == remote[p]
      modifies this`budget, db
      ensures Kept(old(View()), old(cursor)) && disk == old(disk) && remote == old(remote)
      ensures ok ==> forall p :: p in common && RowGoal(b, p).Some? ==> HasRow(View(), p)
    {
      hide Between, RowGoal, DiskGoal, RemoteGoal, Valid, Sane, Grows, HasRow;
      ghost var s := View();
      var todo := common;
      GrowsSelf(s);
      while todo != {}
        invariant Kept(s, old(cursor)) && disk == old(disk) && remote == old(remote) && todo <= common
        invariant forall p :: p in common && p !in todo && RowGoal(b, p).Some? ==> HasRow(View(), p)
        decreases todo
      {
        var p :| p in todo;
        ghost var t := View();
        CommonGoal(b, t, p);
        GrowsSelf(t);
        var bytes := disk[p].bytes;
        if !b.ignored(p) && remoteFiles[p].RFile? && Md5(remoteFiles[p].bytes) == Md5(bytes) &&
            |remoteFiles[p].bytes| == |bytes| {
          ok := Record(Row(p, File, Some(remoteFiles[p].id), Some(|bytes|), Some(Md5(bytes)), now, Synced, None));
          GrowsTrans(s, t, View());
          if !ok { return; }
        }
        forall x | x in common && x !in todo && RowGoal(b, x).Some?
          ensures HasRow(View(), x)
        {
          RowsPersist(t, View(), x);
        }
        todo := todo - {p};
      }
      ok := true;
    }

    // Step 3, download direction.
    method BulkDownload(downloads: set<string>, remoteFiles: map<string, RNode>) returns (ok: bool)
      requires Between(b, View())
      requires forall p :: p in downloads ==>
          p in remoteFiles && remoteFiles[p].RFile? && DiskGoal(b, p) == Some(FileNode(remoteFiles[p].bytes))
      modifies this`disk, this`budget
      ensures Kept(old(View()), old(cursor)) && remote == old(remote)
      ensures ok ==> forall p :: p in downloads ==> p in disk
    {
      hide Between, RowGoal, DiskGoal, RemoteGoal, Valid, HasRow;
      ghost var s := View();
      var todo := downloads;
      GrowsSelf(s);
      while todo != {}
        invariant Kept(s, old(cursor)) && remote == old(remote) && todo <= downloads
        invariant forall p :: p in downloads && p !in todo ==> p in disk
        decreases todo
      {
        var p :| p in todo;
        ghost var t := View();
        ok := WriteLocal(p, remoteFiles[p].bytes);
        GrowsTrans(s, t, View());
        if !ok { return; }
        todo := todo - {p};
      }
      ok := true;
    }

    // Step 3, upload direction: every parent folder is known by now.
    method BulkUpload(uploads: set<string>, ids: map<string, string>) returns (ok: bool)
      requires Between(b, View()) && UniqueIds(b) && KnowsFolders(b, ids)
      requires forall p :: p in ids && p != "" ==> p in remote
      requires forall p :: p in uploads ==>
          IsFile(disk, p) && RemoteGoal(b, p) == Some(RFile(b.newId(p), disk[p].bytes))
      requires forall p :: p in uploads ==> WellNamed(p) && ParentDir(p) in ids
      modifies this`remote, this`budget
      ensures Kept(old(View()), old(cursor)) && disk == old(disk)
      ensures ok ==> forall p :: p in uploads ==> p in remote
    {
      hide Between, RowGoal, DiskGoal, RemoteGoal, Valid, HasRow, ParentDir, WellNamed, KnowsFolders, UniqueIds;
      ghost var s := View();
      var todo := uploads;
      GrowsSelf(s);
      while todo != {}
        invariant Kept(s, old(cursor)) && disk == old(disk) && todo <= uploads
        invariant forall p :: p in uploads && p !in todo ==> p in remote
        decreases todo
      {
        var p :| p in todo;
        ghost var t := View();
        var up, name := SplitParent(p);
        var parentId := if up in ids then ids[up] else b.root;
        assert up in ids;
        ParentFolder(b, t, ids, up);
        ok := Upload(p, parentId, name, up);
        GrowsTrans(s, t, View());
        if !ok { return; }
        todo := todo - {p};
      }
      ok := true;
    }

    // Step 4: rows for what was transferred, from a listing of the remote side.
    method RecordTransferred(paths: set<string>, listing: map<string, RNode>, now: int) returns (ok: bool)
      requires Between(b, View())
      requires forall p :: p in paths ==> p in listing && listing[p].RFile? && p in disk && p in remote
      requires forall p :: p in paths ==>
        RowGoal(b, p) == Some(FileRow(p, listing[p]))
      modifies this`budget, db
      ensures Kept(old(View()), old(cursor)) && disk == old(disk) && remote == old(remote)
      ensures ok ==> forall p :: p in paths ==> HasRow(View(), p)
    {
      hide Between, RowGoal, DiskGoal, RemoteGoal, Valid, Grows, HasRow;
      ghost var s := View();
      var todo := paths;
      GrowsSelf(s);
      while todo != {}
        invariant Kept(s, old(cursor)) && disk == old(disk) && remote == old(remote) && todo <= paths
        invariant forall p :: p in paths && p !in todo ==> HasRow(View(), p)
        decreases todo
      {
        var p :| p in todo;
        ghost var t := View();
        ok := Record(Row(p, File, Some(listing[p].id), Some(|listing[p].bytes|), Some(Md5(listing[p].bytes)), now,
            Synced, None));
        GrowsTrans(s, t, View());
        if !ok { return; }
        forall x | x in paths && x !in todo ensures HasRow(View(), x) { RowsPersist(t, View(), x); }
        todo := todo - {p};
      }
      ok := true;
    }

    // Step 2: local files Drive does not have, without the pointer files of native documents.
    method ClassifyUploads(localFiles: set<string>, remoteFiles: map<string, RNode>) returns (uploads: set<string>)
      requires Between(b, View())
      ensures forall p :: p in uploads <==>
        p in localFiles && p !in remoteFiles && !b.ignored(p) && !SkippedAt(View(), p)
    {
      hide Between, Valid;
      BetweenIsValid(b, View());
      uploads := {};
      var todo := localFiles;
      while todo != {}
        invariant todo <= localFiles
        invariant forall p :: p in uploads <==>
          p in localFiles && p !in todo && p !in remoteFiles && !b.ignored(p) && !SkippedAt(View(), p)
        decreases todo
      {
        var p :| p in todo;
        todo := todo - {p};
        if p !in remoteFiles && !b.ignored(p) {
          var row := db.GetByPath(p);
          if row.None? || db.items[row.value].state != Skipped { uploads := uploads + {p}; }
        }
      }
    }

    // Steps 0 and 1.
    method Prepare(now: int) returns (ok: bool, ids: map<string, string>)
      requires Between(b, View()) && Sane(b)
      modifies this`disk, this`remote, this`budget, db
      ensures Kept(old(View()), old(cursor))
      ensures ok ==> Prepared(b, View()) && KnowsFolders(b, ids) && forall p :: p == "" || IsDirGoal(b, p) ==> p in ids
    {
      hide Between, RowGoal, DiskGoal, RemoteGoal, Valid, Sane, Grows, HasRow, DirsDone, ShortcutsDone, IsDirGoal;
      ghost var s := View();
      var localDirs := set p | p in disk && disk[p].DirNode?;
      var natives := map p | p in remote && remote[p].RNative? :: remote[p];
      var known := FolderIds();
      ok, ids := ReconcileDirs(localDirs, known, now);
      if !ok { return; }
      ghost var t := View();
      NativesPersist(b, s, t);
      ok := WriteShortcuts(natives, now);
      GrowsTrans(s, t, View());
      if ok { DirsStayDone(b, t, View()); }
    }

    // Step 2: what has to move in which direction, from the two walks.
    method Classify(localFiles: set<string>, remoteFiles: map<string, RNode>, ghost s: Progress)
      returns (downloads: set<string>, uploads: set<string>)
      requires Sane(b) && Between(b, s) && Between(b, View()) && ShortcutsDone(b, View())
      requires Walked(s, localFiles, remoteFiles)
      ensures forall p :: p in downloads <==> RemoteOnly(b, s, p)
      ensures forall p :: p in uploads <==> LocalOnly(b, s, p)
    {
      hide Between, Sane, ShortcutsDone, SkippedAt, IsShortcut;
      downloads := set p | p in remoteFiles && p !in localFiles && !b.ignored(p) && remoteFiles[p].RFile?;
      uploads := ClassifyUploads(localFiles, remoteFiles);
      forall p ensures SkippedAt(View(), p) <==> IsShortcut(b, p) { SkippedIffShortcut(b, View(), p); }
    }

    // Step 3.
    method Transfer(downloads: set<string>, uploads: set<string>, remoteFiles: map<string, RNode>,
            ids: map<string, string>, ghost s: Progress)
      returns (ok: bool)
      requires Sane(b) && Between(b, s) && Between(b, View()) && Grows(s, View()) && DirsDone(b, View())
      requires forall p :: p in remoteFiles ==> p in s.remote && remoteFiles[p] == s.remote[p]
      requires forall p :: p in downloads ==> RemoteOnly(b, s, p) && p in remoteFiles
      requires forall p :: p in uploads ==> LocalOnly(b, s, p)
      requires KnowsFolders(b, ids) && forall p :: p == "" || IsDirGoal(b, p) ==> p in ids
      modifies this`disk, this`remote, this`budget
      ensures Kept(old(View()), old(cursor))
      ensures ok ==> (forall p :: p in downloads ==> p in disk) && (forall p :: p in uploads ==> p in remote)
    {
      hide Between, RowGoal, DiskGoal, RemoteGoal, Valid, Sane, Grows, HasRow, DirsDone, KnowsFolders, IsDirGoal,
        UniqueIds, LocalOnly, RemoteOnly, WellNamed, ParentDir;
      ghost var t := View();
      SaneIds(b);
      forall p | p in downloads ensures DownloadFacts(b, p, remoteFiles[p]) { DownloadGoal(b, s, p); }
      ok := BulkDownload(downloads, remoteFiles);
      if !ok { return; }
      ghost var u := View();
      GrowsTrans(s, t, u);
      DirsStayDone(b, t, u);
      FoldersThere(b, u, ids);
      forall p | p in uploads ensures UploadFacts(b, u, p, ids) { UploadGoal(b, s, u, p, ids); }
      ok := BulkUpload(uploads, ids);
      GrowsTrans(t, u, View());
      forall p | p in downloads ensures p in disk { GrownRemote(u, View(), p); }
    }

    // Step 4: downloads from the first listing, uploads from a second one.
    method RecordMoved(downloads: set<string>, uploads: set<string>, remoteFiles: map<string, RNode>, ghost s: Progress,
            now: int)
      returns (ok: bool)
      requires Sane(b) && Between(b, s) && Between(b, View()) && Grows(s, View())
      requires forall p :: p in remoteFiles ==> p in s.remote && remoteFiles[p] == s.remote[p]
      requires forall p :: p in downloads ==> RemoteOnly(b, s, p) && p in remoteFiles && p in disk
      requires forall p :: p in uploads ==> LocalOnly(b, s, p) && p in remote
      modifies this`budget, db
      ensures Kept(old(View()), old(cursor)) && disk == old(disk) && remote == old(remote)
      ensures ok ==> forall p :: p in downloads || p in uploads ==> HasRow(View(), p)
    {
      hide Between, RowGoal, DiskGoal, RemoteGoal, Valid, Sane, Grows, HasRow, LocalOnly, RemoteOnly;
      ghost var t := View();
      forall p | p in downloads ensures DownloadFacts(b, p, remoteFiles[p]) && p in remote {
        DownloadGoal(b, s, p);
        GrownRemote(s, t, p);
      }
      ok := RecordTransferred(downloads, remoteFiles, now);
      if !ok { return; }
      ghost var u := View();
      GrowsTrans(s, t, u);
      var listing := remote;
      forall p | p in uploads ensures UploadedFacts(b, u, p) { UploadedGoal(b, s, u, p); }
      ok := RecordTransferred(uploads, listing, now);
      GrowsTrans(t, u, View());
      if ok { forall p | p in downloads ensures HasRow(View(), p) { RowsPersist(u, View(), p); } }
    }

    // `initial`, from any moment of an earlier attempt. Whenever it stops, nothing is lost; when
    // it gets to the end, everything is done; and only then is the cursor written.
    method Run(token: string, now: int) returns (done: bool)
      requires Between(b, View()) && Sane(b)
      modifies this`disk, this`remote, this`cursor, this`budget, db
      ensures Between(b, View()) && Grows(old(View()), View())
      ensures done ==> Finished(b, View()) && cursor == Some(token)
      ensures !done ==> cursor == old(cursor)
    {
      hide Between, RowGoal, DiskGoal, RemoteGoal, Valid, Sane, Grows, HasRow, Finished, DirsDone, ShortcutsDone,
        KnowsFolders, IsDirGoal, LocalOnly, RemoteOnly;
      ghost var s := View();
      var localFiles := set p | p in disk && disk[p].FileNode?;
      var remoteFiles := map p | p in remote && !remote[p].RFolder? :: remote[p];
      var ids;
      done, ids := Prepare(now);
      if !done { return; }
      ghost var s1 := View();

      var downloads, uploads := Classify(localFiles, remoteFiles, s);
      FilesPersist(b, s, s1);
      done := RecordCommon(localFiles * remoteFiles.Keys, remoteFiles, now);
      ghost var s2 := View();
      GrowsTrans(s, s1, s2);
      if !done { return; }

      DirsStayDone(b, s1, s2);
      AllDownloadsListed(b, s, downloads, remoteFiles);
      done := Transfer(downloads, uploads, remoteFiles, ids, s);
      ghost var s3 := View();
      GrowsTrans(s, s2, s3);
      if !done { return; }

      done := RecordMoved(downloads, uploads, remoteFiles, s, now);
      ghost var s4 := View();
      GrowsTrans(s, s3, s4);
      if !done { return; }

      done := Spend();
      if done {
        GrowsTrans(s2, s3, s4);
        GrowsTrans(s1, s2, s4);
        EverythingIsDone(b, s, s1, s2, s3, s4, downloads, uploads);
        cursor := Some(token);
      }
    }

    method FolderIds() returns (ids: map<string, string>)
      requires Between(b, View()) && Sane(b)
      ensures KnowsFolders(b, ids)
      ensures forall p :: p in ids && p != "" <==> p in remote && remote[p].RFolder?
    {
      hide RowGoal, DiskGoal, RemoteGoal, Valid, Sane;
      ids := (map p | p in remote && remote[p].RFolder? :: remote[p].id)["" := b.root];
      if "" in remote && remote[""].RFolder? { RootIsUnnamed(b, View()); }
    }
  }

  lemma GrownRemote(s: Progress, t: Progress, p: string)
    requires Grows(s, t)
    ensures (p in s.remote ==> p in t.remote) && (p in s.disk ==> p in t.disk)
  {
  }

  lemma BetweenIsValid(b: Setting, s: Progress)
    requires Between(b, s)
    ensures Valid(s.db)
  {
  }

  lemma GrowsSelf(s: Progress)
    ensures Grows(s, s)
  {
  }

  lemma SaneIds(b: Setting)
    requires Sane(b)
    ensures UniqueIds(b)
  {
  }

  lemma ParentFolder(b: Setting, s: Progress, ids: map<string, string>, up: string)
    requires Between(b, s) && KnowsFolders(b, ids) && up in ids && (up == "" || up in s.remote)
    ensures IsFolderPath(s.remote, b.root, ids[up], up)
  {
    hide RemoteGoal, DiskGoal, RowGoal, Valid;
  }

  lemma NewFolderGoal(b: Setting, s: Progress, p: string)
    requires Sane(b) && Between(b, s) && p !in s.remote && IsDirGoal(b, p)
    ensures WellNamed(p) && RemoteGoal(b, p) == Some(RFolder(b.newId(p)))
  {
    hide DiskGoal, RowGoal, Valid, Sane, ParentDir, FileName, WellNamed;
    DirGoals(b, p);
  }

  // `split_parent`
  method SplitParent(rel: string) returns (parent: string, name: string)
    requires WellNamed(rel)
    ensures parent == ParentDir(rel) && Join(parent, name) == rel
  {
    parent, name := ParentDir(rel), FileName(rel);
  }

  lemma DirNodeAt(b: Setting, s: Progress, p: string)
    requires Between(b, s) && IsDirGoal(b, p) && WellNamed(p)
    ensures p != "" && (p in s.disk ==> s.disk[p].DirNode?)
  {
    hide RemoteGoal, DiskGoal, RowGoal, Valid, ParentDir;
  }

  lemma FolderIdAt(b: Setting, s: Progress, p: string, ids: map<string, string>)
    requires Sane(b) && KnowsFolders(b, ids) && p in ids && IsDirGoal(b, p)
    ensures p != ""
    ensures RowGoal(b, p) == Some(Row(p, Dir, Some(ids[p]), None, None, 0, Synced, None))
  {
    hide RemoteGoal, DiskGoal, RowGoal, Sane, ParentDir, FileName;
    DirGoals(b, p);
  }

  // The directories still waiting: all of them belong to the end, and the others are done.
  ghost predicate DirsLeft(b: Setting, s: Progress, ids: map<string, string>, todo: set<string>) {
    && (forall p :: p in todo ==> IsDirGoal(b, p) && (p in ids <==> p in s.remote))
    && (forall p :: IsDirGoal(b, p) && p !in todo ==> p in s.disk && p in s.remote && HasRow(s, p) && p in ids)
  }

  lemma StartOfDirs(b: Setting, s: Progress, localDirs: set<string>, known: map<string, string>)
    requires Between(b, s) && Sane(b) && KnowsFolders(b, known)
    requires forall p :: p in localDirs <==> IsDir(s.disk, p)
    requires forall p :: p in known && p != "" <==> p in s.remote && s.remote[p].RFolder?
    ensures DirsLeft(b, s, known, localDirs + (known.Keys - {""}))
  {
    hide DiskGoal, RemoteGoal, RowGoal, Valid, Sane, HasRow, WellNamed, ParentDir;
    var todo := localDirs + (known.Keys - {""});
    forall p | p in todo || IsDirGoal(b, p)
      ensures p in todo && IsDirGoal(b, p) && (p in known <==> p in s.remote)
    {
      DirGoals(b, p);
      if IsDirGoal(b, p) { WellNamedIsNotEmpty(p); }
    }
  }

  lemma WellNamedIsNotEmpty(p: string)
    requires WellNamed(p)
    ensures p != ""
  {
    hide ParentDir;
  }

  lemma ParentIsDone(b: Setting, s: Progress, ids: map<string, string>, todo: set<string>, p: string)
    requires Sane(b) && Between(b, s) && KnowsFolders(b, ids) && DirsLeft(b, s, ids, todo)
    requires p in todo && forall x :: x in todo ==> x == p || LexLess(p, x)
    ensures IsDirGoal(b, p) && (p in ids <==> p in s.remote)
    ensures ParentDir(p) in ids && (ParentDir(p) == "" || (ParentDir(p) in s.remote && IsDir(s.disk, ParentDir(p))))
  {
    hide DiskGoal, RemoteGoal, RowGoal, Valid, Sane, HasRow, WellNamed, ParentDir, LexLess;
    DirGoals(b, p);
    WellNamedIsNotEmpty(p);
    ParentComesFirst(p);
    LexTotal(p, ParentDir(p));
    LexTotal(p, p);
  }

  lemma OneDirLess(b: Setting, t: Progress, u: Progress, before: map<string, string>, ids: map<string, string>,
          todo: set<string>, p: string)
    requires DirsLeft(b, t, before, todo) && p in todo && Grows(t, u)
    requires forall q :: q in before ==> q in ids
    requires forall q :: q in ids && q !in before ==> q == p
    requires forall q :: q in u.remote && q !in t.remote ==> q == p
    requires p in u.disk && p in u.remote && HasRow(u, p) && p in ids
    ensures DirsLeft(b, u, ids, todo - {p})
  {
    hide IsDirGoal, HasRow;
  }

  lemma NoDirsLeft(b: Setting, s: Progress, ids: map<string, string>)
    requires DirsLeft(b, s, ids, {})
    ensures DirsDone(b, s) && forall p :: IsDirGoal(b, p) ==> p in ids
  {
    hide IsDirGoal, HasRow;
  }

  ghost predicate ShortcutsLeft(b: Setting, s: Progress, todo: set<string>) {
    forall q, r :: IsShortcutOf(b, q, r) && q !in todo ==> r in s.disk && HasRow(s, r)
  }

  // Natives are never created by the run.
  lemma NativesAreOld(b: Setting, s: Progress)
    requires Between(b, s)
    ensures forall q :: q in s.remote && s.remote[q].RNative? <==> q in b.remote && b.remote[q].RNative?
    ensures forall q :: q in b.remote ==> s.remote[q] == b.remote[q]
  {
    hide DiskGoal, RowGoal, Valid;
  }

  lemma ShortcutGoal(b: Setting, s: Progress, q: string)
    requires Sane(b) && Between(b, s) && q in s.remote && s.remote[q].RNative?
    ensures var r := ShortcutPath(q, s.remote[q].ext);
      && IsShortcutOf(b, q, r) && DiskGoal(b, r) == Some(FileNode(s.remote[q].pointer))
      && RowGoal(b, r) == Some(Row(r, File, Some(s.remote[q].id), None, None, 0, Skipped, None))
  {
    hide UniqueIds, Tree, ParentsAreFolders, WellNamed, ParentDir, Valid, ShortcutPath;
    NativesAreOld(b, s);
    var r := ShortcutPath(q, b.remote[q].ext);
    assert IsShortcutOf(b, q, r);
    assert IsShortcut(b, r);
  }

  lemma RowHasItsFile(b: Setting, s: Progress, p: string)
    requires Between(b, s) && FindPath(s.db, p).Some?
    ensures p in s.disk && HasRow(s, p)
  {
    hide DiskGoal, RemoteGoal, RowGoal, Valid;
  }

  lemma OneShortcutLess(b: Setting, t: Progress, u: Progress, todo: set<string>, q: string, r: string)
    requires ShortcutsLeft(b, t, todo) && Grows(t, u) && IsShortcutOf(b, q, r) && r in u.disk && HasRow(u, r)
    ensures ShortcutsLeft(b, u, todo - {q})
  {
    hide HasRow, ShortcutPath;
  }

  lemma NoShortcutsLeft(b: Setting, s: Progress)
    requires ShortcutsLeft(b, s, {})
    ensures ShortcutsDone(b, s)
  {
    hide HasRow, ShortcutPath, IsShortcutOf;
  }

  lemma RowsPersist(s: Progress, t: Progress, p: string)
    requires Grows(s, t) && HasRow(s, p)
    ensures HasRow(t, p)
  {
    hide HasRow;
  }

  // A file on both sides is recorded exactly when its bytes agree.
  lemma CommonGoal(b: Setting, s: Progress, p: string)
    requires Sane(b) && Between(b, s) && IsFile(s.disk, p) && p in s.remote
    ensures RowGoal(b, p).Some? <==> !b.ignored(p) && s.remote[p].RFile? && s.remote[p].bytes == s.disk[p].bytes
    ensures RowGoal(b, p).Some? ==> RowGoal(b, p) == Some(FileRow(p, s.remote[p]))
  {
    hide UniqueIds, Tree, ParentsAreFolders, WellNamed, ParentDir, Valid, ShortcutPath;
    assert !IsShortcut(b, p);
  }

  ghost predicate SkippedAt(s: Progress, p: string) {
    FindPath(s.db, p).Some? && s.db.items[FindPath(s.db, p).value].state == Skipped
  }

  lemma RootIsUnnamed(b: Setting, s: Progress)
    requires Sane(b) && Between(b, s)
    ensures !("" in s.remote && s.remote[""].RFolder?)
  {
    hide DiskGoal, RemoteGoal, RowGoal, Valid, Sane, WellNamed;
    DirGoals(b, "");
    if "" in s.remote && s.remote[""].RFolder? { WellNamedIsNotEmpty(""); }
  }

  lemma NativesPersist(b: Setting, s: Progress, t: Progress)
    requires Between(b, s) && Between(b, t)
    ensures forall q :: q in s.remote && s.remote[q].RNative? <==> q in t.remote && t.remote[q].RNative?
    ensures forall q :: q in s.remote && s.remote[q].RNative? ==> t.remote[q] == s.remote[q]
  {
    hide Between;
    NativesAreOld(b, s);
    NativesAreOld(b, t);
  }

  // What is there once stays there, unchanged.
  lemma FilesPersist(b: Setting, s: Progress, t: Progress)
    requires Between(b, s) && Between(b, t) && Grows(s, t)
    ensures forall p :: p in s.disk ==> p in t.disk && t.disk[p] == s.disk[p]
    ensures forall p :: p in s.remote ==> p in t.remote && t.remote[p] == s.remote[p]
  {
    hide DiskGoal, RemoteGoal, RowGoal, Valid, HasRow;
  }

  ghost predicate DownloadFacts(b: Setting, p: string, node: RNode) {
    node.RFile? && DiskGoal(b, p) == Some(FileNode(node.bytes)) && RowGoal(b, p) == Some(FileRow(p, node))
  }

  // The two walks at the start of an attempt.
  ghost predicate Walked(s: Progress, localFiles: set<string>, remoteFiles: map<string, RNode>) {
    && (forall p :: p in localFiles <==> IsFile(s.disk, p))
    && (forall p :: p in remoteFiles <==> p in s.remote && !s.remote[p].RFolder?)
    && (forall p :: p in remoteFiles ==> remoteFiles[p] == s.remote[p])
  }

  ghost predicate RemoteOnly(b: Setting, s: Progress, p: string) {
    p in s.remote && s.remote[p].RFile? && !IsFile(s.disk, p) && !b.ignored(p)
  }

  ghost predicate LocalOnly(b: Setting, s: Progress, p: string) {
    IsFile(s.disk, p) && !(p in s.remote && !s.remote[p].RFolder?) && !b.ignored(p) && !IsShortcut(b, p)
  }

  ghost predicate Prepared(b: Setting, s: Progress) { DirsDone(b, s) && ShortcutsDone(b, s) }

  lemma DirsStayDone(b: Setting, s: Progress, t: Progress)
    requires DirsDone(b, s) && Grows(s, t)
    ensures DirsDone(b, t)
  {
    hide IsDirGoal, HasRow;
  }

  lemma ShortcutsStayDone(b: Setting, s: Progress, t: Progress)
    requires ShortcutsDone(b, s) && Grows(s, t)
    ensures ShortcutsDone(b, t)
  {
    hide IsShortcut, HasRow;
  }

  lemma AllDownloadsListed(b: Setting, s: Progress, downloads: set<string>, remoteFiles: map<string, RNode>)
    requires forall p :: p in downloads <==> RemoteOnly(b, s, p)
    requires forall p :: p in remoteFiles <==> p in s.remote && !s.remote[p].RFolder?
    ensures forall p :: p in downloads ==> p in remoteFiles
  {
  }

  lemma RemoteFileGoals(b: Setting, p: string)
    requires Sane(b) && p in b.remote && p !in b.disk && b.remote[p].RFile? && !b.ignored(p)
    ensures DownloadFacts(b, p, b.remote[p])
  {
    hide UniqueIds, Tree, ParentsAreFolders, WellNamed, ParentDir, ShortcutPath;
    assert !IsShortcut(b, p);
  }

  lemma RemoteOnlyIsOld(b: Setting, s: Progress, p: string)
    requires Sane(b) && Between(b, s) && RemoteOnly(b, s, p)
    ensures p in b.remote && p !in b.disk && b.remote[p] == s.remote[p] && !b.ignored(p)
  {
    DirGoals(b, p);
    hide UniqueIds, Tree, ParentsAreFolders, WellNamed, ParentDir, Valid, ShortcutPath, ShortcutsFree, RowGoal;
  }

  lemma DownloadGoal(b: Setting, s: Progress, p: string)
    requires Sane(b) && Between(b, s) && RemoteOnly(b, s, p)
    ensures p in s.remote && DownloadFacts(b, p, s.remote[p])
  {
    hide Sane, Between, DownloadFacts;
    RemoteOnlyIsOld(b, s, p);
    RemoteFileGoals(b, p);
  }

  lemma FoldersThere(b: Setting, s: Progress, ids: map<string, string>)
    requires Sane(b) && KnowsFolders(b, ids) && DirsDone(b, s)
    ensures forall p :: p in ids && p != "" ==> p in s.remote
  {
    hide DiskGoal, RemoteGoal, RowGoal, Sane, HasRow, WellNamed, ParentDir;
    forall p | p in ids && p != "" ensures p in s.remote { DirGoals(b, p); }
  }

  ghost predicate UploadFacts(b: Setting, s: Progress, p: string, ids: map<string, string>) {
    && IsFile(s.disk, p) && RemoteGoal(b, p) == Some(RFile(b.newId(p), s.disk[p].bytes))
    && RowGoal(b, p) == Some(FileRow(p, RFile(b.newId(p), s.disk[p].bytes)))
    && WellNamed(p) && ParentDir(p) in ids
  }

  // A local file that is neither on Drive nor a shortcut was there before the first attempt.
  lemma LocalOnlyIsOld(b: Setting, s: Progress, p: string)
    requires Sane(b) && Between(b, s) && IsFile(s.disk, p) && !(p in s.remote && !s.remote[p].RFolder?)
    requires !IsShortcut(b, p)
    ensures p in b.disk && b.disk[p] == s.disk[p] && p !in b.remote
  {
    DirGoals(b, p);
    hide UniqueIds, Tree, ParentsAreFolders, WellNamed, ParentDir, Valid, ShortcutPath;
  }

  lemma OldFileGoals(b: Setting, p: string)
    requires Sane(b) && p in b.disk && b.disk[p].FileNode? && p !in b.remote && !b.ignored(p)
    ensures RemoteGoal(b, p) == Some(RFile(b.newId(p), b.disk[p].bytes))
    ensures RowGoal(b, p) == Some(FileRow(p, RFile(b.newId(p), b.disk[p].bytes)))
    ensures WellNamed(p) && (ParentDir(p) == "" || IsDirGoal(b, ParentDir(p)))
  {
    hide UniqueIds, ParentsAreFolders, WellNamed, ParentDir, ShortcutPath;
    assert !IsShortcut(b, p);
  }

  // With all shortcuts recorded, the skipped rows are those of the shortcuts.
  lemma SkippedIffShortcut(b: Setting, s: Progress, p: string)
    requires Between(b, s) && ShortcutsDone(b, s)
    ensures SkippedAt(s, p) <==> IsShortcut(b, p)
  {
    hide DiskGoal, RemoteGoal, Valid, ShortcutPath, IsShortcutOf;
    if HasRow(s, p) { assert s.db.items[FindPath(s.db, p).value].path == p; }
  }

  lemma UploadGoal(b: Setting, s: Progress, t: Progress, p: string, ids: map<string, string>)
    requires Sane(b) && Between(b, s) && Between(b, t) && Grows(s, t) && LocalOnly(b, s, p)
    requires forall q :: q == "" || IsDirGoal(b, q) ==> q in ids
    ensures UploadFacts(b, t, p, ids)
  {
    hide DiskGoal, RemoteGoal, RowGoal, Valid, Sane, IsShortcut, ParentDir, WellNamed, IsDirGoal, Between;
    LocalOnlyIsOld(b, s, p);
    OldFileGoals(b, p);
    FilesPersist(b, s, t);
  }

  ghost predicate UploadedFacts(b: Setting, s: Progress, p: string) {
    p in s.disk && p in s.remote && s.remote[p].RFile? && RowGoal(b, p) == Some(FileRow(p, s.remote[p]))
  }

  lemma UploadedGoal(b: Setting, s: Progress, t: Progress, p: string)
    requires Sane(b) && Between(b, s) && Between(b, t) && Grows(s, t) && LocalOnly(b, s, p) && p in t.remote
    ensures UploadedFacts(b, t, p)
  {
    hide DiskGoal, RowGoal, RemoteGoal, Valid, Sane, IsShortcut, ParentDir, WellNamed, IsDirGoal;
    LocalOnlyIsOld(b, s, p);
    OldFileGoals(b, p);
    FilesPersist(b, s, t);
  }

  // A plain file of either side, in each of the ways an attempt can have found it.
  lemma LeafOnDisk(b: Setting, s: Progress, p: string)
    requires Between(b, s) && !IsDirGoal(b, p) && !IsShortcut(b, p) && DiskGoal(b, p).Some?
    ensures DiskGoal(b, p).value.FileNode?
    ensures if p in s.disk then s.disk[p] == DiskGoal(b, p).value else RemoteOnly(b, s, p)
  {
    hide RowGoal, IsShortcut, Valid;
  }

  lemma LeafOnDrive(b: Setting, s: Progress, p: string)
    requires Between(b, s) && !IsDirGoal(b, p) && !IsShortcut(b, p) && RemoteGoal(b, p).Some?
    ensures if p in s.remote then s.remote[p] == RemoteGoal(b, p).value else LocalOnly(b, s, p)
  {
    hide RowGoal, IsShortcut, Valid;
  }

  lemma LeafRow(b: Setting, p: string)
    requires !IsDirGoal(b, p) && !IsShortcut(b, p) && RowGoal(b, p).Some?
    ensures DiskGoal(b, p).Some? && RemoteGoal(b, p).Some? && RemoteGoal(b, p).value.RFile?
  {
    hide DiskGoal, RemoteGoal, IsShortcut;
  }

  lemma LeafCases(b: Setting, s: Progress, p: string)
    requires Between(b, s) && !IsDirGoal(b, p) && !IsShortcut(b, p)
    ensures DiskGoal(b, p).Some? ==> p in s.disk || RemoteOnly(b, s, p)
    ensures RemoteGoal(b, p).Some? ==> p in s.remote || LocalOnly(b, s, p)
    ensures RowGoal(b, p).Some? ==>
        RemoteOnly(b, s, p) || LocalOnly(b, s, p) || (IsFile(s.disk, p) && p in s.remote && !s.remote[p].RFolder?)
  {
    hide DiskGoal, RemoteGoal, RowGoal, Between, IsDirGoal, IsShortcut, RemoteOnly, LocalOnly;
    if RowGoal(b, p).Some? { LeafRow(b, p); }
    if DiskGoal(b, p).Some? { LeafOnDisk(b, s, p); }
    if RemoteGoal(b, p).Some? { LeafOnDrive(b, s, p); }
  }

  lemma ShortcutIsDone(b: Setting, s: Progress, p: string)
    requires Sane(b) && ShortcutsDone(b, s) && IsShortcut(b, p)
    ensures DoneAt(b, s, p)
  {
    hide UniqueIds, Tree, ParentsAreFolders, WellNamed, ParentDir, ShortcutPath, HasRow, IsShortcut;
  }

  lemma DirIsDone(b: Setting, s: Progress, p: string)
    requires DirsDone(b, s) && IsDirGoal(b, p)
    ensures DoneAt(b, s, p)
  {
    hide DiskGoal, RemoteGoal, RowGoal, IsDirGoal, HasRow;
  }

  lemma LeafIsDone(b: Setting, s: Progress, s2: Progress, s3: Progress, t: Progress, p: string)
    requires Between(b, s) && !IsDirGoal(b, p) && !IsShortcut(b, p)
    requires Grows(s, t) && Grows(s2, t) && Grows(s3, t)
    requires IsFile(s.disk, p) && p in s.remote && !s.remote[p].RFolder? && RowGoal(b, p).Some? ==> HasRow(s2, p)
    requires RemoteOnly(b, s, p) ==> p in s3.disk && HasRow(t, p)
    requires LocalOnly(b, s, p) ==> p in s3.remote && HasRow(t, p)
    ensures DoneAt(b, t, p)
  {
    hide Between, IsDirGoal, IsShortcut, DiskGoal, RemoteGoal, RowGoal, HasRow, RemoteOnly, LocalOnly;
    LeafCases(b, s, p);
  }

  lemma EverythingIsDone(b: Setting, s: Progress, s1: Progress, s2: Progress, s3: Progress, t: Progress,
                         downloads: set<string>, uploads: set<string>)
    requires Sane(b) && Between(b, s) && Between(b, t) && Prepared(b, s1)
    requires Grows(s, t) && Grows(s1, t) && Grows(s2, t) && Grows(s3, t)
    requires forall p :: p in downloads <==> RemoteOnly(b, s, p)
    requires forall p :: p in uploads <==> LocalOnly(b, s, p)
    requires forall p :: IsFile(s.disk, p) && p in s.remote && !s.remote[p].RFolder? && RowGoal(b, p).Some? ==>
        HasRow(s2, p)
    requires (forall p :: p in downloads ==> p in s3.disk) && (forall p :: p in uploads ==> p in s3.remote)
    requires forall p :: p in downloads || p in uploads ==> HasRow(t, p)
    ensures Finished(b, t)
  {
    hide Between, Sane, Grows, DiskGoal, RemoteGoal, RowGoal, IsDirGoal, IsShortcut, DirsDone, ShortcutsDone,
        RemoteOnly, LocalOnly, HasRow;
    DirsStayDone(b, s1, t);
    ShortcutsStayDone(b, s1, t);
    forall p ensures DoneAt(b, t, p) {
      if IsDirGoal(b, p) { DirIsDone(b, t, p); }
      else if IsShortcut(b, p) { ShortcutIsDone(b, t, p); }
      else { LeafIsDone(b, s, s2, s3, t, p); }
    }
  }

  // Attempts interrupted anywhere, as often as you like, and then one that gets through: the end is
  // the one the first attempt would have reached.
  method RunUntilDone(run: Initial, budgets: seq<nat>, token: string, now: int) returns (done: bool)
    requires Sane(run.b) && run.View() == Progress(run.b.disk, run.b.remote, Db(map[], map[], map[], 1, 1, 1))
    requires run.cursor == None
    modifies run, run.db
    ensures Between(run.b, run.View())
    ensures if done then Finished(run.b, run.View()) && run.cursor == Some(token) else run.cursor == None
  {
    hide Between, Sane, Finished;
    StartIsBetween(run.b);
    done := false;
    for k := 0 to |budgets|
      invariant Between(run.b, run.View())
      invariant run.cursor == None && !done
    {
      run.budget := budgets[k];
      done := run.Run(token, now);
      if done { return; }
    }
  }
}
