// The one-shot initial reconciliation (src/reconcile/mod.rs): where it has to end, what is true at
// every moment on the way, and why that end does not depend on how often it was interrupted.
module Bootstrap {
  import opened Paths
  import opened Tables
  import opened Disk
  import opened Continuous

  // A remote node under its path: a folder, a file with a digest, a native document, or a file
  // Drive reports no digest for.
  datatype RNode =
    | RFolder(id: string)
    | RFile(id: string, bytes: Bytes)
    | RNative(id: string, ext: string, pointer: Bytes)
    | RBare(id: string)

  type Listing = map<string, RNode>

  // Both sides as they were before the first attempt, the mapped folder's id, the id Drive will
  // give a node created at a path, and the ignore globs.
  datatype Setting = Setting(disk: Disk, remote: Listing, root: string, newId: string -> string,
      ignored: string -> bool)

  datatype Progress = Progress(disk: Disk, remote: Listing, db: Db)

  ghost predicate IsShortcutOf(b: Setting, q: string, r: string) {
    q in b.remote && b.remote[q].RNative? && ShortcutPath(q, b.remote[q].ext) == r
  }

  ghost predicate IsShortcut(b: Setting, r: string) {
    exists q :: IsShortcutOf(b, q, r)
  }

  // Premises: paths are well formed and unique, kinds do not clash, nothing lies where a shortcut
  // has to go, and ids are unique.
  ghost predicate Sane(b: Setting) {
    && Tree(b.disk) && ParentsAreFolders(b) && (forall p :: p in b.disk || p in b.remote ==> WellNamed(p))
    && (forall p :: p in b.disk && p in b.remote ==> (b.disk[p].DirNode? <==> b.remote[p].RFolder?))
    && ShortcutsFree(b) && UniqueIds(b)
  }

  ghost predicate ParentsAreFolders(b: Setting) {
    forall p :: p in b.remote && ParentDir(p) != "" ==> ParentDir(p) in b.remote && b.remote[ParentDir(p)].RFolder?
  }

  ghost predicate ShortcutsFree(b: Setting) {
    && (forall r :: IsShortcut(b, r) ==> r !in b.disk && r !in b.remote)
    && (forall q1, q2, r :: IsShortcutOf(b, q1, r) && IsShortcutOf(b, q2, r) ==> q1 == q2)
    && (forall q :: q in b.remote && b.remote[q].RNative? ==> '/' !in b.remote[q].ext)
  }

  ghost predicate UniqueIds(b: Setting) {
    && (forall p, q :: p in b.remote && q in b.remote && b.remote[p].id == b.remote[q].id ==> p == q)
    && (forall p :: p in b.remote ==> b.remote[p].id != b.root)
    && (forall p, q :: b.newId(p) == b.newId(q) ==> p == q)
    && (forall p, q :: q in b.remote ==> b.newId(p) != b.remote[q].id)
    && (forall p :: b.newId(p) != b.root)
  }

  // ---- where it ends ---------------------------------------------------------------------

  // What is on disk at p in the end: what was there, or what Drive had.
  ghost function DiskGoal(b: Setting, p: string): Option<Node> {
    if p in b.disk then Some(b.disk[p])
    else if p in b.remote then
      match b.remote[p]
      case RFolder(_) => Some(DirNode)
      case RFile(_, bytes) => if b.ignored(p) then None else Some(FileNode(bytes))
      case _ => None
    else if IsShortcut(b, p) then
      var q :| IsShortcutOf(b, q, p);
      Some(FileNode(b.remote[q].pointer))
    else None
  }

  ghost function RemoteGoal(b: Setting, p: string): Option<RNode> {
    if p in b.remote then Some(b.remote[p])
    else if p in b.disk then
      match b.disk[p]
      case DirNode => Some(RFolder(b.newId(p)))
      case FileNode(bytes) => if b.ignored(p) then None else Some(RFile(b.newId(p), bytes))
    else None
  }

  // The row at p in the end, without its clock reading.
  ghost function RowGoal(b: Setting, p: string): Option<Row> {
    if IsShortcut(b, p) then
      var q :| IsShortcutOf(b, q, p);
      Some(Row(p, File, Some(b.remote[q].id), None, None, 0, Skipped, None))
    else
      match (DiskGoal(b, p), RemoteGoal(b, p))
      case (Some(DirNode), Some(RFolder(id))) => Some(Row(p, Dir, Some(id), None, None, 0, Synced, None))
      case (Some(FileNode(x)), Some(RFile(id, y))) =>
        if x == y && !b.ignored(p) then Some(Row(p, File, Some(id), Some(|x|), Some(Md5(x)), 0, Synced, None)) else None
      case _ => None
  }

  function Timeless(row: Row): Row { row.(syncedAt := 0) }

  // At any moment of any attempt: nothing that was there before is lost or changed, everything
  // that was added belongs to the end, and a row is only written once its two sides are there.
  ghost predicate Between(b: Setting, s: Progress) {
    && Valid(s.db)
    && (forall p :: p in b.disk ==> p in s.disk) && (forall p :: p in s.disk ==> DiskGoal(b, p) == Some(s.disk[p]))
    && (forall p :: p in b.remote ==> p in s.remote) &&
        (forall p :: p in s.remote ==> RemoteGoal(b, p) == Some(s.remote[p]))
    && (forall i :: i in s.db.items ==>
          var row := s.db.items[i];
          RowGoal(b, row.path) == Some(Timeless(row)) && row.path in s.disk &&
              (!row.state.Skipped? ==> row.path in s.remote))
  }

  ghost predicate HasRow(s: Progress, p: string) { FindPath(s.db, p).Some? }

  ghost predicate DoneAt(b: Setting, s: Progress, p: string) {
    && (DiskGoal(b, p).Some? ==> p in s.disk)
    && (RemoteGoal(b, p).Some? ==> p in s.remote)
    && (RowGoal(b, p).Some? ==> HasRow(s, p))
  }

  ghost predicate Finished(b: Setting, s: Progress) {
    Between(b, s) && forall p :: DoneAt(b, s, p)
  }

  // Work done stays done.
  ghost predicate Grows(s: Progress, t: Progress) {
    && (forall p :: p in s.disk ==> p in t.disk) && (forall p :: p in s.remote ==> p in t.remote)
    && (forall p :: HasRow(s, p) ==> HasRow(t, p))
  }

  // ---- single steps ----------------------------------------------------------------------

  lemma AddNode(b: Setting, s: Progress, p: string, node: Node)
    requires Between(b, s) && DiskGoal(b, p) == Some(node)
    ensures var t := s.(disk := s.disk[p := node]); Between(b, t) && Grows(s, t)
  {
    hide DiskGoal, RemoteGoal, RowGoal, Valid, FindPath;
  }

  lemma AddRemote(b: Setting, s: Progress, p: string, node: RNode)
    requires Between(b, s) && RemoteGoal(b, p) == Some(node)
    ensures var t := s.(remote := s.remote[p := node]); Between(b, t) && Grows(s, t)
  {
    hide DiskGoal, RemoteGoal, RowGoal, Valid, FindPath;
  }

  lemma AddRow(b: Setting, s: Progress, row: Row)
    requires Between(b, s) && RowGoal(b, row.path) == Some(Timeless(row))
    requires row.path in s.disk && (!row.state.Skipped? ==> row.path in s.remote)
    ensures var t := s.(db := InsertRow(s.db, row)); Between(b, t) && Grows(s, t) && HasRow(t, row.path)
  {
    hide DiskGoal, RemoteGoal, RowGoal;
    var t := s.(db := InsertRow(s.db, row));
    if FindPath(s.db, row.path).None? {
      assert t.db.items[s.db.nextItem] == row;
      forall p | HasRow(s, p) ensures HasRow(t, p) {
        assert t.db.items[FindPath(s.db, p).value].path == p;
      }
    }
  }

  lemma GrowsTrans(s: Progress, t: Progress, u: Progress)
    requires Grows(s, t) && Grows(t, u)
    ensures Grows(s, u)
  {
    hide HasRow;
  }

  lemma StartIsBetween(b: Setting)
    ensures Between(b, Progress(b.disk, b.remote, Db(map[], map[], map[], 1, 1, 1)))
  {
  }

  // ---- directories -----------------------------------------------------------------------

  ghost predicate IsDirGoal(b: Setting, p: string) { DiskGoal(b, p) == Some(DirNode) }

  lemma DirGoals(b: Setting, p: string)
    requires Sane(b)
    ensures IsDirGoal(b, p) <==> (p in b.disk && b.disk[p].DirNode?) || (p in b.remote && b.remote[p].RFolder?)
    ensures IsDirGoal(b, p) <==> RemoteGoal(b, p).Some? && RemoteGoal(b, p).value.RFolder?
    ensures IsDirGoal(b, p) ==> !IsShortcut(b, p)
    ensures IsDirGoal(b, p) ==>
        RowGoal(b, p) == Some(Row(p, Dir, Some(RemoteGoal(b, p).value.id), None, None, 0, Synced, None))
    ensures IsDirGoal(b, p) ==> WellNamed(p) && (ParentDir(p) == "" || IsDirGoal(b, ParentDir(p)))
  {
    hide UniqueIds, ParentDir, FileName, WellNamed, Tree, ShortcutPath, ParentsAreFolders;
    if (p in b.disk && b.disk[p].DirNode?) || (p in b.remote && b.remote[p].RFolder?) { DirParent(b, p); }
  }

  lemma DirParent(b: Setting, p: string)
    requires Sane(b) && ((p in b.disk && b.disk[p].DirNode?) || (p in b.remote && b.remote[p].RFolder?))
    ensures WellNamed(p) && (ParentDir(p) == "" || IsDirGoal(b, ParentDir(p)))
  {
    hide UniqueIds, ParentDir, WellNamed, ShortcutsFree;
  }

  // Byte order of paths.
  predicate LexLess(a: string, b: string)
  {
    if b == "" then false
    else if a == "" then true
    else a[0] < b[0] || (a[0] == b[0] && LexLess(a[1..], b[1..]))
  }

  lemma {:induction false} LexTotal(a: string, b: string)
    ensures a == b || LexLess(a, b) || LexLess(b, a)
    ensures !(LexLess(a, b) && LexLess(b, a)) && !LexLess(a, a)
    decreases |a|
  {
    if a != "" {
      LexTotal(a[1..], a[1..]);
      if b != "" {
        LexTotal(a[1..], b[1..]);
        if a[0] == b[0] && a[1..] == b[1..] { assert a == [a[0]] + a[1..] && b == [b[0]] + b[1..]; }
      }
    }
  }

  lemma {:induction false} LexTransitive(a: string, b: string, c: string)
    requires LexLess(a, b) && LexLess(b, c)
    ensures LexLess(a, c)
    decreases |a|
  {
    if a != "" && a[0] == b[0] == c[0] { LexTransitive(a[1..], b[1..], c[1..]); }
  }

  lemma {:induction false} PrefixIsLess(a: string, b: string)
    requires a < b
    ensures LexLess(a, b)
    decreases |a|
  {
    if a != "" {
      assert a[0] == b[0];
      PrefixIsLess(a[1..], b[1..]);
    }
  }

  // A parent directory comes before what it contains, so it is never still waiting.
  lemma ParentComesFirst(p: string)
    requires p != ""
    ensures LexLess(ParentDir(p), p)
  {
    hide ParentDir;
    var d := ParentDir(p);
    if d == "" {
    } else {
      assert p[..|d|] == d && |d| < |p|;
      PrefixIsLess(d, p);
    }
  }

  ghost predicate Least(s: set<string>, m: string) {
    m in s && forall x :: x in s ==> x == m || LexLess(m, x)
  }

  lemma {:induction false} LeastExists(s: set<string>)
    requires s != {}
    ensures exists m :: Least(s, m)
    decreases s
  {
    var x :| x in s;
    LexTotal(x, x);
    if s == {x} {
      assert Least(s, x);
    } else {
      var rest := s - {x};
      assert s == rest + {x};
      LeastExists(rest);
      var m :| Least(rest, m);
      LexTotal(x, m);
      if LexLess(m, x) {
        assert Least(s, m);
      } else {
        forall y | y in s ensures y == x || LexLess(x, y) {
          if y != x && y != m { LexTransitive(x, m, y); }
        }
        assert Least(s, x);
      }
    }
  }

  // ---- what the end is worth -------------------------------------------------------------

  // No file or folder of either side is overwritten or removed, at any moment.
  lemma NothingIsOverwritten(b: Setting, s: Progress, p: string)
    requires Between(b, s)
    ensures p in b.disk ==> p in s.disk && s.disk[p] == b.disk[p]
    ensures p in b.remote ==> p in s.remote && s.remote[p] == b.remote[p]
  {
  }

  // A file whose two sides do not contradict each other.
  ghost predicate Agreeable(b: Setting, p: string) {
    && !b.ignored(p)
    && ((p in b.disk && b.disk[p].FileNode?) || (p in b.remote && b.remote[p].RFile?))
    && (p in b.disk && p in b.remote ==> b.remote[p].RFile? && b.disk[p] == FileNode(b.remote[p].bytes))
  }

  // Every such file ends with the same bytes on both sides and a synced row that says so.
  lemma FilesConverge(b: Setting, s: Progress, p: string)
    requires Sane(b) && Finished(b, s) && Agreeable(b, p)
    ensures p in s.disk && s.disk[p].FileNode? && p in s.remote && s.remote[p].RFile?
    ensures s.remote[p].bytes == s.disk[p].bytes
    ensures HasRow(s, p) && Timeless(s.db.items[FindPath(s.db, p).value]) ==
      Row(p, File, Some(s.remote[p].id), Some(|s.disk[p].bytes|), Some(Md5(s.disk[p].bytes)), 0, Synced, None)
  {
    hide UniqueIds, ParentDir, FileName, WellNamed, Tree, ParentsAreFolders;
    assert !IsShortcut(b, p) && DoneAt(b, s, p);
    var i := FindPath(s.db, p).value;
    assert s.db.items[i].path == p;
  }

  // A file that differs on the two sides is left alone, and without a row, for the conflict handler.
  lemma DifferencesAreLeftAlone(b: Setting, s: Progress, p: string)
    requires Sane(b) && Between(b, s) && p in b.disk && b.disk[p].FileNode? && p in b.remote && !Agreeable(b, p)
    ensures s.disk[p] == b.disk[p] && s.remote[p] == b.remote[p] && !HasRow(s, p)
  {
    hide UniqueIds, ParentDir, FileName, WellNamed, Tree, ParentsAreFolders;
    assert !IsShortcut(b, p);
    assert RowGoal(b, p) == None;
  }

  // Every directory of either side ends on both sides, with a synced row that names its folder.
  lemma DirectoriesConverge(b: Setting, s: Progress, p: string)
    requires Sane(b) && Finished(b, s) && (IsDir(b.disk, p) || (p in b.remote && b.remote[p].RFolder?))
    ensures IsDir(s.disk, p) && p in s.remote && s.remote[p].RFolder?
    ensures p in b.remote ==> s.remote[p] == b.remote[p]
    ensures HasRow(s, p) && Timeless(s.db.items[FindPath(s.db, p).value]) ==
      Row(p, Dir, Some(s.remote[p].id), None, None, 0, Synced, None)
  {
    hide UniqueIds, ParentDir, FileName, WellNamed, Tree, ParentsAreFolders;
    assert !IsShortcut(b, p) && DoneAt(b, s, p);
    var i := FindPath(s.db, p).value;
    assert s.db.items[i].path == p;
  }

  // Every native document ends as its pointer, under the extended name, with a skipped row; on Drive
  // it stays as it was, and nothing is put there for the pointer.
  lemma NativesConverge(b: Setting, s: Progress, q: string)
    requires Sane(b) && Finished(b, s) && q in b.remote && b.remote[q].RNative?
    ensures var r := ShortcutPath(q, b.remote[q].ext);
      && r in s.disk && s.disk[r] == FileNode(b.remote[q].pointer) && r !in s.remote
      && q in s.remote && s.remote[q] == b.remote[q]
      && HasRow(s, r) && Timeless(s.db.items[FindPath(s.db, r).value]) ==
           Row(r, File, Some(b.remote[q].id), None, None, 0, Skipped, None)
  {
    hide UniqueIds, ParentDir, FileName, WellNamed, Tree, ParentsAreFolders, ShortcutPath;
    var r := ShortcutPath(q, b.remote[q].ext);
    assert IsShortcutOf(b, q, r);
    assert IsShortcut(b, r) && DoneAt(b, s, r);
    var i := FindPath(s.db, r).value;
    assert s.db.items[i].path == r;
  }

  // An ignored file is copied in neither direction and gets no row; and what is on neither side, and
  // no document's pointer, does not appear.
  lemma NothingElseAppears(b: Setting, s: Progress, p: string)
    requires Sane(b) && Between(b, s) && !IsShortcut(b, p)
    requires b.ignored(p) || (p !in b.disk && p !in b.remote)
    requires !(p in b.disk && b.disk[p].DirNode?) && !(p in b.remote && b.remote[p].RFolder?)
    ensures (p in s.disk <==> p in b.disk) && (p in s.remote <==> p in b.remote) && !HasRow(s, p)
  {
    hide UniqueIds, ParentDir, FileName, WellNamed, Tree, ParentsAreFolders;
  }

  // Two finished attempts, however they were interrupted, end in the same place.
  lemma EndIsUnique(b: Setting, s: Progress, t: Progress)
    requires Finished(b, s) && Finished(b, t)
    ensures s.disk == t.disk && s.remote == t.remote
    ensures forall i :: i in s.db.items ==>
        exists j :: j in t.db.items && Timeless(t.db.items[j]) == Timeless(s.db.items[i])
  {
    hide DiskGoal, RemoteGoal, RowGoal, Valid;
    forall p ensures (p in s.disk <==> p in t.disk) && (p in s.remote <==> p in t.remote) {
      assert DoneAt(b, s, p) && DoneAt(b, t, p);
    }
    forall i | i in s.db.items
      ensures exists j :: j in t.db.items && Timeless(t.db.items[j]) == Timeless(s.db.items[i])
    {
      var p := s.db.items[i].path;
      assert DoneAt(b, t, p);
      var j := FindPath(t.db, p).value;
      assert t.db.items[j].path == p;
    }
  }
}
