// One tick of the change poller (src/drive/changes.rs) and one batch of its consumer
// (src/daemon/mod.rs).
module Poller {
  import opened Paths
  import opened Tables
  import opened World
  import opened Daemon
  import opened Continuous
  import opened Redelivery
  import opened RemoteTree

  // One entry of the change feed, and what `changes.list` answers.
  datatype FeedEntry = FeedEntry(fileId: string, removed: bool, file: Option<Snapshot>)
  datatype Reply = Page(changes: seq<FeedEntry>, next: Option<string>, newStart: Option<string>) | Failed
  datatype Delta = Delta(changes: seq<FeedEntry>, token: string)

  predicate HasNext(r: Reply) { r.Page? && r.next.Some? && r.next.value != "" }

  // The pages from a token on, and the token to continue from: the new start token, or the token
  // of the last page when the answer lacks one.
  function Fetched(token: string, replies: seq<Reply>): Option<Delta>
    decreases |replies|
  {
    if replies == [] || replies[0].Failed? then None
    else if HasNext(replies[0]) then
      match Fetched(replies[0].next.value, replies[1..])
      case None => None
      case Some(rest) => Some(Delta(replies[0].changes + rest.changes, rest.token))
    else Some(Delta(replies[0].changes, Default(replies[0].newStart, token)))
  }

  // The n-th reply is the last page, and those before it lead up to it.
  predicate EndsAt(replies: seq<Reply>, n: nat) {
    && n < |replies| && (forall k :: 0 <= k < n ==> HasNext(replies[k])) && replies[n].Page? && !HasNext(replies[n])
  }

  // The tick fails exactly if a request fails before a last page.
  lemma {:induction false} FetchSucceedsIff(token: string, replies: seq<Reply>)
    ensures Fetched(token, replies).Some? <==> exists n: nat :: EndsAt(replies, n)
    decreases |replies|
  {
    if replies != [] && replies[0].Page? {
      if HasNext(replies[0]) {
        FetchSucceedsIff(replies[0].next.value, replies[1..]);
        if n: nat :| EndsAt(replies[1..], n) {
          forall k | 0 <= k <= n ensures HasNext(replies[k]) { if k > 0 { assert replies[1..][k - 1] == replies[k]; } }
          assert replies[1..][n] == replies[n + 1];
          assert EndsAt(replies, n + 1);
        }
        if n: nat :| EndsAt(replies, n) {
          assert EndsAt(replies[1..], n - 1);
        }
      } else {
        assert EndsAt(replies, 0);
      }
    }
  }

  method FetchChangesSince(start: string, replies: seq<Reply>) returns (r: Option<Delta>)
    ensures r == Fetched(start, replies)
  {
    var pageToken, changes := start, [];
    assert replies[0..] == replies && forall rest: seq<FeedEntry> :: [] + rest == rest;
    for k := 0 to |replies|
      invariant Fetched(start, replies) ==
        match Fetched(pageToken, replies[k..])
        case None => None
        case Some(rest) => Some(Delta(changes + rest.changes, rest.token))
    {
      assert replies[k..][0] == replies[k] && replies[k..][1..] == replies[k + 1..];
      match replies[k] {
        case Failed => return None;
        case Page(more, next, newStart) =>
          ghost var before := changes;
          changes := changes + more;
          if next.Some? && next.value != "" {
            pageToken := next.value;
            forall rest: seq<FeedEntry> ensures before + (more + rest) == changes + rest {}
          } else {
            return Some(Delta(changes, Default(newStart, pageToken)));
          }
      }
    }
    return None;
  }

  // The replies list a log: each page is a slice of it, and the last one ends at len.
  ghost predicate Serves(log: seq<FeedEntry>, pos: string -> nat, len: nat, token: string, replies: seq<Reply>)
    decreases |replies|
  {
    replies == [] || replies[0].Failed? || (
      var end := pos(token) + |replies[0].changes|;
      && end <= len <= |log| && replies[0].changes == log[pos(token)..end]
      && if HasNext(replies[0]) then
           pos(replies[0].next.value) == end && Serves(log, pos, len, replies[0].next.value, replies[1..])
         else end == len && (replies[0].newStart.Some? ==> pos(replies[0].newStart.value) == len))
  }

  // The last page carried a new start token, or nothing at all: the fallback repeats no entry.
  predicate Full(replies: seq<Reply>)
    decreases |replies|
  {
    replies != [] && replies[0].Page?
    && if HasNext(replies[0]) then Full(replies[1..]) else replies[0].newStart.Some? || replies[0].changes == []
  }

  // However the delta was split into pages, it is the whole log from the token on; the token to
  // continue from never skips anything, and repeats nothing exactly when the last page was full.
  lemma {:induction false} FetchCoversLog(log: seq<FeedEntry>, pos: string -> nat, len: nat, token: string,
          replies: seq<Reply>)
    requires Serves(log, pos, len, token, replies) && Fetched(token, replies).Some?
    ensures var d := Fetched(token, replies).value;
      && pos(token) <= pos(d.token) <= len <= |log| && d.changes == log[pos(token)..len]
      && (Full(replies) <==> pos(d.token) == len)
    decreases |replies|
  {
    if HasNext(replies[0]) {
      FetchCoversLog(log, pos, len, replies[0].next.value, replies[1..]);
      var end := pos(token) + |replies[0].changes|;
      assert log[pos(token)..end] + log[end..len] == log[pos(token)..len];
    }
  }

  // ---- from feed entries to changes ------------------------------------------------------

  // What the poller forwards of an entry: removals of anything but the mapped folder, and files
  // whose parent chain leads to a cached folder, under the path the walk found.
  ghost function Located(e: FeedEntry, root: string, path: Option<string>): Option<Change> {
    if e.removed then (if e.fileId == root then None else Some(Change(e.fileId, true, e.file, None)))
    else if e.file.None? || path.None? then None
    else Some(Change(e.fileId, false, e.file, path))
  }

  ghost function Forwarded(paths: map<string, string>, e: FeedEntry, drive: Drive, root: string,
          rank: string -> nat): Option<Change>
    requires Acyclic(drive, rank)
  {
    Located(e, root, if e.file.Some? then WalkedFile(paths, drive, rank, e.file.value.parents, e.file.value.name)
        else None)
  }

  // ... and the cache after it: walked folders are entered, and the folder itself, if it is one.
  ghost function CacheStep(paths: map<string, string>, e: FeedEntry, drive: Drive,
          rank: string -> nat): map<string, string>
    requires Acyclic(drive, rank)
  {
    if e.removed || e.file.None? then paths
    else
      var f := e.file.value;
      var path, walked := WalkedFile(paths, drive, rank, f.parents, f.name),
          CacheAfter(paths, drive, rank, f.parents, f.name);
      if path.Some? && f.mime.FolderMime? then walked[f.id := path.value] else walked
  }

  // One tick: every entry is placed with the cache the entries before it left.
  ghost function TickCache(paths: map<string, string>, entries: seq<FeedEntry>, drive: Drive,
          rank: string -> nat): map<string, string>
    requires Acyclic(drive, rank)
    decreases |entries|
  {
    if entries == [] then paths
    else CacheStep(TickCache(paths, entries[..|entries| - 1], drive, rank), entries[|entries| - 1], drive, rank)
  }

  ghost function TickBatch(paths: map<string, string>, entries: seq<FeedEntry>, drive: Drive, root: string,
          rank: string -> nat)
    : seq<Change>
    requires Acyclic(drive, rank)
    decreases |entries|
  {
    if entries == [] then []
    else
      var before := entries[..|entries| - 1];
      var last := Forwarded(TickCache(paths, before, drive, rank), entries[|entries| - 1], drive, root, rank);
      TickBatch(paths, before, drive, root, rank) + if last.Some? then [last.value] else []
  }

  lemma TickStep(paths: map<string, string>, entries: seq<FeedEntry>, k: nat, drive: Drive, root: string,
          rank: string -> nat)
    requires Acyclic(drive, rank) && k < |entries|
    ensures var now := TickCache(paths, entries[..k], drive, rank);
      var last := Forwarded(now, entries[k], drive, root, rank);
      && TickCache(paths, entries[..k + 1], drive, rank) == CacheStep(now, entries[k], drive, rank)
      && TickBatch(paths, entries[..k + 1], drive, root, rank)
        == TickBatch(paths, entries[..k], drive, root, rank) + if last.Some? then [last.value] else []
  {
    hide Forwarded, CacheStep;
    assert entries[..k + 1][..k] == entries[..k];
  }

  // The loop of one tick.
  method BuildBatch(cache: PathCache, entries: seq<FeedEntry>, drive: Drive, root: string, ghost rank: string -> nat)
    returns (batch: seq<Change>, rootRemoved: bool)
    requires Acyclic(drive, rank)
    modifies cache
    ensures batch == TickBatch(old(cache.paths), entries, drive, root, rank)
    ensures cache.paths == TickCache(old(cache.paths), entries, drive, rank)
    ensures rootRemoved <==> exists e :: e in entries && e.removed && e.fileId == root
  {
    batch, rootRemoved := [], false;
    ghost var was := cache.paths;
    assert TickCache(was, entries[..0], drive, rank) == was && TickBatch(was, entries[..0], drive, root, rank) == [];
    hide Forwarded, CacheStep, TickCache, TickBatch, Acyclic;
    for k := 0 to |entries|
      invariant cache.paths == TickCache(was, entries[..k], drive, rank)
      invariant batch == TickBatch(was, entries[..k], drive, root, rank)
      invariant rootRemoved <==> exists e :: e in entries[..k] && e.removed && e.fileId == root
    {
      var e := entries[k];
      TickStep(was, entries, k, drive, root, rank);
      assert entries[..k + 1] == entries[..k] + [e];
      if e.removed && e.fileId == root {
        rootRemoved := true;
      }
      var c := PlaceEntry(cache, e, drive, root, rank);
      if c.Some? { batch := batch + [c.value]; }
    }
    assert entries[..|entries|] == entries;
  }

  // One turn: the entry's path is looked up, and a folder is entered into the cache.
  method PlaceEntry(cache: PathCache, e: FeedEntry, drive: Drive, root: string,
          ghost rank: string -> nat) returns (c: Option<Change>)
    requires Acyclic(drive, rank)
    modifies cache
    ensures c == Forwarded(old(cache.paths), e, drive, root, rank)
    ensures cache.paths == CacheStep(old(cache.paths), e, drive, rank)
  {
    hide CacheAfter, WalkedFile;
    c := None;
    if e.removed {
      if e.fileId != root { c := Some(Change(e.fileId, true, e.file, None)); }
    } else if e.file.Some? {
      var f := e.file.value;
      var rel := cache.DescendantPath(drive, f.parents, f.name, rank);
      if rel.Some? {
        if f.mime.FolderMime? {
          cache.paths := cache.paths[f.id := rel.value];
        }
        c := Some(Change(e.fileId, false, e.file, rel));
      }
    }
  }

  // ---- what is forwarded -----------------------------------------------------------------

  // A permanent removal of anything but the mapped folder.
  predicate Removes(e: FeedEntry, root: string) { e.removed && e.fileId != root }

  // The entry as the tree places it: a removal wherever it was, a file where its parent chain leads to
  // the mapped folder.
  ghost function Scoped(e: FeedEntry, drive: Drive, root: string, rank: string -> nat): Option<Change>
    requires Acyclic(drive, rank)
  {
    if Removes(e, root) then Some(Change(e.fileId, true, e.file, None))
    else if e.removed || e.file.None? then None
    else
      match FilePath(drive, root, rank, e.file.value.parents, e.file.value.name)
      case None => None
      case Some(p) => Some(Change(e.fileId, false, e.file, Some(p)))
  }

  // The ids removed, in feed order: by the entries, and by the changes of a batch.
  function RemovedIds(entries: seq<FeedEntry>, root: string): seq<string>
    decreases |entries|
  {
    if entries == [] then []
    else
      var n := |entries| - 1;
      RemovedIds(entries[..n], root) + if Removes(entries[n], root) then [entries[n].fileId] else []
  }

  function Removals(batch: seq<Change>): seq<string>
    decreases |batch|
  {
    if batch == [] then []
    else
      var n := |batch| - 1;
      Removals(batch[..n]) + if batch[n].removed then [batch[n].fileId] else []
  }

  // Whatever the cache and the tree, the batch reports exactly the removals of the feed, in its order.
  lemma {:induction false} RemovalsAreForwarded(paths: map<string, string>, entries: seq<FeedEntry>, drive: Drive,
          root: string, rank: string -> nat)
    requires Acyclic(drive, rank)
    ensures Removals(TickBatch(paths, entries, drive, root, rank)) == RemovedIds(entries, root)
    decreases |entries|
  {
    hide TickCache, WalkedFile, Acyclic;
    if entries != [] {
      var n := |entries| - 1;
      var before := TickBatch(paths, entries[..n], drive, root, rank);
      var last := Forwarded(TickCache(paths, entries[..n], drive, rank), entries[n], drive, root, rank);
      RemovalsAreForwarded(paths, entries[..n], drive, root, rank);
      if last.Some? {
        assert (before + [last.value])[..|before|] == before;
      } else {
        assert before + [] == before;
      }
    }
  }

  // Nothing in scope is dropped, whatever the cache holds.
  lemma InScopeIsForwarded(paths: map<string, string>, e: FeedEntry, drive: Drive, root: string, rank: string -> nat)
    requires Acyclic(drive, rank) && root in paths && Scoped(e, drive, root, rank).Some?
    ensures Forwarded(paths, e, drive, root, rank).Some?
  {
    hide Extend, IsSafeName;
    if !e.removed {
      var f := e.file.value;
      var p := f.parents[0];
      ExtendIsInjective(PathOf(drive, root, rank, p), None, f.name);
      InScopeIsFound(paths, drive, root, rank, p);
      ExtendIsInjective(Walked(paths, drive, rank, p), None, f.name);
    }
  }

  // It is forwarded as the tree places it exactly when the cached folder the walk ends at is where
  // the cache says.
  lemma ForwardedIsRightIff(paths: map<string, string>, e: FeedEntry, drive: Drive, root: string, rank: string -> nat)
    requires Acyclic(drive, rank) && root in paths
    requires !e.removed && e.file.Some? && e.file.value.parents != [] && IsSafeName(e.file.value.name)
    ensures Forwarded(paths, e, drive, root, rank) == Scoped(e, drive, root, rank)
      <==> AnchorIsCurrent(paths, drive, root, rank, e.file.value.parents[0])
  {
    hide Extend, IsSafeName, AnchorIsCurrent;
    FileIsRightIff(paths, drive, root, rank, e.file.value.parents, e.file.value.name);
  }

  // Folder entries describe the folders as they are.
  ghost predicate Current(entries: seq<FeedEntry>, drive: Drive) {
    forall e :: e in entries && e.file.Some? && e.file.value.mime.FolderMime? ==>
      var f := e.file.value;
      f.id in drive && drive[f.id].parents == f.parents && drive[f.id].name == f.name
  }

  // The mapped folder is not below itself.
  lemma {:induction false} NothingIsAboveRoot(drive: Drive, root: string, rank: string -> nat, id: string)
    requires Acyclic(drive, rank) && rank(id) < rank(root)
    ensures PathOf(drive, root, rank, id) == None
    decreases rank(id)
  {
    if id in drive && drive[id].parents != [] { NothingIsAboveRoot(drive, root, rank, drive[id].parents[0]); }
  }

  lemma CachedFolder(paths: map<string, string>, drive: Drive, root: string, rank: string -> nat, f: Snapshot)
    requires Acyclic(drive, rank) && Coherent(paths, drive, root, rank)
    requires f.id in drive && drive[f.id].parents == f.parents && drive[f.id].name == f.name
    ensures var path := FilePath(drive, root, rank, f.parents, f.name);
      path.Some? ==> Coherent(paths[f.id := path.value], drive, root, rank)
  {
    hide Extend;
    if f.id == root && f.parents != [] {
      NothingIsAboveRoot(drive, root, rank, f.parents[0]);
      ExtendIsInjective(PathOf(drive, root, rank, f.parents[0]), None, f.name);
    }
  }

  ghost function ScopedBatch(entries: seq<FeedEntry>, drive: Drive, root: string, rank: string -> nat): seq<Change>
    requires Acyclic(drive, rank)
    decreases |entries|
  {
    if entries == [] then []
    else
      var last := Scoped(entries[|entries| - 1], drive, root, rank);
      ScopedBatch(entries[..|entries| - 1], drive, root, rank) + if last.Some? then [last.value] else []
  }

  // From a coherent cache exactly the entries in scope are forwarded, each where the tree places it,
  // and the cache stays coherent.
  lemma {:induction false} CoherentTick(paths: map<string, string>, entries: seq<FeedEntry>, drive: Drive, root: string,
          rank: string -> nat)
    requires Acyclic(drive, rank) && Coherent(paths, drive, root, rank) && Current(entries, drive)
    ensures Coherent(TickCache(paths, entries, drive, rank), drive, root, rank)
    ensures TickBatch(paths, entries, drive, root, rank) == ScopedBatch(entries, drive, root, rank)
    decreases |entries|
  {
    hide Coherent, Extend, CacheAfter, WalkedFile, FilePath;
    if entries != [] {
      var n := |entries| - 1;
      var e, now := entries[n], TickCache(paths, entries[..n], drive, rank);
      CoherentTick(paths, entries[..n], drive, root, rank);
      assert e in entries;
      if e.file.Some? {
        var f := e.file.value;
        CoherentStays(now, drive, root, rank, f.parents, f.name);
        if f.mime.FolderMime? { CachedFolder(CacheAfter(now, drive, rank, f.parents, f.name), drive, root, rank, f); }
      }
    }
  }

  // ---- what a stale entry does -----------------------------------------------------------

  // A file entry whose folder is cached.
  ghost predicate InCachedFolder(paths: map<string, string>, e: FeedEntry, b: string) {
    && b in paths && !e.removed && e.file.Some? && e.file.value.parents != [] && e.file.value.parents[0] == b
    && e.file.value.id == e.fileId && IsSafeName(e.file.value.name)
  }

  // The index has the file and its folder where Drive has them, and nothing about the file is new.
  ghost predicate InStep(w: World, e: FeedEntry, b: string, folder: string)
    requires e.file.Some?
  {
    var f := e.file.value;
    && folder != "" && e.fileId !in w.inFlight && f.mime.Opaque? && f.md5.Some? && !f.trashed
    && FindRemote(w.db, e.fileId).Some?
    && (var row := w.db.items[FindRemote(w.db, e.fileId).value];
        row.path == Join(folder, f.name) && row.trashedAt.None? && row.md5 == f.md5 &&
            row.size == Some(Default(f.size, 0)))
    && FindPath(w.db, folder).Some? && w.db.items[FindPath(w.db, folder).value].remoteId == Some(b)
  }

  lemma CachedFolderDecides(paths: map<string, string>, e: FeedEntry, drive: Drive, root: string, rank: string -> nat,
          b: string)
    requires Acyclic(drive, rank) && InCachedFolder(paths, e, b)
    ensures Forwarded(paths, e, drive, root, rank) ==
        Some(Change(e.fileId, false, e.file, Some(Join(paths[b], e.file.value.name))))
    ensures '/' !in e.file.value.name && e.file.value.name != ""
  {
  }

  lemma ReportedIn(w: World, e: FeedEntry, b: string, folder: string, reported: string, now: int)
    requires e.file.Some? && InStep(w, e, b, folder) && !e.removed && e.file.value.id == e.fileId
    requires e.file.value.parents != []
    requires e.file.value.parents[0] == b
    requires var name := e.file.value.name;
      && ParentDir(Join(folder, name)) == folder && ParentDir(Join(reported, name)) == reported
    ensures var c := Change(e.fileId, false, e.file, Some(Join(reported, e.file.value.name)));
      RemoteActs(w, c, now) ==
        Some(if reported == folder then [] else [Queue(FindPath(w.db, folder).value, RenameLocal(reported), now)])
  {
    hide FindPath, FindRemote, EditedFileActs, Join, ParentDir;
    var f, known := e.file.value, FindRemote(w.db, e.fileId);
    var c := Change(e.fileId, false, e.file, Some(Join(reported, f.name)));
    assert RemoteActs(w, c, now) == FileActs(w, c, known, now);
    if reported != folder {
      assert Join(reported, f.name) != Join(folder, f.name);
      assert FileActs(w, c, known, now) == Some(MovedFileActs(w, f, known.value, Join(reported, f.name), now));
    }
  }

  // With the folder's entry current the report is an echo. With a stale one the reconciler takes the
  // old path for a move of the folder, and queues its rename back on disk.
  lemma StaleEntryMovesFolderBack(paths: map<string, string>, e: FeedEntry, drive: Drive, root: string,
                                  rank: string -> nat, b: string, folder: string, w: World, now: int)
    requires Acyclic(drive, rank) && InCachedFolder(paths, e, b) && InStep(w, e, b, folder)
    ensures var c := Forwarded(paths, e, drive, root, rank);
      c.Some? && RemoteActs(w, c.value, now) ==
        Some(if paths[b] == folder then [] else [Queue(FindPath(w.db, folder).value, RenameLocal(paths[b]), now)])
  {
    hide FindPath, RemoteActs, InStep, Forwarded, Join, ParentDir;
    CachedFolderDecides(paths, e, drive, root, rank, b);
    JoinParts(folder, e.file.value.name);
    JoinParts(paths[b], e.file.value.name);
    ReportedIn(w, e, b, folder, paths[b], now);
  }

  // How an entry gets stale: a folder above a cached one is renamed or moved on Drive. The tick that
  // reports the rename re-enters that folder only, so the next report of a file in the lower one
  // carries the old path and is taken for a rename of that folder, back to where it was.
  lemma RenamedParentMovesFolderBack(paths: map<string, string>, drive: Drive, drive': Drive, root: string,
                                     rank: string -> nat, rank': string -> nat, x: FeedEntry, b: string, e: FeedEntry,
                                         folder: string, w: World, now: int)
    requires Acyclic(drive, rank) && Acyclic(drive', rank') && Coherent(paths, drive, root, rank)
    requires !x.removed && x.file.Some? && x.file.value.mime.FolderMime? && x.file.value.id != b
    requires x.file.value.id != root
    requires Current([x], drive') && OnlyMoved(drive, drive', x.file.value.id)
    requires PathOf(drive, root, rank, x.file.value.id).Some? && PathOf(drive', root, rank', x.file.value.id).Some?
    requires PathOf(drive, root, rank, x.file.value.id) != PathOf(drive', root, rank', x.file.value.id)
    requires IsUnder(drive, root, rank, x.file.value.id, b) && InCachedFolder(paths, e, b)
    requires PathOf(drive', root, rank', b) == Some(folder) && InStep(w, e, b, folder)
    ensures var later := TickCache(paths, [x], drive', rank');
      var batch := TickBatch(later, [e], drive', root, rank');
      && |batch| == 1 && paths[b] != folder
      && RemoteActs(w, batch[0], now) == Some([Queue(FindPath(w.db, folder).value, RenameLocal(paths[b]), now)])
  {
    hide PathOf, IsUnder, Extend, RemoteActs, InStep, InCachedFolder, WalkedFile;
    var id := x.file.value.id;
    var later := TickCache(paths, [x], drive', rank');
    assert b in paths by { FolderIsCached(paths, e, b); }
    BelowIsMoved(drive, drive', root, rank, rank', id, b, PathOf(drive, root, rank, id).value,
        PathOf(drive', root, rank', id).value);
    TickKeepsEntry(paths, x, drive', rank', b);
    StillCached(paths, later, e, b);
    StaleEntryMovesFolderBack(later, e, drive', root, rank', b, folder, w, now);
    OneEntryTick(later, e, drive', root, rank');
  }

  lemma FolderIsCached(paths: map<string, string>, e: FeedEntry, b: string)
    requires InCachedFolder(paths, e, b)
    ensures b in paths
  {
  }

  lemma StillCached(paths: map<string, string>, later: map<string, string>, e: FeedEntry, b: string)
    requires InCachedFolder(paths, e, b) && b in later
    ensures InCachedFolder(later, e, b)
  {
  }

  lemma TickKeepsEntry(paths: map<string, string>, x: FeedEntry, drive: Drive, rank: string -> nat, b: string)
    requires Acyclic(drive, rank) && b in paths && x.file.Some? && x.file.value.id != b
    ensures var later := TickCache(paths, [x], drive, rank); b in later && later[b] == paths[b]
  {
    hide Extend, WalkedFile, Lookups;
    assert [x][..0] == [];
    assert TickCache(paths, [x], drive, rank) == CacheStep(paths, x, drive, rank);
  }

  lemma OneEntryTick(paths: map<string, string>, e: FeedEntry, drive: Drive, root: string, rank: string -> nat)
    requires Acyclic(drive, rank)
    ensures TickBatch(paths, [e], drive, root, rank) ==
      if Forwarded(paths, e, drive, root, rank).Some? then [Forwarded(paths, e, drive, root, rank).value] else []
  {
    hide WalkedFile;
    assert [e][..0] == [];
  }

  // ---- the consumer ----------------------------------------------------------------------

  // The singleton row `drive_change_cursor` (src/state/cursor.rs).
  class Cursor {
    var token: Option<string>

    constructor ()
      ensures token == None
    {
      token := None;
    }

    method Set(t: string)
      modifies this
      ensures token == Some(t)
    {
      token := Some(t);
    }
  }

  ghost function Applied(w: World, changes: seq<Change>, times: seq<int>): World
    requires |changes| == |times|
    decreases |changes|
  {
    if changes == [] then w
    else
      var n := |changes| - 1;
      Deliver(Applied(w, changes[..n], times[..n]), changes[n], times[n])
  }

  // Every change of the batch is applied without an error.
  ghost predicate AllApply(w: World, changes: seq<Change>, times: seq<int>)
    requires |changes| == |times|
  {
    forall k :: 0 <= k < |changes| ==> RemoteActs(Applied(w, changes[..k], times[..k]), changes[k], times[k]).Some?
  }

  // A failed change does not stop the ones behind it; only a batch without failure moves the cursor.
  method ConsumeBatch(d: Daemon, cursor: Cursor, changes: seq<Change>, newToken: string,
          times: seq<int>) returns (anyApplied: bool)
    requires Valid(d.db.View()) && |changes| == |times|
    modifies d.db, d.fs, cursor
    ensures Valid(d.db.View()) && d.View() == Applied(old(d.View()), changes, times)
    ensures cursor.token == if AllApply(old(d.View()), changes, times) then Some(newToken) else old(cursor.token)
  {
    hide Valid, RemoteActs, Run, Applied, AllApply;
    ghost var w := d.View();
    NoneApplied(w, changes, times);
    var allApplied := true;
    anyApplied := false;
    for k := 0 to |changes|
      invariant Valid(d.db.View()) && d.View() == Applied(w, changes[..k], times[..k])
      invariant cursor.token == old(cursor.token)
      invariant allApplied <==> AllApply(w, changes[..k], times[..k])
    {
      AppliedStep(w, changes, times, k);
      var ok := ApplyRemote(d, changes[k], times[k]);
      if ok { anyApplied := true; } else { allApplied := false; }
      AllApplyStep(w, changes, times, k);
    }
    assert changes[..|changes|] == changes && times[..|times|] == times;
    if allApplied { cursor.Set(newToken); }
  }

  lemma NoneApplied(w: World, changes: seq<Change>, times: seq<int>)
    requires |changes| == |times|
    ensures Applied(w, changes[..0], times[..0]) == w && AllApply(w, changes[..0], times[..0])
  {
  }

  lemma AppliedStep(w: World, changes: seq<Change>, times: seq<int>, k: nat)
    requires |changes| == |times| && k < |changes|
    ensures Applied(w, changes[..k + 1], times[..k + 1]) ==
        Deliver(Applied(w, changes[..k], times[..k]), changes[k], times[k])
  {
    hide Deliver;
    assert changes[..k + 1][..k] == changes[..k] && times[..k + 1][..k] == times[..k];
  }

  lemma AllApplyStep(w: World, changes: seq<Change>, times: seq<int>, k: nat)
    requires |changes| == |times| && k < |changes|
    ensures AllApply(w, changes[..k + 1], times[..k + 1]) <==>
      AllApply(w, changes[..k], times[..k]) &&
          RemoteActs(Applied(w, changes[..k], times[..k]), changes[k], times[k]).Some?
  {
    hide RemoteActs, Applied;
    var c0, c1, t0, t1 := changes[..k], changes[..k + 1], times[..k], times[..k + 1];
    assert c1[k] == changes[k] && t1[k] == times[k] && c1[..k] == c0 && t1[..k] == t0;
    forall j | 0 <= j < k ensures c1[..j] == c0[..j] && t1[..j] == t0[..j] && c1[j] == c0[j] && t1[j] == t0[j] {}
    if AllApply(w, c1, t1) {
      assert RemoteActs(Applied(w, c1[..k], t1[..k]), c1[k], t1[k]).Some?;
      forall j | 0 <= j < |c0| ensures RemoteActs(Applied(w, c0[..j], t0[..j]), c0[j], t0[j]).Some? {
        assert RemoteActs(Applied(w, c1[..j], t1[..j]), c1[j], t1[j]).Some?;
      }
    }
    if AllApply(w, c0, t0) && RemoteActs(Applied(w, c0, t0), changes[k], times[k]).Some? {
      forall j | 0 <= j < |c1| ensures RemoteActs(Applied(w, c1[..j], t1[..j]), c1[j], t1[j]).Some? {
        if j < k { assert RemoteActs(Applied(w, c0[..j], t0[..j]), c0[j], t0[j]).Some?; }
      }
    }
  }
}
