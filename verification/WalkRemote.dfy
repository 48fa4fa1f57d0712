// The initial pass lists the mapped Drive folder level by level (`walk_remote`,
// src/reconcile/mod.rs). It finds exactly the nodes the poller would place, at the same paths.
module WalkRemote {
  import opened Paths
  import opened Tables
  import opened RemoteTree

  datatype Found = Found(path: string, id: string)

  // What `list_children` answers: the children that are not in the trash, in some order.
  ghost predicate Lists(drive: Drive, list: string -> seq<string>) {
    && (forall pid, id :: id in list(pid) <==> IsChild(drive, pid, id))
    && (forall pid, i, j :: 0 <= i < j < |list(pid)| ==> list(pid)[i] != list(pid)[j])
  }

  predicate IsChild(drive: Drive, pid: string, id: string) {
    id in drive && drive[id].parents != [] && drive[id].parents[0] == pid && !drive[id].trashed
  }

  // Trash is inherited, and only folders have children.
  ghost predicate Sane(drive: Drive, root: string) {
    forall id :: id in drive && drive[id].parents != [] && !drive[id].trashed ==>
      var up := drive[id].parents[0];
      up in drive && up != root ==> !drive[up].trashed && drive[up].folder
  }

  // A live node and the path the poller would give it.
  ghost predicate Placed(drive: Drive, root: string, rank: string -> nat, e: Found)
    requires Acyclic(drive, rank)
  {
    e.id in drive && e.id != root && !drive[e.id].trashed && PathOf(drive, root, rank, e.id) == Some(e.path)
  }

  ghost predicate DistinctIds(s: seq<Found>) {
    forall i, j :: 0 <= i < j < |s| ==> s[i].id != s[j].id
  }

  // One folder's turn: an entry for every child with a safe name, and the folders among them.
  method Expand(drive: Drive, path: string, children: seq<string>) returns (entries: seq<Found>, folders: seq<Found>)
    requires forall c :: c in children ==> c in drive
    requires forall i, j :: 0 <= i < j < |children| ==> children[i] != children[j]
    ensures forall e :: e in entries <==>
        e.id in children && IsSafeName(drive[e.id].name) && e.path == Join(path, drive[e.id].name)
    ensures forall e :: e in folders <==> e in entries && drive[e.id].folder
    ensures DistinctIds(entries) && DistinctIds(folders)
  {
    hide IsSafeName, Join;
    entries, folders := [], [];
    for k := 0 to |children|
      invariant forall e :: e in entries <==>
        e.id in children[..k] && IsSafeName(drive[e.id].name) && e.path == Join(path, drive[e.id].name)
      invariant forall e :: e in folders <==> e in entries && drive[e.id].folder
      invariant DistinctIds(entries) && DistinctIds(folders)
    {
      var c := children[k];
      assert children[..k + 1] == children[..k] + [c];
      assert c !in children[..k];
      if IsSafeName(drive[c].name) {
        var e := Found(Join(path, drive[c].name), c);
        entries := entries + [e];
        if drive[c].folder { folders := folders + [e]; }
      }
    }
  }

  // The state of the walk: the folders already listed, those waiting, and what was found.
  ghost predicate Walking(drive: Drive, root: string, rank: string -> nat, done: set<string>, queue: seq<Found>,
          out: seq<Found>)
    requires Acyclic(drive, rank)
  {
    && done <= drive.Keys + {root} && DistinctIds(queue) && DistinctIds(out)
    && (forall d :: d in done && d != root ==> exists e :: e in out && e.id == d)
    && (forall q :: q in queue ==> q.id !in done && (q == Found("", root) || q in out))
    && (root in done || Found("", root) in queue)
    && (forall e :: e in out ==>
        Placed(drive, root, rank, e) && drive[e.id].parents != [] && drive[e.id].parents[0] in done)
    && (forall e :: e in out && drive[e.id].folder ==> e.id in done || e in queue)
    && (forall e :: Placed(drive, root, rank, e) && drive[e.id].parents != [] && drive[e.id].parents[0] in done ==>
        e in out)
  }

  lemma {:induction false} RootIsLowest(drive: Drive, root: string, rank: string -> nat, id: string)
    requires Acyclic(drive, rank) && PathOf(drive, root, rank, id).Some?
    ensures rank(root) <= rank(id) && (id != root ==> rank(root) < rank(id))
    decreases rank(id)
  {
    if id != root { RootIsLowest(drive, root, rank, drive[id].parents[0]); }
  }

  lemma ChildIsPlaced(drive: Drive, root: string, rank: string -> nat, q: Found, id: string)
    requires Acyclic(drive, rank) && IsChild(drive, q.id, id) && PathOf(drive, root, rank, q.id) == Some(q.path)
    ensures id != root
    ensures PathOf(drive, root, rank, id) ==
      if IsSafeName(drive[id].name) then Some(Join(q.path, drive[id].name)) else None
  {
    hide IsSafeName, Join;
    RootIsLowest(drive, root, rank, q.id);
    assert PathOf(drive, root, rank, id) == if id == root then Some("") else Extend(Some(q.path), drive[id].name);
  }

  // The entries of one folder are the placed nodes directly below it.
  lemma EntriesArePlaced(drive: Drive, root: string, rank: string -> nat, list: string -> seq<string>, q: Found,
          entries: seq<Found>)
    requires Acyclic(drive, rank) && Lists(drive, list) && PathOf(drive, root, rank, q.id) == Some(q.path)
    requires forall e :: e in entries <==>
      e.id in list(q.id) && IsSafeName(drive[e.id].name) && e.path == Join(q.path, drive[e.id].name)
    ensures forall e :: e in entries <==>
      Placed(drive, root, rank, e) && drive[e.id].parents != [] && drive[e.id].parents[0] == q.id
  {
    hide IsSafeName, Join, PathOf, Acyclic;
    forall e
      ensures e in entries <==>
        Placed(drive, root, rank, e) && drive[e.id].parents != [] && drive[e.id].parents[0] == q.id
    {
      if IsChild(drive, q.id, e.id) { ChildIsPlaced(drive, root, rank, q, e.id); }
    }
  }

  // Listing one more folder keeps the walk going.
  lemma WalkStep(drive: Drive, root: string, rank: string -> nat, done: set<string>, queue: seq<Found>, out: seq<Found>,
                 entries: seq<Found>, folders: seq<Found>)
    requires Acyclic(drive, rank) && Walking(drive, root, rank, done, queue, out) && queue != []
    requires DistinctIds(entries) && DistinctIds(folders)
    requires forall e :: e in entries <==>
      Placed(drive, root, rank, e) && drive[e.id].parents != [] && drive[e.id].parents[0] == queue[0].id
    requires forall e :: e in folders <==> e in entries && drive[e.id].folder
    ensures Walking(drive, root, rank, done + {queue[0].id}, queue[1..] + folders, out + entries)
  {
    hide Placed, Acyclic;
    var q, done' := queue[0], done + {queue[0].id};
    var queue', out' := queue[1..] + folders, out + entries;
    assert q in queue;
    assert queue == [q] + queue[1..];
    assert q.id in drive.Keys + {root} by { QueuedIsKnown(drive, root, rank, done, queue, out); }
    PlacedIsNotRoot(drive, root, rank, entries, q.id);
    DistinctConcat(out, entries);
    forall f, g | f in queue[1..] && g in folders ensures f.id != g.id {
      QueueIsApart(drive, root, rank, done, queue, out, f, g);
    }
    DistinctConcat(queue[1..], folders);
    forall f | f in queue' ensures f.id !in done' && (f == Found("", root) || f in out') {
      if f in folders { FreshFolder(drive, root, rank, done, queue, out, f); } else { OthersWait(queue, f); }
    }
  }

  lemma QueuedIsKnown(drive: Drive, root: string, rank: string -> nat, done: set<string>, queue: seq<Found>,
          out: seq<Found>)
    requires Acyclic(drive, rank) && Walking(drive, root, rank, done, queue, out) && queue != []
    ensures queue[0].id in drive.Keys + {root}
  {
    assert queue[0] in queue;
  }

  lemma PlacedIsNotRoot(drive: Drive, root: string, rank: string -> nat, entries: seq<Found>, pid: string)
    requires Acyclic(drive, rank)
    requires forall e :: e in entries ==>
        Placed(drive, root, rank, e) && drive[e.id].parents != [] && drive[e.id].parents[0] == pid
    ensures forall e :: e in entries ==> e.id != root && e.id != pid && e.id in drive
  {
  }

  lemma DistinctConcat(a: seq<Found>, b: seq<Found>)
    requires DistinctIds(a) && DistinctIds(b) && forall x, y :: x in a && y in b ==> x.id != y.id
    ensures DistinctIds(a + b)
  {
  }

  lemma OthersWait(queue: seq<Found>, f: Found)
    requires DistinctIds(queue) && queue != [] && f in queue[1..]
    ensures f in queue && f.id != queue[0].id
  {
  }

  // A folder found below queue[0] was neither listed nor waiting.
  lemma FreshFolder(drive: Drive, root: string, rank: string -> nat, done: set<string>, queue: seq<Found>,
          out: seq<Found>, f: Found)
    requires Acyclic(drive, rank) && Walking(drive, root, rank, done, queue, out) && queue != []
    requires Placed(drive, root, rank, f) && drive[f.id].parents != [] && drive[f.id].parents[0] == queue[0].id
    ensures f.id !in done && f.id != queue[0].id && forall g :: g in queue ==> g.id != f.id
  {
  }

  lemma QueueIsApart(drive: Drive, root: string, rank: string -> nat, done: set<string>, queue: seq<Found>,
          out: seq<Found>, f: Found, g: Found)
    requires Acyclic(drive, rank) && Walking(drive, root, rank, done, queue, out) && queue != []
    requires Placed(drive, root, rank, g) && drive[g.id].parents != [] && drive[g.id].parents[0] == queue[0].id
    requires f in queue[1..]
    ensures f.id != g.id
  {
    hide Walking, Placed;
    FreshFolder(drive, root, rank, done, queue, out, g);
    assert f in queue;
  }

  lemma {:induction false} NothingMissed(drive: Drive, root: string, rank: string -> nat, done: set<string>,
          out: seq<Found>, e: Found)
    requires Acyclic(drive, rank) && Sane(drive, root) && Walking(drive, root, rank, done, [], out)
    requires Placed(drive, root, rank, e)
    ensures e in out
    decreases rank(e.id)
  {
    hide IsSafeName, Join;
    var up := drive[e.id].parents[0];
    if up != root {
      NothingMissed(drive, root, rank, done, out, Found(PathOf(drive, root, rank, up).value, up));
    }
  }

  method WalkRemote(drive: Drive, root: string, list: string -> seq<string>,
          ghost rank: string -> nat) returns (out: seq<Found>)
    requires Acyclic(drive, rank) && Lists(drive, list) && Sane(drive, root)
    ensures DistinctIds(out)
    ensures forall e :: e in out <==> Placed(drive, root, rank, e)
  {
    hide Placed, IsSafeName, Join, Sane;
    out := [];
    var queue := [Found("", root)];
    ghost var done: set<string> := {};
    while queue != []
      invariant Walking(drive, root, rank, done, queue, out)
      decreases drive.Keys + {root} - done
    {
      var q := queue[0];
      assert q in queue;
      QueuedIsPlaced(drive, root, rank, done, queue, out);
      QueuedIsKnown(drive, root, rank, done, queue, out);
      var entries, folders := Expand(drive, q.path, list(q.id));
      EntriesArePlaced(drive, root, rank, list, q, entries);
      WalkStep(drive, root, rank, done, queue, out, entries, folders);
      queue, out := queue[1..] + folders, out + entries;
      done := done + {q.id};
    }
    forall e | Placed(drive, root, rank, e) ensures e in out {
      NothingMissed(drive, root, rank, done, out, e);
    }
  }

  lemma QueuedIsPlaced(drive: Drive, root: string, rank: string -> nat, done: set<string>, queue: seq<Found>,
          out: seq<Found>)
    requires Acyclic(drive, rank) && Walking(drive, root, rank, done, queue, out) && queue != []
    ensures PathOf(drive, root, rank, queue[0].id) == Some(queue[0].path)
  {
    assert queue[0] in queue;
  }

  lemma ListedIffInTree(drive: Drive, root: string, rank: string -> nat, out: seq<Found>, id: string)
    requires Acyclic(drive, rank) && id in drive && id != root && !drive[id].trashed
    requires forall e :: e in out <==> Placed(drive, root, rank, e)
    ensures var place := FilePath(drive, root, rank, drive[id].parents, drive[id].name);
      forall p :: Found(p, id) in out <==> place == Some(p)
  {
    hide Extend;
    forall p ensures Found(p, id) in out <==> Placed(drive, root, rank, Found(p, id)) {}
  }

  // Bottom-up and top-down agree: the poller's walk through its cache places a live node exactly
  // where the initial walk found it, and nowhere if that did not find it, precisely when the cached
  // folder it ends at is current. With a coherent cache it always does.
  lemma BothWaysAgree(paths: map<string, string>, drive: Drive, root: string, rank: string -> nat, out: seq<Found>,
          id: string)
    requires Acyclic(drive, rank) && id in drive && id != root && !drive[id].trashed && root in paths
    requires forall e :: e in out <==> Placed(drive, root, rank, e)
    ensures var up := WalkedFile(paths, drive, rank, drive[id].parents, drive[id].name);
      && ((forall p :: Found(p, id) in out <==> up == Some(p)) <==>
            (drive[id].parents == [] || !IsSafeName(drive[id].name)
             || AnchorIsCurrent(paths, drive, root, rank, drive[id].parents[0])))
      && (Coherent(paths, drive, root, rank) ==> forall p :: Found(p, id) in out <==> up == Some(p))
  {
    hide Walked, PathOf, Placed, IsSafeName, AnchorIsCurrent, Coherent;
    var parents, name := drive[id].parents, drive[id].name;
    var up, place := WalkedFile(paths, drive, rank, parents, name), FilePath(drive, root, rank, parents, name);
    ListedIffInTree(drive, root, rank, out, id);
    assert (forall p :: Found(p, id) in out <==> up == Some(p)) <==> up == place by {
      if up.Some? && up != place { assert Found(up.value, id) !in out; }
      if place.Some? && up != place { assert Found(place.value, id) in out; }
    }
    if parents != [] && IsSafeName(name) { FileIsRightIff(paths, drive, root, rank, parents, name); }
    if Coherent(paths, drive, root, rank) { CoherentStays(paths, drive, root, rank, parents, name); }
  }
}
