// Two ways to find out where a Drive node belongs: the poller walks up from the node through a
// cache of known folders (src/drive/changes.rs), the initial pass walks down from the mapped
// folder (src/reconcile/mod.rs). On a tree they agree.
module RemoteTree {
  import opened Paths
  import opened Tables
  import opened World
  import opened Continuous
  import opened Runtime

  // `is_safe_name`: usable as one component of a local path.
  predicate IsSafeName(name: string) {
    name != "" && name != "." && name != ".." && '/' !in name && '\\' !in name && '\0' !in name
  }

  type Drive = map<string, DriveNode>

  // Following first parents never goes round in a circle.
  ghost predicate Acyclic(drive: Drive, rank: string -> nat) {
    forall id :: id in drive && drive[id].parents != [] ==> rank(drive[id].parents[0]) < rank(id)
  }

  function Extend(prefix: Option<string>, name: string): Option<string> {
    match prefix
    case None => None
    case Some(p) => if IsSafeName(name) then Some(Join(p, name)) else None
  }

  // Where the node belongs below root; None for anything out of scope or under an unsafe name.
  ghost function PathOf(drive: Drive, root: string, rank: string -> nat, id: string): Option<string>
    requires Acyclic(drive, rank)
    decreases rank(id)
  {
    if id == root then Some("")
    else if id !in drive || drive[id].parents == [] then None
    else Extend(PathOf(drive, root, rank, drive[id].parents[0]), drive[id].name)
  }

  // ... and a file as a change reports it.
  ghost function FilePath(drive: Drive, root: string, rank: string -> nat, parents: seq<string>,
          name: string): Option<string>
    requires Acyclic(drive, rank)
  {
    if parents == [] then None else Extend(PathOf(drive, root, rank, parents[0]), name)
  }

  ghost predicate Coherent(paths: map<string, string>, drive: Drive, root: string, rank: string -> nat)
    requires Acyclic(drive, rank)
  {
    root in paths && forall id :: id in paths ==> PathOf(drive, root, rank, id) == Some(paths[id])
  }

  // ---- bottom-up -------------------------------------------------------------------------

  // What the walk up makes of a node: the entry of the nearest cached folder, extended by the names
  // on the way back down. Nothing is asked of the cache; its entries may be out of date.
  ghost function Walked(paths: map<string, string>, drive: Drive, rank: string -> nat, id: string): Option<string>
    requires Acyclic(drive, rank)
    decreases rank(id)
  {
    if id in paths then Some(paths[id])
    else if id !in drive || drive[id].parents == [] then None
    else Extend(Walked(paths, drive, rank, drive[id].parents[0]), drive[id].name)
  }

  ghost function WalkedFile(paths: map<string, string>, drive: Drive, rank: string -> nat, parents: seq<string>,
          name: string)
    : Option<string>
    requires Acyclic(drive, rank)
  {
    if parents == [] then None else Extend(Walked(paths, drive, rank, parents[0]), name)
  }

  // The nearest cached folder ...
  ghost function Anchor(paths: map<string, string>, drive: Drive, rank: string -> nat, id: string): (x: Option<string>)
    requires Acyclic(drive, rank)
    ensures x.Some? ==> x.value in paths
    decreases rank(id)
  {
    if id in paths then Some(id)
    else if id !in drive || drive[id].parents == [] then None
    else Anchor(paths, drive, rank, drive[id].parents[0])
  }

  // ... and the folders that have to be looked up before it is reached.
  ghost function Lookups(paths: map<string, string>, drive: Drive, rank: string -> nat, id: string): set<string>
    requires Acyclic(drive, rank)
    decreases rank(id)
  {
    if id in paths || id !in drive || drive[id].parents == [] then {}
    else {id} + Lookups(paths, drive, rank, drive[id].parents[0])
  }

  // The cache once the walked folders have been entered.
  ghost function Remembered(paths: map<string, string>, drive: Drive, rank: string -> nat,
          ids: set<string>): map<string, string>
    requires Acyclic(drive, rank)
  {
    map id | id in paths.Keys + ids :: Default(Walked(paths, drive, rank, id), "")
  }

  // ... which happens when the walk gets somewhere.
  ghost function CacheAfter(paths: map<string, string>, drive: Drive, rank: string -> nat, parents: seq<string>,
          name: string)
    : map<string, string>
    requires Acyclic(drive, rank)
  {
    if WalkedFile(paths, drive, rank, parents, name).None? then paths
    else Remembered(paths, drive, rank, Lookups(paths, drive, rank, parents[0]))
  }

  // The folders on the way up, nearest first.
  function ExtendAll(prefix: Option<string>, chain: seq<(string, string)>): Option<string>
    decreases |chain|
  {
    if chain == [] then prefix else Extend(ExtendAll(prefix, chain[1..]), chain[0].1)
  }

  lemma {:induction false} ExtendAllTop(prefix: Option<string>, chain: seq<(string, string)>, top: (string, string))
    ensures ExtendAll(prefix, chain + [top]) == ExtendAll(Extend(prefix, top.1), chain)
    decreases |chain|
  {
    if chain == [] {
      assert [top][1..] == [] && chain + [top] == [top];
    } else {
      assert (chain + [top])[1..] == chain[1..] + [top];
      ExtendAllTop(prefix, chain[1..], top);
    }
  }

  // Every walked folder sits on top of the ones walked after it.
  ghost predicate Climbed(paths: map<string, string>, drive: Drive, rank: string -> nat, chain: seq<(string, string)>,
          current: string)
    requires Acyclic(drive, rank)
  {
    forall i :: 0 <= i < |chain| ==>
      Walked(paths, drive, rank, chain[i].0) == ExtendAll(Walked(paths, drive, rank, current), chain[i..])
  }

  function Ids(chain: seq<(string, string)>): set<string> {
    set link | link in chain :: link.0
  }

  lemma ClimbOn(paths: map<string, string>, drive: Drive, rank: string -> nat, chain: seq<(string, string)>,
          current: string)
    requires Acyclic(drive, rank) && Climbed(paths, drive, rank, chain, current)
    requires current !in paths && current in drive && drive[current].parents != []
    ensures var chain' := chain + [(current, drive[current].name)];
      Climbed(paths, drive, rank, chain', drive[current].parents[0]) && Ids(chain') == Ids(chain) + {current}
  {
    hide Extend;
    var top := (current, drive[current].name);
    var up := Walked(paths, drive, rank, drive[current].parents[0]);
    forall i | 0 <= i < |chain + [top]|
      ensures Walked(paths, drive, rank, (chain + [top])[i].0) == ExtendAll(up, (chain + [top])[i..])
    {
      if i < |chain| {
        assert (chain + [top])[i..] == chain[i..] + [top];
        ExtendAllTop(up, chain[i..], top);
      } else {
        assert (chain + [top])[i..] == [top];
        assert [top][1..] == [];
      }
    }
    assert top in chain + [top];
    assert forall link :: link in chain + [top] <==> link in chain || link == top;
  }

  lemma {:induction false} DeadEnd(paths: map<string, string>, drive: Drive, rank: string -> nat,
                                   chain: seq<(string, string)>, current: string, i: nat)
    requires Acyclic(drive, rank) && Climbed(paths, drive, rank, chain, current) && i <= |chain|
    requires Walked(paths, drive, rank, current) == None
    ensures ExtendAll(None, chain[i..]) == None
    decreases |chain| - i
  {
    if i < |chain| {
      assert chain[i..][1..] == chain[i + 1..];
      DeadEnd(paths, drive, rank, chain, current, i + 1);
    }
  }

  // `parts.join("/")`
  function Slashed(parts: seq<string>): string
    decreases |parts|
  {
    if parts == [] then ""
    else if |parts| == 1 then parts[0]
    else Slashed(parts[..|parts| - 1]) + "/" + parts[|parts| - 1]
  }

  lemma SlashedPush(parts: seq<string>, x: string)
    requires forall p :: p in parts ==> p != ""
    ensures Slashed(parts + [x]) == Join(Slashed(parts), x)
    ensures parts != [] ==> Slashed(parts) != ""
  {
    assert (parts + [x])[..|parts|] == parts;
    assert |parts| == 1 ==> parts[0] in parts;
    assert |parts| > 1 ==> |Slashed(parts)| >= 1;
  }

  class PathCache {
    var paths: map<string, string>

    constructor (root: string)
      ensures paths == map[root := ""]
    {
      paths := map[root := ""];
    }

    // `descendant_path`: up to the first cached folder, then back down.
    method DescendantPath(drive: Drive, parents: seq<string>, name: string,
            ghost rank: string -> nat) returns (r: Option<string>)
      requires Acyclic(drive, rank)
      modifies this
      ensures r == WalkedFile(old(paths), drive, rank, parents, name)
      ensures paths == CacheAfter(old(paths), drive, rank, parents, name)
    {
      hide Extend, Climbed, Ids, Remembered;
      if parents == [] { return None; }
      var chain: seq<(string, string)> := [];
      var current := parents[0];
      ghost var was := paths;
      NothingClimbed(was, drive, rank, current);
      while current !in paths
        invariant Climbed(was, drive, rank, chain, current)
        invariant (if chain == [] then current else chain[0].0) == parents[0]
        invariant Lookups(was, drive, rank, parents[0]) == Ids(chain) + Lookups(was, drive, rank, current)
        invariant paths == was
        decreases rank(current)
      {
        if current !in drive {
          LookupFailed(was, drive, rank, chain, current, parents, name);
          return None;
        }
        if drive[current].parents == [] {
          LookupFailed(was, drive, rank, chain, current, parents, name);
          return None;
        }
        ClimbOn(was, drive, rank, chain, current);
        chain := chain + [(current, drive[current].name)];
        current := drive[current].parents[0];
      }
      FirstIsClimbed(was, drive, rank, chain, current);
      r := AssemblePath(paths[current], chain, name, drive, rank, current);
    }

    // `assemble_path`
    method AssemblePath(prefix: string, chain: seq<(string, string)>, name: string,
                        ghost drive: Drive, ghost rank: string -> nat, ghost current: string)
      returns (r: Option<string>)
      requires Acyclic(drive, rank) && Climbed(paths, drive, rank, chain, current)
      requires Walked(paths, drive, rank, current) == Some(prefix)
      modifies this
      ensures r == Extend(ExtendAll(Some(prefix), chain), name)
      ensures paths == if r.None? then old(paths) else Remembered(old(paths), drive, rank, Ids(chain))
    {
      hide IsSafeName, Join, Walked, Remembered, Ids, Slashed, AllNames, Climbed;
      if k :| 0 <= k < |chain| && !IsSafeName(chain[k].1) {
        UnsafeBelow(prefix, chain, k, 0);
        return None;
      }
      if !IsSafeName(name) { return None; }
      hide ExtendAll;
      var parts := if prefix != "" then [prefix] else [];
      var acc := prefix;
      var i := |chain|;
      NothingRemembered(paths, drive, rank);
      FirstPart(prefix);
      assert ExtendAll(Some(prefix), chain[i..]) == Some(acc) by { NothingExtended(Some(prefix)); }
      while i > 0
        invariant 0 <= i <= |chain|
        invariant paths == Remembered(old(paths), drive, rank, Ids(chain[i..]))
        invariant ExtendAll(Some(prefix), chain[i..]) == Some(acc)
        invariant Slashed(parts) == acc && AllNames(parts)
      {
        i := i - 1;
        EnterOne(old(paths), drive, rank, chain, current, i, prefix, acc);
        PushName(parts, chain[i].1);
        parts := parts + [chain[i].1];
        acc := Join(acc, chain[i].1);
        paths := paths[chain[i].0 := acc];
      }
      assert chain[0..] == chain;
      PushName(parts, name);
      r := Some(Slashed(parts + [name]));
    }
  }

  lemma NothingExtended(prefix: Option<string>)
    ensures ExtendAll(prefix, []) == prefix
  {
  }

  // One turn of the way back down.
  lemma EnterOne(paths: map<string, string>, drive: Drive, rank: string -> nat, chain: seq<(string, string)>,
                 current: string, i: nat, prefix: string, acc: string)
    requires Acyclic(drive, rank) && Climbed(paths, drive, rank, chain, current) && i < |chain|
    requires Walked(paths, drive, rank, current) == Some(prefix)
    requires ExtendAll(Some(prefix), chain[i + 1..]) == Some(acc) && IsSafeName(chain[i].1)
    ensures ExtendAll(Some(prefix), chain[i..]) == Some(Join(acc, chain[i].1))
    ensures Remembered(paths, drive, rank, Ids(chain[i..])) ==
        Remembered(paths, drive, rank, Ids(chain[i + 1..]))[chain[i].0 := Join(acc, chain[i].1)]
  {
    hide IsSafeName, Join, Walked, Remembered, Ids;
    assert chain[i..][1..] == chain[i + 1..] && chain[i..] == [chain[i]] + chain[i + 1..];
    RememberedOne(paths, drive, rank, chain[i + 1..], chain[i], Join(acc, chain[i].1));
  }

  lemma NothingClimbed(paths: map<string, string>, drive: Drive, rank: string -> nat, current: string)
    requires Acyclic(drive, rank)
    ensures Climbed(paths, drive, rank, [], current) && Ids([]) == {}
  {
  }

  lemma FirstIsClimbed(paths: map<string, string>, drive: Drive, rank: string -> nat, chain: seq<(string, string)>,
          current: string)
    requires Acyclic(drive, rank) && Climbed(paths, drive, rank, chain, current)
    ensures Walked(paths, drive, rank, if chain == [] then current else chain[0].0)
      == ExtendAll(Walked(paths, drive, rank, current), chain)
  {
    assert chain != [] ==> chain[0..] == chain;
  }

  lemma NothingRemembered(paths: map<string, string>, drive: Drive, rank: string -> nat)
    requires Acyclic(drive, rank)
    ensures Remembered(paths, drive, rank, Ids([])) == paths
  {
  }

  lemma RememberedOne(paths: map<string, string>, drive: Drive, rank: string -> nat, rest: seq<(string, string)>,
                      link: (string, string), path: string)
    requires Acyclic(drive, rank) && Walked(paths, drive, rank, link.0) == Some(path)
    ensures Remembered(paths, drive, rank, Ids([link] + rest)) ==
        Remembered(paths, drive, rank, Ids(rest))[link.0 := path]
  {
    hide Walked;
    assert Ids([link] + rest) == {link.0} + Ids(rest) by {
      assert link in [link] + rest;
      assert forall x :: x in [link] + rest <==> x == link || x in rest;
    }
  }

  predicate AllNames(parts: seq<string>) {
    forall p :: p in parts ==> p != ""
  }

  lemma FirstPart(prefix: string)
    ensures var parts := if prefix != "" then [prefix] else []; Slashed(parts) == prefix && AllNames(parts)
  {
  }

  lemma PushName(parts: seq<string>, x: string)
    requires AllNames(parts) && IsSafeName(x)
    ensures AllNames(parts + [x]) && Slashed(parts + [x]) == Join(Slashed(parts), x)
  {
    hide Slashed, Join;
    SlashedPush(parts, x);
  }

  lemma {:induction false} UnsafeBelow(prefix: string, chain: seq<(string, string)>, bad: nat, i: nat)
    requires i <= bad < |chain| && !IsSafeName(chain[bad].1)
    ensures ExtendAll(Some(prefix), chain[i..]) == None
    ensures ExtendAll(Some(prefix), chain[0..]) == ExtendAll(Some(prefix), chain)
    decreases bad - i
  {
    assert chain[0..] == chain;
    if i < bad {
      assert chain[i..][1..] == chain[i + 1..];
      UnsafeBelow(prefix, chain, bad, i + 1);
    }
  }

  lemma LookupFailed(paths: map<string, string>, drive: Drive, rank: string -> nat, chain: seq<(string, string)>,
                     current: string, parents: seq<string>, name: string)
    requires Acyclic(drive, rank) && Climbed(paths, drive, rank, chain, current) && parents != []
    requires (if chain == [] then current else chain[0].0) == parents[0]
    requires Walked(paths, drive, rank, current) == None
    ensures WalkedFile(paths, drive, rank, parents, name) == None
  {
    DeadEnd(paths, drive, rank, chain, current, 0);
    FirstIsClimbed(paths, drive, rank, chain, current);
    assert chain[0..] == chain;
  }

  // ---- when the path is right ------------------------------------------------------------

  lemma ExtendIsInjective(a: Option<string>, b: Option<string>, name: string)
    ensures Extend(a, name) == Extend(b, name) <==> a == b || !IsSafeName(name)
    ensures Extend(a, name).Some? <==> a.Some? && IsSafeName(name)
  {
    if IsSafeName(name) && a.Some? && b.Some? && a != b { JoinIsInjective(a.value, b.value, name); }
  }

  lemma JoinIsInjective(a: string, b: string, name: string)
    requires a != b && IsSafeName(name)
    ensures Join(a, name) != Join(b, name)
  {
    JoinParts(a, name);
    JoinParts(b, name);
  }

  // Every name from the nearest cached folder down can be used in a path.
  ghost predicate NamesAreSafe(paths: map<string, string>, drive: Drive, rank: string -> nat, id: string)
    requires Acyclic(drive, rank)
  {
    forall f :: f in Lookups(paths, drive, rank, id) && f in drive ==> IsSafeName(drive[f].name)
  }

  // The entry of the nearest cached folder still says where the folder is, unless some name on the way
  // is unsafe, so that the walk gives up anyway.
  ghost predicate AnchorIsCurrent(paths: map<string, string>, drive: Drive, root: string, rank: string -> nat,
          id: string)
    requires Acyclic(drive, rank)
  {
    var x := Anchor(paths, drive, rank, id);
    x.Some? && NamesAreSafe(paths, drive, rank, id) ==> PathOf(drive, root, rank, x.value) == Some(paths[x.value])
  }

  // The walk gets somewhere exactly when it ends at a cached folder by way of safe names.
  lemma {:induction false} WalkedIff(paths: map<string, string>, drive: Drive, rank: string -> nat, id: string)
    requires Acyclic(drive, rank)
    ensures Walked(paths, drive, rank, id).Some? <==>
        Anchor(paths, drive, rank, id).Some? && NamesAreSafe(paths, drive, rank, id)
    decreases rank(id)
  {
    hide IsSafeName;
    if id !in paths && id in drive && drive[id].parents != [] {
      WalkedIff(paths, drive, rank, drive[id].parents[0]);
      ExtendIsInjective(Walked(paths, drive, rank, drive[id].parents[0]), None, drive[id].name);
      assert id in Lookups(paths, drive, rank, id);
    }
  }

  // The walk finds the right path exactly when the one cached entry it ends at is current, however
  // stale the rest of the cache is.
  lemma {:induction false} WalkIsRightIff(paths: map<string, string>, drive: Drive, root: string, rank: string -> nat,
          id: string)
    requires Acyclic(drive, rank) && root in paths
    ensures Walked(paths, drive, rank, id) == PathOf(drive, root, rank, id) <==>
        AnchorIsCurrent(paths, drive, root, rank, id)
    decreases rank(id)
  {
    hide Extend, IsSafeName, NamesAreSafe;
    WalkedIff(paths, drive, rank, id);
    if id !in paths && id in drive && drive[id].parents != [] {
      var up := drive[id].parents[0];
      WalkedIff(paths, drive, rank, up);
      WalkIsRightIff(paths, drive, root, rank, up);
      ExtendIsInjective(Walked(paths, drive, rank, up), PathOf(drive, root, rank, up), drive[id].name);
    }
  }

  lemma FileIsRightIff(paths: map<string, string>, drive: Drive, root: string, rank: string -> nat,
          parents: seq<string>, name: string)
    requires Acyclic(drive, rank) && root in paths && parents != [] && IsSafeName(name)
    ensures WalkedFile(paths, drive, rank, parents, name) == FilePath(drive, root, rank, parents, name)
      <==> AnchorIsCurrent(paths, drive, root, rank, parents[0])
  {
    hide Extend, IsSafeName, AnchorIsCurrent;
    WalkIsRightIff(paths, drive, root, rank, parents[0]);
    ExtendIsInjective(Walked(paths, drive, rank, parents[0]), PathOf(drive, root, rank, parents[0]), name);
  }

  // Nothing in scope is missed, whatever the cache says.
  lemma {:induction false} InScopeIsFound(paths: map<string, string>, drive: Drive, root: string, rank: string -> nat,
          id: string)
    requires Acyclic(drive, rank) && root in paths && PathOf(drive, root, rank, id).Some?
    ensures Walked(paths, drive, rank, id).Some?
    decreases rank(id)
  {
    if id !in paths { InScopeIsFound(paths, drive, root, rank, drive[id].parents[0]); }
  }

  // A coherent cache finds every path, and stays coherent over any history of lookups.
  lemma CoherentFinds(paths: map<string, string>, drive: Drive, root: string, rank: string -> nat, id: string)
    requires Acyclic(drive, rank) && Coherent(paths, drive, root, rank)
    ensures Walked(paths, drive, rank, id) == PathOf(drive, root, rank, id)
  {
    WalkIsRightIff(paths, drive, root, rank, id);
  }

  lemma CoherentStays(paths: map<string, string>, drive: Drive, root: string, rank: string -> nat, parents: seq<string>,
          name: string)
    requires Acyclic(drive, rank) && Coherent(paths, drive, root, rank)
    ensures Coherent(CacheAfter(paths, drive, rank, parents, name), drive, root, rank)
    ensures WalkedFile(paths, drive, rank, parents, name) == FilePath(drive, root, rank, parents, name)
  {
    hide Extend, PathOf, Lookups;
    forall id
      ensures Walked(paths, drive, rank, id) == PathOf(drive, root, rank, id)
    {
      CoherentFinds(paths, drive, root, rank, id);
    }
    if WalkedFile(paths, drive, rank, parents, name).Some? {
      ExtendIsInjective(Walked(paths, drive, rank, parents[0]), None, name);
      forall id | id in Lookups(paths, drive, rank, parents[0]) ensures Walked(paths, drive, rank, id).Some? {
        LookupsAreFound(paths, drive, rank, parents[0], id);
      }
    }
  }

  lemma {:induction false} LookupsAreFound(paths: map<string, string>, drive: Drive, rank: string -> nat, start: string,
          id: string)
    requires Acyclic(drive, rank) && Walked(paths, drive, rank, start).Some? && id in Lookups(paths, drive, rank, start)
    ensures Walked(paths, drive, rank, id).Some?
    decreases rank(start)
  {
    if id != start { LookupsAreFound(paths, drive, rank, drive[start].parents[0], id); }
  }

  // ---- a folder change -------------------------------------------------------------------

  // d hangs somewhere below x.
  ghost predicate IsUnder(drive: Drive, root: string, rank: string -> nat, x: string, d: string)
    requires Acyclic(drive, rank)
    decreases rank(d)
  {
    d != root && d in drive && drive[d].parents != []
    && (drive[d].parents[0] == x || IsUnder(drive, root, rank, x, drive[d].parents[0]))
  }

  // Drive after folder x was renamed or moved.
  ghost predicate OnlyMoved(drive: Drive, drive': Drive, x: string) {
    drive.Keys == drive'.Keys && forall id :: id in drive && id != x ==> drive'[id] == drive[id]
  }

  lemma {:induction false} ElsewhereIsUnmoved(drive: Drive, drive': Drive, root: string, rank: string -> nat,
                                              rank': string -> nat, x: string, d: string)
    requires Acyclic(drive, rank) && Acyclic(drive', rank') && OnlyMoved(drive, drive', x)
    requires d != x && !IsUnder(drive, root, rank, x, d)
    ensures PathOf(drive', root, rank', d) == PathOf(drive, root, rank, d)
    decreases rank(d)
  {
    hide Extend;
    if d != root && d in drive && drive[d].parents != [] {
      ElsewhereIsUnmoved(drive, drive', root, rank, rank', x, drive[d].parents[0]);
    }
  }

  lemma {:induction false} BelowIsMoved(drive: Drive, drive': Drive, root: string, rank: string -> nat,
                                        rank': string -> nat, x: string, d: string, p: string, p': string)
    requires Acyclic(drive, rank) && Acyclic(drive', rank') && OnlyMoved(drive, drive', x)
    requires IsUnder(drive, root, rank, x, d) && d != x
    requires PathOf(drive, root, rank, x) == Some(p) && PathOf(drive', root, rank', x) == Some(p') && p != p'
    requires PathOf(drive, root, rank, d).Some?
    ensures PathOf(drive', root, rank', d).Some? && PathOf(drive', root, rank', d) != PathOf(drive, root, rank, d)
    decreases rank(d)
  {
    hide Join, IsSafeName;
    var up := drive[d].parents[0];
    if up != x {
      BelowIsMoved(drive, drive', root, rank, rank', x, up, p, p');
    }
    JoinIsInjective(PathOf(drive, root, rank, up).value, PathOf(drive', root, rank', up).value, drive[d].name);
  }

  // A cached folder moves: entering its new path leaves the cache coherent exactly when nothing
  // below the folder is cached.
  lemma FolderChangeKeepsCacheIff(paths: map<string, string>, drive: Drive, drive': Drive, root: string,
                                  rank: string -> nat, rank': string -> nat, x: string, p': string)
    requires Acyclic(drive, rank) && Acyclic(drive', rank') && OnlyMoved(drive, drive', x) && x != root
    requires Coherent(paths, drive, root, rank)
    requires PathOf(drive, root, rank, x).Some? && PathOf(drive', root, rank', x) == Some(p')
    requires PathOf(drive, root, rank, x) != Some(p')
    ensures Coherent(paths[x := p'], drive', root, rank') <==> forall d :: d in paths && d != x ==>
        !IsUnder(drive, root, rank, x, d)
  {
    hide PathOf, IsUnder;
    var p := PathOf(drive, root, rank, x).value;
    forall d | d in paths && d != x
      ensures PathOf(drive', root, rank', d) == Some(paths[d]) <==> !IsUnder(drive, root, rank, x, d)
    {
      if IsUnder(drive, root, rank, x, d) {
        BelowIsMoved(drive, drive', root, rank, rank', x, d, p, p');
      } else {
        ElsewhereIsUnmoved(drive, drive', root, rank, rank', x, d);
      }
    }
    if Coherent(paths[x := p'], drive', root, rank') {
      forall d | d in paths && d != x ensures !IsUnder(drive, root, rank, x, d) {
        assert paths[x := p'][d] == paths[d];
      }
    }
  }

  // ---- names and paths -------------------------------------------------------------------

  ghost function NamesOf(drive: Drive, root: string, rank: string -> nat, id: string): seq<string>
    requires Acyclic(drive, rank)
    decreases rank(id)
  {
    if id == root || id !in drive || drive[id].parents == [] then []
    else NamesOf(drive, root, rank, drive[id].parents[0]) + [drive[id].name]
  }

  // A path is a join of safe names and splits back into exactly those.
  lemma {:induction false} PathsSplitUniquely(drive: Drive, root: string, rank: string -> nat, id: string)
    requires Acyclic(drive, rank) && PathOf(drive, root, rank, id).Some?
    ensures Segments(PathOf(drive, root, rank, id).value) == NamesOf(drive, root, rank, id)
    ensures forall n :: n in NamesOf(drive, root, rank, id) ==> IsSafeName(n)
    decreases rank(id)
  {
    hide Join, IsSafeName, ParentDir, FileName;
    if id != root {
      var up, name := drive[id].parents[0], drive[id].name;
      PathsSplitUniquely(drive, root, rank, up);
      SegmentsOfJoin(PathOf(drive, root, rank, up).value, name);
    }
  }

  lemma SegmentsOfJoin(dir: string, name: string)
    requires IsSafeName(name)
    ensures Segments(Join(dir, name)) == Segments(dir) + [name]
  {
    JoinParts(dir, name);
  }
}
