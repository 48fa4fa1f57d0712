// The shell overlay's listing of one directory (`list_child_states`, src/state/items.rs): LIKE
// narrows to the subtree, the rest is decided by comparing strings.
module ChildStates {
  import opened Paths
  import opened Like
  import opened Tables

  function Prefix(dir: string): string { if dir == "" then "" else dir + "/" }

  // A live row exactly one level below dir.
  ghost predicate IsLiveChild(items: map<nat, Row>, dir: string, name: string, state: LifeState, id: nat) {
    && id in items && items[id].trashedAt.None? && items[id].state == state
    && items[id].path == Join(dir, name) && name != "" && '/' !in name
  }

  // The query selects every path that begins with the prefix, and maybe more.
  lemma PrefixIsSelected(dir: string, p: string)
    requires Prefix(dir) <= p
    ensures Matches(EscapeLike(Prefix(dir)) + "%", p)
  {
    var prefix := Prefix(dir);
    EscapeIsPerCharacter(prefix);
    EscapedPrefix(prefix, "%", p);
    PercentMatchesAll(p[|prefix|..]);
  }

  lemma OneLevel(dir: string, p: string, name: string)
    requires name != "" && '/' !in name
    ensures p == Join(dir, name) <==> Prefix(dir) <= p && p[|Prefix(dir)|..] == name
  {
    if p == Join(dir, name) {
      assert p[|Prefix(dir)|..] == name;
    }
    if Prefix(dir) <= p && p[|Prefix(dir)|..] == name {
      assert p == Prefix(dir) + name;
    }
  }

  ghost predicate Listed(items: map<nat, Row>, dir: string, ids: seq<nat>, out: seq<(string, LifeState)>) {
    && (forall name, state :: (name, state) in out <==>
        exists id :: id in ids && IsLiveChild(items, dir, name, state, id))
    && forall i, j :: 0 <= i < j < |out| ==> out[i].0 != out[j].0
  }

  // Exactly the live children one level down, each once, whatever metacharacters or case variants
  // occur in the names and in whatever order the rows come.
  method ListChildStates(items: map<nat, Row>, dir: string, order: seq<nat>) returns (out: seq<(string, LifeState)>)
    requires UniquePaths(items)
    requires forall id :: id in order <==> id in items
    requires forall i, j :: 0 <= i < j < |order| ==> order[i] != order[j]
    ensures forall name, state :: (name, state) in out <==> exists id :: IsLiveChild(items, dir, name, state, id)
    ensures forall i, j :: 0 <= i < j < |out| ==> out[i].0 != out[j].0
  {
    hide Matches, EscapeLike, Join;
    var prefix := Prefix(dir);
    var like := EscapeLike(prefix) + "%";
    out := [];
    for k := 0 to |order|
      invariant Listed(items, dir, order[..k], out)
    {
      var id := order[k];
      var path := items[id].path;
      ghost var before := out;
      if items[id].trashedAt.None? && Matches(like, path) && prefix <= path {
        var rest := path[|prefix|..];
        if rest != "" && '/' !in rest {
          out := out + [(rest, items[id].state)];
        }
      }
      assert order[..k + 1] == order[..k] + [id];
      RowListed(items, dir, order[..k], id, before, out);
    }
    assert order[..|order|] == order;
  }

  lemma RowListed(items: map<nat, Row>, dir: string, ids: seq<nat>, id: nat, before: seq<(string, LifeState)>,
          out: seq<(string, LifeState)>)
    requires UniquePaths(items) && Listed(items, dir, ids, before) && id in items && id !in ids
    requires forall i :: i in ids ==> i in items
    requires var path, prefix := items[id].path, Prefix(dir);
      out == if items[id].trashedAt.None? && Matches(EscapeLike(prefix) + "%", path) && prefix <= path
                && path[|prefix|..] != "" && '/' !in path[|prefix|..]
             then before + [(path[|prefix|..], items[id].state)] else before
    ensures Listed(items, dir, ids + [id], out)
  {
    hide Matches, EscapeLike, Join, Prefix;
    var path, prefix := items[id].path, Prefix(dir);
    if prefix <= path { PrefixIsSelected(dir, path); }
    forall name, state ensures IsLiveChild(items, dir, name, state, id) <==>
      (items[id].trashedAt.None? && prefix <= path && path[|prefix|..] == name && name != "" && '/' !in name &&
          items[id].state == state)
    {
      if name != "" && '/' !in name { OneLevel(dir, path, name); }
    }
    forall name, state, other | IsLiveChild(items, dir, name, state, other) && other in ids
      ensures items[id].path != Join(dir, name)
    {
    }
    forall name, state
      ensures (name, state) in out <==> exists i :: i in ids + [id] && IsLiveChild(items, dir, name, state, i)
    {
      if i :| i in ids && IsLiveChild(items, dir, name, state, i) { assert i in ids + [id]; }
      if IsLiveChild(items, dir, name, state, id) { assert id in ids + [id]; }
    }
    if |out| > |before| {
      var name := path[|prefix|..];
      OneLevel(dir, path, name);
      forall i | 0 <= i < |before| ensures before[i].0 != name {
        assert (before[i].0, before[i].1) in before;
      }
    }
  }
}
