// `rename_subtree` (src/state/items.rs): the loop that rewrites the path index of a directory in
// place, and the one-shot table it amounts to.
module RenameSubtree {
  import opened Paths
  import opened Like
  import opened Tables

  // The rows the SELECT returns: LIKE folds ASCII case, `=` does not.
  predicate Selected(p: string, src: string) {
    p == src || FoldBelow(p, src)
  }

  // The WHERE clause as it is written.
  lemma SelectClause(p: string, src: string)
    ensures (p == src || Matches(EscapeLike(src) + "/%", p)) <==> Selected(p, src)
    ensures Within(p, src) ==> Selected(p, src)
  {
    SubtreePattern(src, p);
  }

  predicate Affected(db: Db, src: string, id: nat) {
    id in db.items && Selected(db.items[id].path, src)
  }

  function Target(db: Db, src: string, dst: string, id: nat): string
    requires Affected(db, src, id)
  {
    Rebase(db.items[id].path, src, dst)
  }

  // The collision query: another row already lives at the destination.
  predicate Taken(db: Db, p: string, id: nat) {
    exists j :: j in db.items && j != id && db.items[j].path == p
  }

  // One turn of the loop.
  function RenameOne(db: Db, src: string, dst: string, id: nat): Db {
    if !Affected(db, src, id) then db
    else
      var target := Target(db, src, dst, id);
      if Taken(db, target, id) then DropRows(db, {id})
      else PutRow(db, id, db.items[id].(path := target))
  }

  function RenameLoop(db: Db, src: string, dst: string, order: seq<nat>): Db
    decreases |order|
  {
    if order == [] then db
    else RenameLoop(RenameOne(db, src, dst, order[0]), src, dst, order[1..])
  }

  // The SELECT has no ORDER BY, so any enumeration of the selected rows is a possible run.
  ghost predicate Enumerates(db: Db, src: string, order: seq<nat>) {
    && (forall i, j :: 0 <= i < j < |order| ==> order[i] != order[j])
    && (forall id :: id in order <==> Affected(db, src, id))
  }

  // The table after the rename, read off the table before it.
  ghost function RenamedTable(db: Db, src: string, dst: string): Db {
    Partial(db, src, dst, set id | id in db.items && Affected(db, src, id))
  }

  // ... after only the rows in `done` were processed.
  ghost function Partial(db: Db, src: string, dst: string, done: set<nat>): Db
    requires forall id :: id in done ==> Affected(db, src, id)
  {
    var lost := Lost(db, src, dst, done);
    DropRows(db, lost).(items := map id | id in db.items && id !in lost ::
      if id in done then db.items[id].(path := Target(db, src, dst, id)) else db.items[id])
  }

  ghost function Lost(db: Db, src: string, dst: string, done: set<nat>): set<nat>
    requires forall id :: id in done ==> Affected(db, src, id)
  {
    set id | id in done && Taken(db, Target(db, src, dst, id), id)
  }

  // Row i is sent to the place of another selected row j, which leaves it.
  ghost predicate Follows(db: Db, src: string, dst: string, i: nat, j: nat) {
    && Affected(db, src, i) && Affected(db, src, j) && i != j
    && Target(db, src, dst, i) == db.items[j].path
    && Target(db, src, dst, j) != db.items[j].path
  }

  ghost predicate Outward(db: Db, src: string, dst: string) {
    forall i, j :: !Follows(db, src, dst, i, j)
  }

  // Two selected rows compete for one free destination.
  ghost predicate Contested(db: Db, src: string, dst: string, i: nat, j: nat) {
    && Affected(db, src, i) && Affected(db, src, j) && i != j
    && Target(db, src, dst, i) == Target(db, src, dst, j)
    && !Taken(db, Target(db, src, dst, i), i)
    && !Taken(db, Target(db, src, dst, j), j)
  }

  ghost predicate Uncontested(db: Db, src: string, dst: string) {
    forall i, j :: !Contested(db, src, dst, i, j)
  }

  lemma TakenInPartial(db: Db, src: string, dst: string, done: set<nat>, id: nat)
    requires Valid(db) && Outward(db, src, dst) && Uncontested(db, src, dst)
    requires forall d :: d in done ==> Affected(db, src, d)
    requires Affected(db, src, id) && id !in done
    ensures var target := Target(db, src, dst, id);
      Taken(Partial(db, src, dst, done), target, id) <==> Taken(db, target, id)
  {
    var now, target := Partial(db, src, dst, done), Target(db, src, dst, id);
    if Taken(db, target, id) {
      var j :| j in db.items && j != id && db.items[j].path == target;
      assert !Follows(db, src, dst, id, j);
      assert j in now.items && now.items[j].path == db.items[j].path;
    }
    if Taken(now, target, id) {
      var j :| j in now.items && j != id && now.items[j].path == target;
      assert !Contested(db, src, dst, id, j);
      assert j !in done ==> db.items[j].path == target;
    }
  }

  lemma LostGrows(db: Db, src: string, dst: string, done: set<nat>, id: nat)
    requires forall d :: d in done ==> Affected(db, src, d)
    requires Affected(db, src, id) && id !in done
    ensures Lost(db, src, dst, done + {id})
         == Lost(db, src, dst, done) + if Taken(db, Target(db, src, dst, id), id) then {id} else {}
  {
  }

  lemma InLostIff(db: Db, src: string, dst: string, done: set<nat>, id: nat)
    requires forall d :: d in done ==> Affected(db, src, d)
    requires Affected(db, src, id) && id !in done
    ensures id !in Lost(db, src, dst, done)
  {
  }

  lemma StepItems(db: Db, src: string, dst: string, done: set<nat>, id: nat)
    requires Valid(db) && Outward(db, src, dst) && Uncontested(db, src, dst)
    requires forall d :: d in done ==> Affected(db, src, d)
    requires Affected(db, src, id) && id !in done
    ensures RenameOne(Partial(db, src, dst, done), src, dst, id).items == Partial(db, src, dst, done + {id}).items
  {
    hide Selected, FoldBelow, Rebase, Taken, Lost, Valid, Outward, Uncontested;
    var now := Partial(db, src, dst, done);
    InLostIff(db, src, dst, done, id);
    assert now.items[id] == db.items[id];
    TakenInPartial(db, src, dst, done, id);
    LostGrows(db, src, dst, done, id);
    assert RenameOne(now, src, dst, id).items.Keys == Partial(db, src, dst, done + {id}).items.Keys;
  }

  lemma StepDependents(db: Db, src: string, dst: string, done: set<nat>, id: nat)
    requires Valid(db) && Outward(db, src, dst) && Uncontested(db, src, dst)
    requires forall d :: d in done ==> Affected(db, src, d)
    requires Affected(db, src, id) && id !in done
    ensures RenameOne(Partial(db, src, dst, done), src, dst, id).ops == Partial(db, src, dst, done + {id}).ops
    ensures RenameOne(Partial(db, src, dst, done), src, dst, id).conflicts ==
        Partial(db, src, dst, done + {id}).conflicts
  {
    hide Selected, FoldBelow, Rebase, Taken, Lost, Valid, Outward, Uncontested;
    var now := Partial(db, src, dst, done);
    InLostIff(db, src, dst, done, id);
    assert now.items[id] == db.items[id];
    TakenInPartial(db, src, dst, done, id);
    LostGrows(db, src, dst, done, id);
  }

  lemma StepOfPartial(db: Db, src: string, dst: string, done: set<nat>, id: nat)
    requires Valid(db) && Outward(db, src, dst) && Uncontested(db, src, dst)
    requires forall d :: d in done ==> Affected(db, src, d)
    requires Affected(db, src, id) && id !in done
    ensures RenameOne(Partial(db, src, dst, done), src, dst, id) == Partial(db, src, dst, done + {id})
  {
    hide Selected, FoldBelow, Rebase, Taken, Lost, Valid, Outward, Uncontested;
    StepItems(db, src, dst, done, id);
    StepDependents(db, src, dst, done, id);
  }

  lemma {:induction false} LoopFromPartial(db: Db, src: string, dst: string, done: set<nat>, order: seq<nat>)
    requires Valid(db) && Outward(db, src, dst) && Uncontested(db, src, dst)
    requires forall d :: d in done ==> Affected(db, src, d)
    requires forall i, j :: 0 <= i < j < |order| ==> order[i] != order[j]
    requires forall id :: Affected(db, src, id) <==> id in done || id in order
    requires forall id :: id in order ==> id !in done
    ensures RenameLoop(Partial(db, src, dst, done), src, dst, order) == RenamedTable(db, src, dst)
    decreases |order|
  {
    hide Selected, FoldBelow, Rebase, RenameOne, Partial;
    if order == [] {
      assert done == set id | id in db.items && Affected(db, src, id);
    } else {
      StepOfPartial(db, src, dst, done, order[0]);
      assert order == [order[0]] + order[1..];
      LoopFromPartial(db, src, dst, done + {order[0]}, order[1..]);
    }
  }

  // Whatever order SQLite returns the rows in, the loop computes the one-shot table.
  lemma LoopIsOneShot(db: Db, src: string, dst: string, order: seq<nat>)
    requires Valid(db) && Outward(db, src, dst) && Uncontested(db, src, dst)
    requires Enumerates(db, src, order)
    ensures RenameLoop(db, src, dst, order) == RenamedTable(db, src, dst)
  {
    var start := Partial(db, src, dst, {});
    assert Lost(db, src, dst, {}) == {};
    assert start.items == db.items && start.ops == db.ops && start.conflicts == db.conflicts;
    LoopFromPartial(db, src, dst, {}, order);
  }

  // Every selected row really lies under src: no sibling differs from it in ASCII case only.
  ghost predicate LiteralOnly(db: Db, src: string) {
    forall id :: Affected(db, src, id) ==> Within(db.items[id].path, src)
  }

  lemma LiteralRenameIsRegular(db: Db, src: string, dst: string)
    requires Valid(db) && LiteralOnly(db, src)
    requires Incomparable(src, dst) || src == dst
    ensures Outward(db, src, dst) && Uncontested(db, src, dst)
  {
    forall i, j | Affected(db, src, i) && Affected(db, src, j) && i != j
      ensures Target(db, src, dst, i) != db.items[j].path && Target(db, src, dst, i) != Target(db, src, dst, j)
    {
      var p, q := db.items[i].path, db.items[j].path;
      RebaseWithin(p, src, dst);
      RebaseWithin(q, src, dst);
      if Target(db, src, dst, i) == q && src != dst {
        CommonDescendant(q, src, dst);
      }
    }
  }

  // What the rename leaves behind, for every order of the loop.
  lemma RenameMeaning(db: Db, src: string, dst: string, order: seq<nat>)
    requires Valid(db) && LiteralOnly(db, src) && Incomparable(src, dst)
    requires Enumerates(db, src, order)
    ensures var after := RenameLoop(db, src, dst, order);
      && (forall id :: id in after.items ==> id in db.items)
      && (forall id :: id in db.items && !Within(db.items[id].path, src) ==>
            id in after.items && after.items[id] == db.items[id])
      && (forall id :: id in db.items && Within(db.items[id].path, src) ==>
            var target := Rebase(db.items[id].path, src, dst);
            && (id in after.items <==> FindPath(db, target).None?)
            && (id in after.items ==> after.items[id] == db.items[id].(path := target)))
      && (forall id :: id in after.items ==> !Within(after.items[id].path, src))
  {
    LiteralRenameIsRegular(db, src, dst);
    LoopIsOneShot(db, src, dst, order);
    var after := RenameLoop(db, src, dst, order);
    forall id | id in db.items && Within(db.items[id].path, src)
      ensures var target := Rebase(db.items[id].path, src, dst);
        && !Within(target, src)
        && (id in after.items <==> FindPath(db, target).None?)
        && (id in after.items ==> after.items[id] == db.items[id].(path := target))
    {
      SelectClause(db.items[id].path, src);
      MoveMeaning(db, src, dst, id);
    }
    forall id | id in db.items && !Within(db.items[id].path, src)
      ensures !Affected(db, src, id) {}
  }

  lemma MoveMeaning(db: Db, src: string, dst: string, id: nat)
    requires Incomparable(src, dst) && id in db.items && Within(db.items[id].path, src)
    ensures var target := Rebase(db.items[id].path, src, dst);
      !Within(target, src) && (Taken(db, target, id) <==> FindPath(db, target).Some?)
  {
    var target := Rebase(db.items[id].path, src, dst);
    RebaseWithin(db.items[id].path, src, dst);
    if Within(target, src) { CommonDescendant(target, src, dst); }
  }

  // Each turn of the loop keeps the unique index and the foreign keys intact, with no premise on
  // the names: no UPDATE inside the transaction can trip the index.
  lemma RenameOneKeepsValid(db: Db, src: string, dst: string, id: nat)
    requires Valid(db)
    ensures Valid(RenameOne(db, src, dst, id))
  {
  }

  lemma {:induction false} RenameLoopKeepsValid(db: Db, src: string, dst: string, order: seq<nat>)
    requires Valid(db)
    ensures Valid(RenameLoop(db, src, dst, order))
    decreases |order|
  {
    if order != [] {
      RenameOneKeepsValid(db, src, dst, order[0]);
      RenameLoopKeepsValid(RenameOne(db, src, dst, order[0]), src, dst, order[1..]);
    }
  }

  ghost predicate OrderIndependent(db: Db, src: string, dst: string) {
    forall o1, o2 :: Enumerates(db, src, o1) && Enumerates(db, src, o2) ==>
      RenameLoop(db, src, dst, o1) == RenameLoop(db, src, dst, o2)
  }

  lemma {:induction false} LoopSparesOthers(db: Db, src: string, dst: string, order: seq<nat>, id: nat)
    requires id !in order
    ensures id in RenameLoop(db, src, dst, order).items <==> id in db.items
    decreases |order|
  {
    if order != [] {
      LoopSparesOthers(RenameOne(db, src, dst, order[0]), src, dst, order[1..], id);
    }
  }

  // The first of two competitors wins the free destination and the second is deleted.
  lemma FirstComerWins(db: Db, src: string, dst: string, i: nat, j: nat, rest: seq<nat>)
    requires Contested(db, src, dst, i, j)
    requires i !in rest && j !in rest
    ensures i in RenameLoop(db, src, dst, [i, j] + rest).items
    ensures j !in RenameLoop(db, src, dst, [i, j] + rest).items
  {
    var order := [i, j] + rest;
    var one := RenameOne(db, src, dst, i);
    assert one.items[j] == db.items[j];
    assert one.items[i].path == Target(db, src, dst, j) && Affected(one, src, j);
    assert Taken(one, Target(one, src, dst, j), j);
    var two := RenameOne(one, src, dst, j);
    assert order[1..] == [j] + rest;
    assert order[1..][1..] == rest;
    LoopSparesOthers(two, src, dst, rest, i);
    LoopSparesOthers(two, src, dst, rest, j);
  }

  lemma SequenceOf(s: set<nat>) returns (order: seq<nat>)
    ensures forall i, j :: 0 <= i < j < |order| ==> order[i] != order[j]
    ensures forall id :: id in order <==> id in s
  {
    order := [];
    var todo := s;
    while todo != {}
      invariant todo <= s
      invariant forall i, j :: 0 <= i < j < |order| ==> order[i] != order[j]
      invariant forall id :: id in order <==> id in s && id !in todo
    {
      var x :| x in todo;
      order, todo := order + [x], todo - {x};
    }
  }

  // Once j is gone from its place, nothing is left there.
  lemma PlaceIsLeft(db: Db, src: string, dst: string, i: nat, j: nat)
    requires UniquePaths(db.items) && Follows(db, src, dst, i, j)
    ensures var second := RenameOne(db, src, dst, j);
      i in second.items && second.items[i] == db.items[i] && !Taken(second, db.items[j].path, i)
  {
    hide Selected, Rebase;
  }

  // A row sent to the place of one that leaves it is deleted if it comes first and survives if it
  // comes second.
  lemma FollowerNeedsRoom(db: Db, src: string, dst: string, i: nat, j: nat, rest: seq<nat>)
    requires Valid(db) && Follows(db, src, dst, i, j)
    requires i !in rest && j !in rest
    ensures i !in RenameLoop(db, src, dst, [i, j] + rest).items
    ensures i in RenameLoop(db, src, dst, [j, i] + rest).items
  {
    PlaceIsLeft(db, src, dst, i, j);
    hide Valid, Selected, Rebase;
    var first, second := RenameOne(db, src, dst, i), RenameOne(db, src, dst, j);
    assert Taken(db, Target(db, src, dst, i), i);
    assert ([i, j] + rest)[1..] == [j] + rest && ([j, i] + rest)[1..] == [i] + rest;
    assert ([j] + rest)[1..] == rest && ([i] + rest)[1..] == rest;
    LoopSparesOthers(RenameOne(first, src, dst, j), src, dst, rest, i);
    LoopSparesOthers(RenameOne(second, src, dst, i), src, dst, rest, i);
  }

  lemma PairBreaksOrder(db: Db, src: string, dst: string, i: nat, j: nat)
    requires Valid(db) && (Contested(db, src, dst, i, j) || Follows(db, src, dst, i, j))
    ensures !OrderIndependent(db, src, dst)
  {
    hide RenameLoop, Selected, Rebase;
    var rest := SequenceOf(set id | id in db.items && Affected(db, src, id) && id != i && id != j);
    EnumeratesWith(db, src, i, j, rest);
    EnumeratesWith(db, src, j, i, rest);
    if Follows(db, src, dst, i, j) {
      FollowerNeedsRoom(db, src, dst, i, j, rest);
    } else {
      FirstComerWins(db, src, dst, i, j, rest);
      FirstComerWins(db, src, dst, j, i, rest);
    }
  }

  lemma EnumeratesWith(db: Db, src: string, i: nat, j: nat, rest: seq<nat>)
    requires Affected(db, src, i) && Affected(db, src, j) && i != j
    requires forall a, b :: 0 <= a < b < |rest| ==> rest[a] != rest[b]
    requires forall id :: id in rest <==> Affected(db, src, id) && id != i && id != j
    ensures Enumerates(db, src, [i, j] + rest)
  {
    var order := [i, j] + rest;
    forall a, b | 0 <= a < b < |order| ensures order[a] != order[b] {
      if a >= 2 { assert order[a] == rest[a - 2] && order[b] == rest[b - 2]; }
      else if b >= 2 { assert order[b] == rest[b - 2]; }
    }
    forall id ensures id in order <==> Affected(db, src, id) {
      assert id in order <==> id == i || id == j || id in rest;
    }
  }

  // SQLite may return the rows in any order; the outcome is the same for all of them exactly when
  // no two selected rows compete for one free destination and none is sent to a place another leaves.
  lemma OrderIndependentIff(db: Db, src: string, dst: string)
    requires Valid(db)
    ensures OrderIndependent(db, src, dst) <==> Outward(db, src, dst) && Uncontested(db, src, dst)
  {
    hide Valid, Contested, Follows, RenameLoop;
    if i, j :| Contested(db, src, dst, i, j) {
      PairBreaksOrder(db, src, dst, i, j);
    } else if i, j :| Follows(db, src, dst, i, j) {
      PairBreaksOrder(db, src, dst, i, j);
    } else {
      forall o1, o2 | Enumerates(db, src, o1) && Enumerates(db, src, o2)
        ensures RenameLoop(db, src, dst, o1) == RenameLoop(db, src, dst, o2)
      {
        LoopIsOneShot(db, src, dst, o1);
        LoopIsOneShot(db, src, dst, o2);
      }
    }
  }

  // A concrete table on which the order decides which row survives: `docs/a` and `Docs/a`.
  lemma CaseVariantsCompete(db: Db, i: nat, j: nat)
    requires Valid(db) && db.items.Keys == {i, j}
    requires db.items[i].path == "docs/a" && db.items[j].path == "Docs/a"
    ensures !OrderIndependent(db, "docs", "papers")
  {
    assert i != j;
    assert FoldBelow("Docs/a", "docs") by {
      assert "Docs/a"[..4] == "Docs";
    }
    assert FoldBelow("docs/a", "docs") by {
      assert "docs/a"[..4] == "docs";
    }
    assert "docs/a"[4..] == "/a" == "Docs/a"[4..];
    assert Contested(db, "docs", "papers", i, j);
    OrderIndependentIff(db, "docs", "papers");
  }

  // `set_relative_path` decides a collision the other way round: the moved row takes the place, its
  // former occupant goes with everything that refers to it, and no other row is touched.
  lemma MovedRowWins(db: Db, id: nat, p: string)
    requires Valid(db) && id in db.items
    ensures var after := SetPath(db, id, p);
      && Valid(after) && FindPath(after, p) == Some(id) && after.items[id] == db.items[id].(path := p)
      && (forall j :: j in after.items <==> j in db.items && (j == id || db.items[j].path != p))
      && (forall j :: j in after.items && j != id ==> after.items[j] == db.items[j])
      && (forall o :: o in after.ops <==> o in db.ops && db.ops[o].item in after.items)
  {
    var after := SetPath(db, id, p);
    assert after.items[id].path == p;
  }
}
