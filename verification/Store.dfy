// The state database as the daemon holds it (src/state/items.rs, ops.rs, conflicts.rs).
module Store {
  import opened Paths
  import opened Like
  import opened Tables
  import opened RenameSubtree
  import opened World

  class StateDb {
    var items: map<nat, Row>
    var ops: map<nat, Pending>
    var conflicts: map<nat, ConflictRecord>
    var nextItem: nat
    var nextOp: nat
    var nextConflict: nat

    ghost function View(): Db
      reads this
    {
      Db(items, ops, conflicts, nextItem, nextOp, nextConflict)
    }

    constructor ()
      ensures View() == Db(map[], map[], map[], 1, 1, 1)
    {
      items, ops, conflicts := map[], map[], map[];
      nextItem, nextOp, nextConflict := 1, 1, 1;
    }

    // `get_by_relative_path`: a scan in rowid order.
    method GetByPath(p: string) returns (r: Option<nat>)
      requires Valid(View())
      ensures r == FindPath(View(), p)
    {
      for i := 0 to nextItem
        invariant forall j :: j in items && j < i ==> items[j].path != p
      {
        if i in items && items[i].path == p {
          return Some(i);
        }
      }
      return None;
    }

    // `get_by_remote_id`
    method GetByRemoteId(rid: string) returns (r: Option<nat>)
      requires Valid(View())
      ensures r == FindRemote(View(), rid)
    {
      for i := 0 to nextItem
        invariant forall j :: j in items && j < i ==> items[j].remoteId != Some(rid)
      {
        if i in items && items[i].remoteId == Some(rid) {
          return Some(i);
        }
      }
      return None;
    }

    // Fails, like the INSERT, when the unique index refuses the path.
    method Insert(row: Row) returns (r: Option<nat>)
      requires Valid(View())
      modifies this
      ensures Valid(View()) && View() == InsertRow(old(View()), row)
      ensures r == if FindPath(old(View()), row.path).Some? then None else Some(old(nextItem))
      ensures r.Some? ==> r.value in items && items[r.value] == row
    {
      var taken := GetByPath(row.path);
      if taken.Some? {
        return None;
      }
      r := Some(nextItem);
      items := items[nextItem := row];
      nextItem := nextItem + 1;
    }

    // Cascades into both dependent tables.
    method Delete(id: nat)
      requires Valid(View())
      modifies this
      ensures Valid(View()) && View() == DropRows(old(View()), {id})
    {
      Drop({id});
    }

    // DELETE with ON DELETE CASCADE into the two dependent tables.
    method Drop(ids: set<nat>)
      requires Valid(View())
      modifies this
      ensures Valid(View()) && View() == DropRows(old(View()), ids)
    {
      items := items - ids;
      ops := map o | o in ops && ops[o].item !in ids :: ops[o];
      conflicts := map c | c in conflicts && conflicts[c].item !in ids :: conflicts[c];
    }

    method SetRemoteId(id: nat, rid: string)
      requires Valid(View())
      modifies this
      ensures Valid(View()) && View() == Tables.SetRemoteId(old(View()), id, rid)
    {
      if id in items { items := items[id := items[id].(remoteId := Some(rid))]; }
    }

    method UpdateFingerprint(id: nat, size: int, md5: Hash, now: int)
      requires Valid(View())
      modifies this
      ensures Valid(View()) && View() == SetFingerprint(old(View()), id, size, md5, now)
    {
      if id in items { items := items[id := items[id].(size := Some(size), md5 := Some(md5), syncedAt := now)]; }
    }

    method SetState(id: nat, state: LifeState)
      requires Valid(View())
      modifies this
      ensures Valid(View()) && View() == Tables.SetState(old(View()), id, state)
    {
      if id in items { items := items[id := items[id].(state := state)]; }
    }

    // `mark_trashed` and `clear_trashed`
    method SetTrashed(id: nat, since: Option<int>)
      requires Valid(View())
      modifies this
      ensures Valid(View()) && View() == Tables.SetTrashed(old(View()), id, since)
    {
      if id in items { items := items[id := items[id].(trashedAt := since)]; }
    }

    method SetRelativePath(id: nat, p: string)
      requires Valid(View())
      modifies this
      ensures Valid(View()) && View() == SetPath(old(View()), id, p)
    {
      if id in items {
        var occupant := set j | j in items && j != id && items[j].path == p;
        Drop(occupant);
        items := items[id := items[id].(path := p)];
      }
    }

    // The transaction: SELECT the subtree, then delete or repath row by row.
    method RenameSubtree(src: string, dst: string)
      requires Valid(View())
      modifies this
      ensures Valid(View()) && View() == RenameRows(old(View()), src, dst)
    {
      var affected := Select(src);
      ghost var before := View();
      for k := 0 to |affected|
        invariant Valid(View())
        invariant RenameLoop(View(), src, dst, affected[k..]) == RenameLoop(before, src, dst, affected)
      {
        RenameOneKeepsValid(View(), src, dst, affected[k]);
        assert affected[k..][1..] == affected[k + 1..];
        RepathOrDrop(src, dst, affected[k]);
      }
    }

    method Select(src: string) returns (affected: seq<nat>)
      requires Valid(View())
      ensures affected == ScanOrder(View(), src, nextItem)
    {
      affected := [];
      var like := EscapeLike(src) + "/%";
      for i := 0 to nextItem
        invariant affected == ScanOrder(View(), src, i)
      {
        if i in items {
          SelectClause(items[i].path, src);
          if items[i].path == src || Matches(like, items[i].path) {
            affected := affected + [i];
          }
        }
        assert ScanOrder(View(), src, i + 1) == ScanOrder(View(), src, i) + if Affected(View(), src, i) then [i]
            else [];
      }
    }

    method RepathOrDrop(src: string, dst: string, id: nat)
      requires Valid(View())
      modifies this
      ensures View() == RenameOne(old(View()), src, dst, id)
    {
      if Affected(Db(items, ops, conflicts, nextItem, nextOp, nextConflict), src, id) {
        var target := Rebase(items[id].path, src, dst);
        if exists j :: j in items && j != id && items[j].path == target {
          Drop({id});
        } else {
          items := items[id := items[id].(path := target)];
        }
      }
    }

    method Enqueue(item: nat, op: Operation, now: int)
      requires Valid(View())
      modifies this
      ensures Valid(View()) && View() == Tables.Enqueue(old(View()), item, op, now)
    {
      if item in items {
        ops := ops[nextOp := Pending(item, op, 0, now, now)];
        nextOp := nextOp + 1;
      }
    }

    method InsertConflict(item: nat, original: string, conflict: string, now: int)
      requires Valid(View())
      modifies this
      ensures Valid(View()) && View() == AddConflict(old(View()), item, original, conflict, now)
    {
      if item in items {
        conflicts := conflicts[nextConflict := ConflictRecord(item, original, conflict, now)];
        nextConflict := nextConflict + 1;
      }
    }

    // `cleanup_on_local_delete`: drop every record one of whose sides is p.
    method CleanupOnLocalDelete(p: string)
      requires Valid(View())
      modifies this
      ensures Valid(View()) && View() == DropConflicts(old(View()), p)
    {
      var todo := conflicts.Keys;
      ghost var before := conflicts;
      while todo != {}
        invariant todo <= before.Keys && conflicts.Keys <= before.Keys
        invariant unchanged(this`items) && unchanged(this`ops)
        invariant unchanged(this`nextItem) && unchanged(this`nextOp) && unchanged(this`nextConflict)
        invariant forall c :: c in before ==>
          (c in conflicts <==> c in todo || (before[c].original != p && before[c].conflict != p))
        invariant forall c :: c in conflicts ==> conflicts[c] == before[c]
      {
        var c :| c in todo;
        if conflicts[c].original == p || conflicts[c].conflict == p {
          conflicts := conflicts - {c};
        }
        todo := todo - {c};
      }
      assert conflicts == DropConflicts(old(View()), p).conflicts;
    }
  }
}
