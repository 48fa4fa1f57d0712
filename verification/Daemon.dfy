// The objects the daemon's tasks hold handles to.
module Daemon {
  import opened World
  import opened Store
  import opened MergeMove

  // Reference-counted registry of the Drive ids an operation is writing (src/daemon/in_flight.rs).
  class InFlightOps {
    var counts: map<string, nat>

    constructor ()
      ensures counts == map[]
    {
      counts := map[];
    }

    method Mark(rid: string)
      modifies this
      ensures counts == Marked(old(counts), rid)
    {
      var n := if rid in counts then counts[rid] else 0;
      counts := counts[rid := n + 1];
    }

    // The guard's drop.
    method Unmark(rid: string)
      modifies this
      ensures counts == Unmarked(old(counts), rid)
    {
      if rid in counts {
        if counts[rid] <= 1 {
          counts := counts - {rid};
        } else {
          counts := counts[rid := counts[rid] - 1];
        }
      }
    }

    method Contains(rid: string) returns (b: bool)
      ensures b == (rid in counts)
    {
      b := rid in counts;
    }
  }

  // Drive behind the sync engine: the effects src/engine/mod.rs documents.
  class Remote {
    var nodes: map<string, DriveNode>

    constructor (n: map<string, DriveNode>)
      ensures nodes == n
    {
      nodes := n;
    }

    method Perform(a: Act)
      modifies this
      ensures nodes == DriveStep(old(nodes), a)
    {
      match a
      case PutContent(rid, bytes) =>
        if rid in nodes { nodes := nodes[rid := nodes[rid].(bytes := bytes)]; }
      case CreateNode(rid, node) => nodes := nodes[rid := node];
      case MoveNode(rid, parent, name) =>
        if rid in nodes { nodes := nodes[rid := nodes[rid].(parents := [parent], name := name)]; }
      case TrashNode(rid) =>
        if rid in nodes { nodes := nodes[rid := nodes[rid].(trashed := true)]; }
      case UnlinkNode(rid) =>
        if rid in nodes { nodes := nodes[rid := nodes[rid].(parents := [])]; }
      case _ =>
    }
  }

  class Daemon {
    const db: StateDb
    const fs: FileSystem
    const remote: Remote
    const inFlight: InFlightOps

    constructor (db: StateDb, fs: FileSystem, remote: Remote, inFlight: InFlightOps)
      ensures this.db == db && this.fs == fs && this.remote == remote && this.inFlight == inFlight
    {
      this.db, this.fs, this.remote, this.inFlight := db, fs, remote, inFlight;
    }

    ghost function View(): World
      reads this, db, fs, remote, inFlight
    {
      World(db.View(), fs.nodes, remote.nodes, inFlight.counts)
    }
  }

  // What other guards do to the registry while this one is held.
  datatype Registration = Taken(rid: string) | Dropped(rid: string)

  function After(counts: map<string, nat>, steps: seq<Registration>): map<string, nat>
    decreases |steps|
  {
    if steps == [] then counts
    else
      var before := After(counts, steps[..|steps| - 1]);
      match steps[|steps| - 1] case Taken(r) => Marked(before, r) case Dropped(r) => Unmarked(before, r)
  }

  // Guards on the id that were taken, less those that were dropped.
  function Net(steps: seq<Registration>, rid: string): int
    decreases |steps|
  {
    if steps == [] then 0
    else
      var before := Net(steps[..|steps| - 1], rid);
      match steps[|steps| - 1]
      case Taken(r) => if r == rid then before + 1 else before
      case Dropped(r) => if r == rid then before - 1 else before
  }

  // Nobody drops a guard that is not held: of the `held` ones and those taken on the way.
  ghost predicate Balanced(steps: seq<Registration>, rid: string, held: nat) {
    forall k :: 0 <= k <= |steps| ==> held + Net(steps[..k], rid) >= 0
  }

  ghost predicate Counting(counts: map<string, nat>) {
    forall r :: r in counts ==> counts[r] >= 1
  }

  lemma {:induction false} CountsAdd(counts: map<string, nat>, steps: seq<Registration>, rid: string, held: nat)
    requires Counting(counts) && Balanced(steps, rid, held) && held <= Marks(counts, rid)
    ensures Counting(After(counts, steps)) && Marks(After(counts, steps), rid) == Marks(counts, rid) + Net(steps, rid)
    decreases |steps|
  {
    assert steps[..|steps|] == steps;
    if steps != [] {
      var n := |steps| - 1;
      forall k | 0 <= k <= n ensures held + Net(steps[..n][..k], rid) >= 0 { assert steps[..n][..k] == steps[..k]; }
      CountsAdd(counts, steps[..n], rid, held);
      assert held + Net(steps, rid) >= 0;
    }
  }

  // A guard keeps its id in the registry however many others come and go, for this id and for others;
  // when it goes, those are left, and the id with the last of them.
  lemma GuardsNest(counts: map<string, nat>, rid: string, steps: seq<Registration>)
    requires Counting(counts) && Balanced(steps, rid, Marks(counts, rid))
    ensures forall k :: 0 <= k <= |steps| ==> rid in After(Marked(counts, rid), steps[..k])
    ensures var last := Unmarked(After(Marked(counts, rid), steps), rid);
      Marks(last, rid) == Marks(counts, rid) + Net(steps, rid) &&
          (rid in last <==> Marks(counts, rid) + Net(steps, rid) > 0)
  {
    var m, held := Marked(counts, rid), Marks(counts, rid);
    forall k | 0 <= k <= |steps| ensures rid in After(m, steps[..k]) {
      forall j | 0 <= j <= k ensures held + Net(steps[..k][..j], rid) >= 0 { assert steps[..k][..j] == steps[..j]; }
      CountsAdd(m, steps[..k], rid, held);
      assert held + Net(steps[..k], rid) >= 0;
    }
    assert steps[..|steps|] == steps;
    CountsAdd(m, steps, rid, held);
  }
}
