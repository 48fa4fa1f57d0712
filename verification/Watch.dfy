// Rename correlation in the file system watcher (src/watch/mod.rs): the kernel reports a rename as
// two halves that share a tracker, and a half that stays alone was a move out of the tree.
module Watch {
  import opened Tables
  import opened Continuous

  // RENAME_CORRELATION_TTL, in milliseconds.
  const TTL := 1000

  // A buffered source half.
  datatype Half = Half(path: string, seen: int)
  type Pending = map<nat, Half>

  datatype Raw =
    | CreateEvent(paths: seq<string>)
    | RenameFrom(paths: seq<string>, tracker: Option<nat>)
    | RenameTo(paths: seq<string>, tracker: Option<nat>)
    | RenameBoth(paths: seq<string>, tracker: Option<nat>)
    | ModifyEvent(paths: seq<string>)
    | RemoveEvent(paths: seq<string>)
    | OtherEvent

  // A kernel event with the clock readings taken while it is converted, or a turn of the reaper.
  // `order` is the order in which the hash map yields its stale entries; `keep` is the filter on paths.
  datatype Input =
    | Event(raw: Raw, keep: string -> bool, now: int, later: int, order: seq<nat>)
    | Tick(now: int, order: seq<nat>)

  predicate Stale(h: Half, now: int) { now - h.seen >= TTL }

  ghost predicate StaleOrder(pending: Pending, now: int, order: seq<nat>) {
    && (forall t :: t in order <==> t in pending && Stale(pending[t], now))
    && (forall i, j :: 0 <= i < j < |order| ==> order[i] != order[j])
  }

  function Kept(paths: seq<string>, keep: string -> bool): (r: seq<string>)
    ensures forall p :: p in r <==> p in paths && keep(p)
  {
    if paths == [] then [] else (if keep(paths[0]) then [paths[0]] else []) + Kept(paths[1..], keep)
  }

  // `drain_stale_renames`
  function Swept(pending: Pending, order: seq<nat>): seq<WatchEvent>
    requires forall t :: t in order ==> t in pending
  {
    seq(|order|, i requires 0 <= i < |order| => Deleted(pending[order[i]].path))
  }

  function Without(pending: Pending, order: seq<nat>): Pending {
    map t | t in pending && t !in order :: pending[t]
  }

  function Each(paths: seq<string>, f: string -> WatchEvent): seq<WatchEvent> {
    seq(|paths|, i requires 0 <= i < |paths| => f(paths[i]))
  }

  // Which inputs sweep first.
  predicate Sweeps(x: Input) { x.Tick? || x.raw.RenameFrom? || x.raw.RenameTo? }

  ghost predicate Legal(pending: Pending, x: Input) {
    Sweeps(x) ==> StaleOrder(pending, x.now, x.order)
  }

  // The buffer after one input ...
  ghost function After(pending: Pending, x: Input): Pending
    requires Legal(pending, x)
  {
    var left := if Sweeps(x) then Without(pending, x.order) else pending;
    if x.Tick? then left
    else
      match x.raw
      case RenameFrom(paths, Some(t)) =>
        if Kept(paths, x.keep) != [] then left[t := Half(Kept(paths, x.keep)[0], x.later)] else left
      case RenameTo(_, Some(t)) => left - {t}
      case RenameBoth(paths, Some(t)) => if |paths| == 2 then left - {t} else left
      case _ => left
  }

  // ... and the events it gives rise to.
  ghost function Emitted(pending: Pending, x: Input): seq<WatchEvent>
    requires Legal(pending, x)
  {
    if x.Tick? then Swept(pending, x.order)
    else
      match x.raw
      case CreateEvent(paths) => Each(Kept(paths, x.keep), p => Created(p))
      case RenameFrom(_, _) => Swept(pending, x.order)
      case RenameTo(paths, tracker) => Swept(pending, x.order) +
          Arrival(Without(pending, x.order), Kept(paths, x.keep), tracker)
      case RenameBoth(paths, tracker) =>
        if |paths| == 2 then
          (if tracker.Some? && tracker.value in pending then [Renamed(paths[0], paths[1])] else [])
        else Each(Kept(paths, x.keep), p => Modified(p))
      case ModifyEvent(paths) => Each(Kept(paths, x.keep), p => Modified(p))
      case RemoveEvent(paths) => Each(Kept(paths, x.keep), p => Deleted(p))
      case OtherEvent => []
  }

  function Arrival(left: Pending, kept: seq<string>, tracker: Option<nat>): seq<WatchEvent> {
    if kept == [] then []
    else if tracker.Some? && tracker.value in left then [Renamed(left[tracker.value].path, kept[0])]
    else [Created(kept[0])]
  }

  // ---- the methods -----------------------------------------------------------------------

  class RenameBuffer {
    var pending: Pending

    constructor ()
      ensures pending == map[]
    {
      pending := map[];
    }

    method DrainStale(now: int, order: seq<nat>) returns (out: seq<WatchEvent>)
      requires StaleOrder(pending, now, order)
      modifies this
      ensures out == Swept(old(pending), order) && pending == Without(old(pending), order)
      ensures forall t :: t in pending ==> now - pending[t].seen < TTL
    {
      out := [];
      for k := 0 to |order|
        invariant pending == Without(old(pending), order[..k])
        invariant out == Swept(old(pending), order[..k])
      {
        var t := order[k];
        assert order[..k + 1] == order[..k] + [t];
        assert t !in order[..k] && t in pending;
        out := out + [Deleted(pending[t].path)];
        pending := pending - {t};
      }
      assert order[..|order|] == order;
    }

    // `convert_event`
    method ConvertEvent(raw: Raw, keep: string -> bool, now: int, later: int,
            order: seq<nat>) returns (out: seq<WatchEvent>)
      requires Legal(pending, Event(raw, keep, now, later, order))
      modifies this
      ensures pending == After(old(pending), Event(raw, keep, now, later, order))
      ensures out == Emitted(old(pending), Event(raw, keep, now, later, order))
    {
      out := [];
      match raw {
        case CreateEvent(paths) => out := Each(Kept(paths, keep), p => Created(p));
        case RenameFrom(paths, tracker) =>
          out := DrainStale(now, order);
          var kept := Kept(paths, keep);
          if tracker.Some? && kept != [] {
            pending := pending[tracker.value := Half(kept[0], later)];
          }
        case RenameTo(paths, tracker) =>
          out := DrainStale(now, order);
          var source: Option<Half> := None;
          if tracker.Some? && tracker.value in pending {
            source := Some(pending[tracker.value]);
            pending := pending - {tracker.value};
          }
          var kept := Kept(paths, keep);
          if kept != [] {
            match source {
              case Some(h) => out := out + [Renamed(h.path, kept[0])];
              case None => out := out + [Created(kept[0])];
            }
          }
        case RenameBoth(paths, tracker) =>
          if |paths| == 2 {
            if tracker.Some? && tracker.value in pending {
              pending := pending - {tracker.value};
              out := [Renamed(paths[0], paths[1])];
            }
          } else {
            out := Each(Kept(paths, keep), p => Modified(p));
          }
        case ModifyEvent(paths) => out := Each(Kept(paths, keep), p => Modified(p));
        case RemoveEvent(paths) => out := Each(Kept(paths, keep), p => Deleted(p));
        case OtherEvent =>
      }
    }

    // One turn of `reap_renames`.
    method Reap(now: int, order: seq<nat>) returns (out: seq<WatchEvent>)
      requires StaleOrder(pending, now, order)
      modifies this
      ensures pending == After(old(pending), Tick(now, order)) && out == Emitted(old(pending), Tick(now, order))
      ensures forall t :: t in pending ==> now - pending[t].seen < TTL
    {
      out := DrainStale(now, order);
    }
  }

  // ---- what becomes of the halves --------------------------------------------------------

  // Which halves are counted: those of one path, or all of them.
  predicate Counts(path: string, which: Option<string>) { which.None? || which.value == path }

  ghost function Holders(pending: Pending, which: Option<string>): set<nat> {
    set t | t in pending && Counts(pending[t].path, which)
  }

  ghost function Waiting(pending: Pending, which: Option<string>): nat {
    |Holders(pending, which)|
  }

  function One(path: string, which: Option<string>): nat { if Counts(path, which) then 1 else 0 }

  function At(pending: Pending, t: nat, which: Option<string>): nat {
    if t in pending then One(pending[t].path, which) else 0
  }

  lemma WaitingWithout(pending: Pending, t: nat, which: Option<string>)
    ensures Waiting(pending, which) == At(pending, t, which) + Waiting(pending - {t}, which)
  {
    hide Counts;
    assert Holders(pending - {t}, which) == Holders(pending, which) - {t};
  }

  lemma WaitingWith(pending: Pending, t: nat, h: Half, which: Option<string>)
    ensures Waiting(pending[t := h], which) + At(pending, t, which) == Waiting(pending, which) + One(h.path, which)
  {
    hide Counts, Waiting;
    WaitingWithout(pending[t := h], t, which);
    WaitingWithout(pending, t, which);
    assert pending[t := h] - {t} == pending - {t};
  }

  // How many halves inputs buffer, pair up, sweep, swallow (the destination is filtered out) and
  // overwrite (the tracker is still in use).
  datatype Tally = Tally(buffered: nat, renamed: nat, swept: nat, swallowed: nat, overwritten: nat)

  function Add(a: Tally, b: Tally): Tally {
    Tally(a.buffered + b.buffered, a.renamed + b.renamed, a.swept + b.swept, a.swallowed + b.swallowed,
          a.overwritten + b.overwritten)
  }

  ghost function SweptCount(pending: Pending, order: seq<nat>, which: Option<string>): nat
    decreases |order|
  {
    if order == [] then 0
    else SweptCount(pending, order[..|order| - 1], which) + At(pending, order[|order| - 1], which)
  }

  ghost function TallyOf(pending: Pending, x: Input, which: Option<string>): Tally
    requires Legal(pending, x)
  {
    var left := if Sweeps(x) then Without(pending, x.order) else pending;
    var start := Tally(0, 0, if Sweeps(x) then SweptCount(pending, x.order, which) else 0, 0, 0);
    if x.Tick? then start
    else
      match x.raw
      case RenameFrom(paths, Some(t)) =>
        if Kept(paths, x.keep) == [] then start
        else start.(buffered := One(Kept(paths, x.keep)[0], which), overwritten := At(left, t, which))
      case RenameTo(paths, Some(t)) =>
        if Kept(paths, x.keep) == [] then start.(swallowed := At(left, t, which))
            else start.(renamed := At(left, t, which))
      case RenameBoth(paths, Some(t)) => if |paths| == 2 then start.(renamed := At(left, t, which)) else start
      case _ => start
  }

  function Renames(out: seq<WatchEvent>): nat
    decreases |out|
  {
    if out == [] then 0 else Renames(out[..|out| - 1]) + if out[|out| - 1].Renamed? then 1 else 0
  }

  // A whole run: the buffer at the end, everything emitted, and the sum of the tallies.
  ghost predicate LegalRun(pending: Pending, xs: seq<Input>)
    decreases |xs|
  {
    xs == [] || (Legal(pending, xs[0]) && LegalRun(After(pending, xs[0]), xs[1..]))
  }

  ghost function RunBuffer(pending: Pending, xs: seq<Input>): Pending
    requires LegalRun(pending, xs)
    decreases |xs|
  {
    if xs == [] then pending else RunBuffer(After(pending, xs[0]), xs[1..])
  }

  ghost function RunOut(pending: Pending, xs: seq<Input>): seq<WatchEvent>
    requires LegalRun(pending, xs)
    decreases |xs|
  {
    if xs == [] then [] else Emitted(pending, xs[0]) + RunOut(After(pending, xs[0]), xs[1..])
  }

  ghost function RunTally(pending: Pending, xs: seq<Input>, which: Option<string>): Tally
    requires LegalRun(pending, xs)
    decreases |xs|
  {
    if xs == [] then Tally(0, 0, 0, 0, 0)
    else Add(TallyOf(pending, xs[0], which), RunTally(After(pending, xs[0]), xs[1..], which))
  }

  lemma {:induction false} SweepConserves(pending: Pending, order: seq<nat>, which: Option<string>)
    requires forall i, j :: 0 <= i < j < |order| ==> order[i] != order[j]
    ensures Waiting(pending, which) == SweptCount(pending, order, which) + Waiting(Without(pending, order), which)
    decreases |order|
  {
    hide Waiting, Counts;
    if order == [] {
      assert Without(pending, order) == pending;
    } else {
      var n := |order| - 1;
      var t := order[n];
      assert order == order[..n] + [t];
      SweepConserves(pending, order[..n], which);
      var before := Without(pending, order[..n]);
      WaitingWithout(before, t, which);
      assert before - {t} == Without(pending, order);
    }
  }

  lemma InputConserves(pending: Pending, x: Input, which: Option<string>)
    requires Legal(pending, x)
    ensures var t := TallyOf(pending, x, which);
      Waiting(pending, which) + t.buffered
        == Waiting(After(pending, x), which) + t.renamed + t.swept + t.swallowed + t.overwritten
  {
    hide Waiting, Kept, SweptCount, Without, Stale, Counts;
    var left := if Sweeps(x) then Without(pending, x.order) else pending;
    if Sweeps(x) { SweepConserves(pending, x.order, which); }
    if x.Event? {
      match x.raw {
        case RenameFrom(paths, Some(t)) =>
          if Kept(paths, x.keep) != [] { WaitingWith(left, t, Half(Kept(paths, x.keep)[0], x.later), which); }
        case RenameTo(_, Some(t)) => WaitingWithout(left, t, which);
        case RenameBoth(_, Some(t)) => WaitingWithout(left, t, which);
        case _ =>
      }
    }
  }

  // Conservation over every sequence of events and reaper turns, for each path and in total: what
  // was buffered was paired up, swept, swallowed, overwritten, or is still there; nothing twice.
  lemma {:induction false} HalvesAreConserved(pending: Pending, xs: seq<Input>, which: Option<string>)
    requires LegalRun(pending, xs)
    ensures var t := RunTally(pending, xs, which);
      Waiting(pending, which) + t.buffered
        == Waiting(RunBuffer(pending, xs), which) + t.renamed + t.swept + t.swallowed + t.overwritten
    decreases |xs|
  {
    hide Waiting, After, TallyOf, Legal;
    if xs != [] {
      InputConserves(pending, xs[0], which);
      HalvesAreConserved(After(pending, xs[0]), xs[1..], which);
    }
  }

  // No From arrives on a tracker that is still buffered.
  ghost predicate FreshTrackers(pending: Pending, xs: seq<Input>)
    requires LegalRun(pending, xs)
    decreases |xs|
  {
    xs == [] || (FreshTracker(pending, xs[0]) && FreshTrackers(After(pending, xs[0]), xs[1..]))
  }

  ghost predicate FreshTracker(pending: Pending, x: Input)
    requires Legal(pending, x)
  {
    x.Event? && x.raw.RenameFrom? && x.raw.tracker.Some? && Kept(x.raw.paths, x.keep) != [] ==>
      x.raw.tracker.value !in Without(pending, x.order)
  }

  lemma {:induction false} OverwrittenNoneIff(pending: Pending, xs: seq<Input>)
    requires LegalRun(pending, xs)
    ensures RunTally(pending, xs, None).overwritten == 0 <==> FreshTrackers(pending, xs)
    decreases |xs|
  {
    hide After, Kept, Without, Stale, SweptCount;
    if xs != [] {
      OverwrittenNoneIff(After(pending, xs[0]), xs[1..]);
      assert TallyOf(pending, xs[0], None).overwritten == 0 <==> FreshTracker(pending, xs[0]);
    }
  }

  // From an empty buffer the balance without the overwritten halves holds exactly when no live
  // tracker is reused.
  lemma BalanceIff(xs: seq<Input>)
    requires LegalRun(map[], xs)
    ensures var t := RunTally(map[], xs, None);
      t.buffered == t.renamed + t.swept + |RunBuffer(map[], xs)| + t.swallowed <==> FreshTrackers(map[], xs)
  {
    hide RunTally, RunBuffer, FreshTrackers;
    HalvesAreConserved(map[], xs, None);
    OverwrittenNoneIff(map[], xs);
    AllHolders(map[]);
    AllHolders(RunBuffer(map[], xs));
  }

  lemma AllHolders(pending: Pending)
    ensures Waiting(pending, None) == |pending|
  {
    assert Holders(pending, None) == pending.Keys;
  }

  // ---- the tally against what is emitted -------------------------------------------------

  lemma {:induction false} RenamesSplit(a: seq<WatchEvent>, b: seq<WatchEvent>)
    ensures Renames(a + b) == Renames(a) + Renames(b)
    decreases |b|
  {
    if b == [] {
      assert a + b == a;
    } else {
      assert (a + b)[..|a + b| - 1] == a + b[..|b| - 1];
      RenamesSplit(a, b[..|b| - 1]);
    }
  }

  lemma {:induction false} NoRenames(out: seq<WatchEvent>)
    requires forall e :: e in out ==> !e.Renamed?
    ensures Renames(out) == 0
    decreases |out|
  {
    if out != [] { NoRenames(out[..|out| - 1]); }
  }

  lemma EmittedRenames(pending: Pending, x: Input)
    requires Legal(pending, x)
    ensures Renames(Emitted(pending, x)) == TallyOf(pending, x, None).renamed
  {
    hide Kept, SweptCount, Stale;
    if Sweeps(x) { NoRenames(Swept(pending, x.order)); }
    if x.Event? {
      match x.raw {
        case CreateEvent(paths) => NoRenames(Each(Kept(paths, x.keep), p => Created(p)));
        case ModifyEvent(paths) => NoRenames(Each(Kept(paths, x.keep), p => Modified(p)));
        case RemoveEvent(paths) => NoRenames(Each(Kept(paths, x.keep), p => Deleted(p)));
        case RenameBoth(paths, _) => if |paths| != 2 { NoRenames(Each(Kept(paths, x.keep), p => Modified(p))); }
            else { ShortRenames(); }
        case RenameTo(paths, tracker) =>
          var left := Without(pending, x.order);
          RenamesSplit(Swept(pending, x.order), Arrival(left, Kept(paths, x.keep), tracker));
          ShortRenames();
        case _ =>
      }
    }
  }

  lemma ShortRenames()
    ensures Renames([]) == 0
    ensures forall e: WatchEvent :: Renames([e]) == if e.Renamed? then 1 else 0
  {
    forall e: WatchEvent ensures Renames([e]) == if e.Renamed? then 1 else 0 {
      assert [e][..0] == [];
    }
  }

  // Every Renamed that leaves the watcher used up exactly one buffered half.
  lemma {:induction false} OneRenamePerHalf(pending: Pending, xs: seq<Input>)
    requires LegalRun(pending, xs)
    ensures Renames(RunOut(pending, xs)) == RunTally(pending, xs, None).renamed
    decreases |xs|
  {
    hide After, TallyOf, Legal, Emitted;
    if xs == [] {
      ShortRenames();
    } else {
      EmittedRenames(pending, xs[0]);
      OneRenamePerHalf(After(pending, xs[0]), xs[1..]);
      RenamesSplit(Emitted(pending, xs[0]), RunOut(After(pending, xs[0]), xs[1..]));
    }
  }

  // Deletions among the events, of one path or of all.
  function Deletes(out: seq<WatchEvent>, which: Option<string>): nat
    decreases |out|
  {
    if out == [] then 0
    else
      var last := out[|out| - 1];
      Deletes(out[..|out| - 1], which) + if last.Deleted? then One(last.path, which) else 0
  }

  // Deletions the kernel reports itself.
  function Removals(paths: seq<string>, which: Option<string>): nat
    decreases |paths|
  {
    if paths == [] then 0 else Removals(paths[..|paths| - 1], which) + One(paths[|paths| - 1], which)
  }

  function Reported(x: Input, which: Option<string>): nat {
    if x.Event? && x.raw.RemoveEvent? then Removals(Kept(x.raw.paths, x.keep), which) else 0
  }

  function RunReported(xs: seq<Input>, which: Option<string>): nat {
    if xs == [] then 0 else Reported(xs[0], which) + RunReported(xs[1..], which)
  }

  lemma {:induction false} DeletesSplit(a: seq<WatchEvent>, b: seq<WatchEvent>, which: Option<string>)
    ensures Deletes(a + b, which) == Deletes(a, which) + Deletes(b, which)
    decreases |b|
  {
    if b == [] {
      assert a + b == a;
    } else {
      assert (a + b)[..|a + b| - 1] == a + b[..|b| - 1];
      DeletesSplit(a, b[..|b| - 1], which);
    }
  }

  lemma {:induction false} NoDeletes(out: seq<WatchEvent>, which: Option<string>)
    requires forall e :: e in out ==> !e.Deleted?
    ensures Deletes(out, which) == 0
    decreases |out|
  {
    if out != [] { NoDeletes(out[..|out| - 1], which); }
  }

  lemma {:induction false} SweptIsDeleted(pending: Pending, order: seq<nat>, which: Option<string>)
    requires forall t :: t in order ==> t in pending
    ensures Deletes(Swept(pending, order), which) == SweptCount(pending, order, which)
    decreases |order|
  {
    hide Counts;
    if order != [] {
      var n := |order| - 1;
      assert order[n] in order;
      forall t | t in order[..n] ensures t in pending { assert t in order; }
      assert Swept(pending, order)[..n] == Swept(pending, order[..n]);
      SweptIsDeleted(pending, order[..n], which);
    }
  }

  lemma {:induction false} EachIsDeleted(paths: seq<string>, which: Option<string>)
    ensures Deletes(Each(paths, p => Deleted(p)), which) == Removals(paths, which)
    decreases |paths|
  {
    hide Counts;
    if paths != [] {
      var n := |paths| - 1;
      assert Each(paths, p => Deleted(p))[..n] == Each(paths[..n], p => Deleted(p));
      EachIsDeleted(paths[..n], which);
    }
  }

  lemma EmittedDeletes(pending: Pending, x: Input, which: Option<string>)
    requires Legal(pending, x)
    ensures Deletes(Emitted(pending, x), which) == TallyOf(pending, x, which).swept + Reported(x, which)
  {
    hide Kept, SweptCount, Stale, Swept, Counts, Removals;
    if Sweeps(x) { SweptIsDeleted(pending, x.order, which); }
    if x.Event? {
      match x.raw {
        case CreateEvent(paths) => NoDeletes(Each(Kept(paths, x.keep), p => Created(p)), which);
        case ModifyEvent(paths) => NoDeletes(Each(Kept(paths, x.keep), p => Modified(p)), which);
        case RemoveEvent(paths) => EachIsDeleted(Kept(paths, x.keep), which);
        case RenameBoth(paths, tracker) =>
          if |paths| != 2 { NoDeletes(Each(Kept(paths, x.keep), p => Modified(p)), which); }
          else { NoDeletes(Emitted(pending, x), which); }
        case RenameTo(paths, tracker) =>
          var arrival := Arrival(Without(pending, x.order), Kept(paths, x.keep), tracker);
          DeletesSplit(Swept(pending, x.order), arrival, which);
          NoDeletes(arrival, which);
        case _ =>
      }
    }
  }

  // Every half the sweeps take becomes one deletion of its path, and no other deletion leaves the
  // watcher but those the kernel reported.
  lemma {:induction false} OneDeletionPerSweptHalf(pending: Pending, xs: seq<Input>, which: Option<string>)
    requires LegalRun(pending, xs)
    ensures Deletes(RunOut(pending, xs), which) == RunTally(pending, xs, which).swept + RunReported(xs, which)
    decreases |xs|
  {
    hide After, TallyOf, Legal, Emitted, Reported;
    if xs != [] {
      EmittedDeletes(pending, xs[0], which);
      OneDeletionPerSweptHalf(After(pending, xs[0]), xs[1..], which);
      DeletesSplit(Emitted(pending, xs[0]), RunOut(After(pending, xs[0]), xs[1..]), which);
    }
  }

  // ---- every event, counted from the inputs ----------------------------------------------

  // p is the first path of the report that the filter keeps.
  predicate FirstKept(paths: seq<string>, keep: string -> bool, p: string) {
    exists i :: 0 <= i < |paths| && paths[i] == p && keep(p) && forall j :: 0 <= j < i ==> !keep(paths[j])
  }

  // A buffered source that is still young enough.
  predicate Buffered(pending: Pending, tracker: Option<nat>, now: int) {
    tracker.Some? && tracker.value in pending && now - pending[tracker.value].seen < TTL
  }

  function Times(paths: seq<string>, p: string): nat { multiset(paths)[p] }

  // How often an input calls for an event: kept reports of a modification, a creation or a removal,
  // destinations without and with a source, and sources too old to wait for theirs.
  ghost function Calls(pending: Pending, x: Input, e: WatchEvent): nat {
    match e
    case Modified(p) =>
      if x.Event? && (x.raw.ModifyEvent? || (x.raw.RenameBoth? && |x.raw.paths| != 2)) && x.keep(p)
        then Times(x.raw.paths, p) else 0
    case Created(p) =>
      if x.Event? && x.raw.CreateEvent? && x.keep(p) then Times(x.raw.paths, p)
      else if x.Event? && x.raw.RenameTo? && FirstKept(x.raw.paths, x.keep, p)
                && !Buffered(pending, x.raw.tracker, x.now) then 1
      else 0
    case Renamed(src, dst) =>
      if x.Event? && x.raw.RenameTo? && FirstKept(x.raw.paths, x.keep, dst)
           && Buffered(pending, x.raw.tracker, x.now) && pending[x.raw.tracker.value].path == src then 1
      else if x.Event? && x.raw.RenameBoth? && x.raw.paths == [src, dst]
                && x.raw.tracker.Some? && x.raw.tracker.value in pending then 1
      else 0
    case Deleted(p) =>
      (if Sweeps(x) then |set t | t in pending && x.now - pending[t].seen >= TTL && pending[t].path == p| else 0)
      + if x.Event? && x.raw.RemoveEvent? && x.keep(p) then Times(x.raw.paths, p) else 0
  }

  ghost function RunCalls(pending: Pending, xs: seq<Input>, e: WatchEvent): nat
    requires LegalRun(pending, xs)
    decreases |xs|
  {
    if xs == [] then 0 else Calls(pending, xs[0], e) + RunCalls(After(pending, xs[0]), xs[1..], e)
  }

  lemma {:induction false} KeptTimes(paths: seq<string>, keep: string -> bool, p: string)
    ensures Times(Kept(paths, keep), p) == if keep(p) then Times(paths, p) else 0
    decreases |paths|
  {
    if paths != [] {
      KeptTimes(paths[1..], keep, p);
      assert paths == [paths[0]] + paths[1..];
    }
  }

  lemma FirstBehind(paths: seq<string>, keep: string -> bool, p: string)
    requires paths != [] && !keep(paths[0])
    ensures FirstKept(paths, keep, p) <==> FirstKept(paths[1..], keep, p)
  {
    var rest := paths[1..];
    if FirstKept(paths, keep, p) {
      var i :| 0 <= i < |paths| && paths[i] == p && keep(p) && forall j :: 0 <= j < i ==> !keep(paths[j]);
      assert rest[i - 1] == p;
      forall j | 0 <= j < i - 1 ensures !keep(rest[j]) { assert rest[j] == paths[j + 1]; }
    }
    if FirstKept(rest, keep, p) {
      var i :| 0 <= i < |rest| && rest[i] == p && keep(p) && forall j :: 0 <= j < i ==> !keep(rest[j]);
      assert paths[i + 1] == p;
      forall j | 0 <= j < i + 1 ensures !keep(paths[j]) { if j > 0 { assert rest[j - 1] == paths[j]; } }
    }
  }

  lemma {:induction false} KeptFirst(paths: seq<string>, keep: string -> bool)
    ensures forall p :: FirstKept(paths, keep, p) <==> Kept(paths, keep) != [] && p == Kept(paths, keep)[0]
    decreases |paths|
  {
    if paths != [] && !keep(paths[0]) {
      KeptFirst(paths[1..], keep);
      forall p ensures FirstKept(paths, keep, p) <==> FirstKept(paths[1..], keep, p) { FirstBehind(paths, keep, p); }
    } else if paths != [] {
      forall p ensures FirstKept(paths, keep, p) <==> p == paths[0] {
        if p == paths[0] { assert paths[0] == p && keep(p); }
      }
    }
  }

  lemma {:induction false} EachTimes(paths: seq<string>, f: string -> WatchEvent, p: string)
    requires forall q :: f(q) == f(p) ==> q == p
    ensures multiset(Each(paths, f))[f(p)] == Times(paths, p)
    decreases |paths|
  {
    if paths != [] {
      var n := |paths| - 1;
      EachTimes(paths[..n], f, p);
      assert Each(paths, f) == Each(paths[..n], f) + [f(paths[n])];
      assert paths == paths[..n] + [paths[n]];
    }
  }

  lemma NotEach(paths: seq<string>, f: string -> WatchEvent, e: WatchEvent)
    requires forall q :: f(q) != e
    ensures multiset(Each(paths, f))[e] == 0
  {
    assert e !in Each(paths, f);
  }

  ghost function Among(pending: Pending, order: seq<nat>, p: string): set<nat> {
    set t | t in order && t in pending && pending[t].path == p
  }

  lemma {:induction false} SweptTimes(pending: Pending, order: seq<nat>, p: string)
    requires (forall t :: t in order ==> t in pending) && forall i, j :: 0 <= i < j < |order| ==> order[i] != order[j]
    ensures multiset(Swept(pending, order))[Deleted(p)] == |Among(pending, order, p)|
    decreases |order|
  {
    if order != [] {
      var n := |order| - 1;
      var rest := order[..n];
      assert order == rest + [order[n]];
      forall t | t in rest ensures t in pending { assert t in order; }
      SweptTimes(pending, rest, p);
      assert Swept(pending, order) == Swept(pending, rest) + [Deleted(pending[order[n]].path)];
      AmongPush(pending, rest, order[n], p);
    }
  }

  lemma AmongPush(pending: Pending, rest: seq<nat>, t: nat, p: string)
    requires t in pending && t !in rest
    ensures |Among(pending, rest + [t], p)| == |Among(pending, rest, p)| + if pending[t].path == p then 1 else 0
  {
    assert Among(pending, rest + [t], p) == Among(pending, rest, p) + if pending[t].path == p then {t} else {};
  }

  lemma SweepCalls(pending: Pending, x: Input, e: WatchEvent)
    requires Legal(pending, x) && Sweeps(x)
    ensures multiset(Swept(pending, x.order))[e] ==
      if e.Deleted? then |set t | t in pending && x.now - pending[t].seen >= TTL && pending[t].path == e.path| else 0
  {
    if e.Deleted? {
      SweptTimes(pending, x.order, e.path);
      assert Among(pending, x.order, e.path) ==
        set t | t in pending && x.now - pending[t].seen >= TTL && pending[t].path == e.path;
    } else {
      assert e !in Swept(pending, x.order);
    }
  }

  lemma ArrivalCalls(pending: Pending, x: Input, e: WatchEvent)
    requires Legal(pending, x) && x.Event? && x.raw.RenameTo?
    ensures multiset(Arrival(Without(pending, x.order), Kept(x.raw.paths, x.keep), x.raw.tracker))[e] ==
      if e.Deleted? then 0 else Calls(pending, x, e)
  {
    hide Kept;
    KeptFirst(x.raw.paths, x.keep);
    var left := Without(pending, x.order);
    assert forall t :: t in left <==> t in pending && x.now - pending[t].seen < TTL;
  }

  lemma EachCalls(pending: Pending, x: Input, e: WatchEvent)
    requires Legal(pending, x) && x.Event? && !Sweeps(x) && (x.raw.RenameBoth? ==> |x.raw.paths| != 2)
    ensures multiset(Emitted(pending, x))[e] == Calls(pending, x, e)
  {
    hide Kept, Each;
    if !x.raw.OtherEvent? {
      var kept := Kept(x.raw.paths, x.keep);
      var p := match e case Created(p) => p case Modified(p) => p case Deleted(p) => p case Renamed(_, p) => p;
      KeptTimes(x.raw.paths, x.keep, p);
      match x.raw {
        case CreateEvent(_) =>
          if e.Created? { EachTimes(kept, q => Created(q), p); } else { NotEach(kept, q => Created(q), e); }
        case RemoveEvent(_) =>
          if e.Deleted? { EachTimes(kept, q => Deleted(q), p); } else { NotEach(kept, q => Deleted(q), e); }
        case _ =>
          if e.Modified? { EachTimes(kept, q => Modified(q), p); } else { NotEach(kept, q => Modified(q), e); }
      }
    }
  }

  lemma InputCalls(pending: Pending, x: Input, e: WatchEvent)
    requires Legal(pending, x)
    ensures multiset(Emitted(pending, x))[e] == Calls(pending, x, e)
  {
    hide Kept, Each, Swept, Arrival, Without, Legal, StaleOrder;
    if Sweeps(x) {
      SweepCalls(pending, x, e);
      if x.Event? && x.raw.RenameTo? { ArrivalCalls(pending, x, e); }
    } else if x.raw.RenameBoth? && |x.raw.paths| == 2 {
      assert x.raw.paths == [x.raw.paths[0], x.raw.paths[1]];
    } else {
      EachCalls(pending, x, e);
    }
  }

  // Over every run, each event leaves the watcher exactly as often as the inputs call for it.
  lemma {:induction false} EventsAreAccountedFor(pending: Pending, xs: seq<Input>, e: WatchEvent)
    requires LegalRun(pending, xs)
    ensures multiset(RunOut(pending, xs))[e] == RunCalls(pending, xs, e)
    decreases |xs|
  {
    hide After, Legal, Emitted, Calls;
    if xs != [] {
      InputCalls(pending, xs[0], e);
      EventsAreAccountedFor(After(pending, xs[0]), xs[1..], e);
    }
  }

  // ---- one tracker's story ---------------------------------------------------------------

  predicate Mentions(x: Input, t: nat) {
    x.Event? && match x.raw
      case RenameFrom(_, tracker) => tracker == Some(t)
      case RenameTo(_, tracker) => tracker == Some(t)
      case RenameBoth(_, tracker) => tracker == Some(t)
      case _ => false
  }

  ghost predicate NoFrom(xs: seq<Input>, t: nat) {
    forall x :: x in xs && x.Event? && x.raw.RenameFrom? ==> x.raw.tracker != Some(t)
  }

  lemma {:induction false} GoneStaysGone(pending: Pending, xs: seq<Input>, t: nat)
    requires LegalRun(pending, xs) && NoFrom(xs, t) && t !in pending
    ensures t !in RunBuffer(pending, xs)
    decreases |xs|
  {
    hide Kept, Stale;
    if xs != [] { GoneStaysGone(After(pending, xs[0]), xs[1..], t); }
  }

  // Once a To has answered its tracker, a trailing Both emits nothing, whatever came in between
  // short of a new From.
  lemma TrailingBothIsSilent(pending: Pending, paths: seq<string>, x: Input, xs: seq<Input>, both: Input, t: nat)
    requires x.Event? && x.raw == RenameTo(paths, Some(t)) && LegalRun(pending, [x] + xs) && NoFrom(xs, t)
    requires both.Event? && both.raw.RenameBoth? && both.raw.tracker == Some(t) && |both.raw.paths| == 2
    ensures Emitted(RunBuffer(pending, [x] + xs), both) == []
  {
    assert ([x] + xs)[1..] == xs;
    GoneStaysGone(After(pending, x), xs, t);
  }

  ghost predicate Early(xs: seq<Input>, t: nat, seen: int) {
    forall x :: x in xs ==> !Mentions(x, t) && x.now - seen < TTL
  }

  lemma {:induction false} HalfWaits(pending: Pending, xs: seq<Input>, t: nat, h: Half)
    requires LegalRun(pending, xs) && t in pending && pending[t] == h && Early(xs, t, h.seen)
    ensures t in RunBuffer(pending, xs) && RunBuffer(pending, xs)[t] == h
    decreases |xs|
  {
    hide Kept;
    if xs != [] { HalfWaits(After(pending, xs[0]), xs[1..], t, h); }
  }

  // The two halves of one rename within the time limit become that rename, whatever happens to
  // other files in between.
  lemma HalvesAreMatched(pending: Pending, x: Input, xs: seq<Input>, y: Input, t: nat, src: string, dst: string)
    requires LegalRun(pending, [x] + xs) && x.Event? && y.Event?
    requires x.raw == RenameFrom([src], Some(t)) && x.keep(src) && y.raw == RenameTo([dst], Some(t)) && y.keep(dst)
    requires Early(xs, t, x.later) && y.now - x.later < TTL
    requires Legal(RunBuffer(pending, [x] + xs), y)
    ensures Renamed(src, dst) in Emitted(RunBuffer(pending, [x] + xs), y)
    ensures t !in After(RunBuffer(pending, [x] + xs), y)
  {
    assert ([x] + xs)[1..] == xs;
    assert Kept([src], x.keep)[0] == src && Kept([dst], y.keep)[0] == dst;
    HalfWaits(After(pending, x), xs, t, Half(src, x.later));
    var buffer := RunBuffer(pending, [x] + xs);
    assert t in Without(buffer, y.order);
    var out := Emitted(buffer, y);
    assert out[|out| - 1] == Renamed(src, dst);
  }

  // A half that stays alone becomes a deletion at the first sweep after the time limit.
  lemma LoneHalfIsDeleted(pending: Pending, x: Input, xs: seq<Input>, y: Input, t: nat, src: string)
    requires LegalRun(pending, [x] + xs) && x.Event?
    requires x.raw == RenameFrom([src], Some(t)) && x.keep(src)
    requires Early(xs, t, x.later) && Sweeps(y) && y.now - x.later >= TTL
    requires Legal(RunBuffer(pending, [x] + xs), y)
    ensures Deleted(src) in Emitted(RunBuffer(pending, [x] + xs), y)
  {
    assert ([x] + xs)[1..] == xs;
    assert Kept([src], x.keep)[0] == src;
    HalfWaits(After(pending, x), xs, t, Half(src, x.later));
    var buffer := RunBuffer(pending, [x] + xs);
    assert t in y.order;
    var i :| 0 <= i < |y.order| && y.order[i] == t;
    assert Swept(buffer, y.order)[i] == Deleted(src);
    assert Swept(buffer, y.order) <= Emitted(buffer, y);
  }
}
