// At-least-once delivery of the change feed. The poller puts whole deltas on a channel, the
// consumer applies them one change at a time and persists the cursor; a crash at any point drops
// the channel and the batch in progress, never the cursor.
module Feed {
  import opened Tables
  import opened Disk
  import opened World
  import opened Continuous
  import opened Poller
  import opened RemoteTree
  import opened Timestamps

  // A delta on the channel: the log positions it covers, the entries it forwards, and the token
  // that is persisted once all of them were applied.
  datatype Batch = Batch(from: nat, to: nat, items: seq<nat>, token: string)

  datatype Work = Idle | Working(batch: Batch, next: nat, clean: bool)

  // `polling` is the token of the poll under way, `len` is how far the log has grown, `applied` what was
  // ever applied successfully.
  datatype State = State(
    cursor: Option<string>, polling: Option<string>, channel: seq<Batch>, work: Work, applied: set<nat>, len: nat)

  // The surroundings of a run: the log as it will ever be, the mapped folder, what each token stands
  // for, which entries have a place below the mapped folder whenever their parents are looked up, and
  // which replies Drive may give to a token while the log has some length.
  datatype Env = Env(log: seq<FeedEntry>, root: string, pos: string -> nat, placed: nat -> bool,
      answers: (string, nat, seq<Reply>) -> bool)

  // In scope: those entries, and every removal of anything but the mapped folder.
  predicate Wanted(env: Env, i: nat) {
    env.placed(i) || (i < |env.log| && env.log[i].removed && env.log[i].fileId != env.root)
  }

  // Log positions in feed order, none in scope left out. What was in scope only at times, and what a
  // stale cache took for it, may be among them.
  ghost predicate Covers(env: Env, lo: nat, hi: nat, items: seq<nat>) {
    && (forall k :: 0 <= k < |items| ==> lo <= items[k] < hi)
    && (forall j, k :: 0 <= j < k < |items| ==> items[j] < items[k])
    && (forall i :: lo <= i < hi && Wanted(env, i) ==> i in items)
  }

  function InScope(env: Env, lo: nat, hi: nat): (items: seq<nat>)
    ensures Covers(env, lo, hi, items)
    decreases hi
  {
    if lo >= hi then [] else InScope(env, lo, hi - 1) + if Wanted(env, hi - 1) then [hi - 1] else []
  }

  // ---- the steps -------------------------------------------------------------------------

  ghost predicate Grow(env: Env, s: State, t: State) {
    s.len <= t.len <= |env.log| && t == s.(len := t.len)
  }

  // Drive may answer a poll like this.
  ghost predicate Answered(env: Env, token: string, len: nat, replies: seq<Reply>) {
    && env.pos(token) <= len <= |env.log| && env.answers(token, len, replies)
    && Serves(env.log, env.pos, len, token, replies) && Fetched(token, replies).Some?
  }

  // A tick reads the cursor ...
  ghost predicate Ask(s: State, t: State) {
    s.polling.None? && s.cursor.Some? && t == s.(polling := s.cursor)
  }

  // ... and sends what it fetched from there; the cursor may have been overwritten in between.
  ghost predicate Send(env: Env, s: State, t: State, replies: seq<Reply>, items: seq<nat>) {
    && s.polling.Some? && Answered(env, s.polling.value, s.len, replies)
    && var from, d := env.pos(s.polling.value), Fetched(s.polling.value, replies).value;
       && Covers(env, from, s.len, items)
       && t == s.(polling := None, channel := s.channel + [Batch(from, s.len, items, d.token)])
  }

  // Or the fetch fails.
  ghost predicate GiveUp(s: State, t: State) {
    s.polling.Some? && t == s.(polling := None)
  }

  ghost predicate Receive(s: State, t: State) {
    s.work.Idle? && s.channel != [] && t == s.(channel := s.channel[1..], work := Working(s.channel[0], 0, true))
  }

  ghost predicate Apply(s: State, t: State, ok: bool) {
    && s.work.Working? && s.work.next < |s.work.batch.items|
    && t == s.(work := Working(s.work.batch, s.work.next + 1, s.work.clean && ok),
               applied := if ok then s.applied + {s.work.batch.items[s.work.next]} else s.applied)
  }

  // The end of the batch; writing the cursor may fail.
  ghost predicate Finish(s: State, t: State, stored: bool) {
    && s.work.Working? && s.work.next == |s.work.batch.items|
    && t == s.(work := Idle, cursor := if s.work.clean && stored then Some(s.work.batch.token) else s.cursor)
  }

  ghost predicate Crash(s: State, t: State) {
    t == s.(polling := None, channel := [], work := Idle)
  }

  ghost predicate Next(env: Env, s: State, t: State) {
    || Grow(env, s, t) || Ask(s, t) || (exists replies, items :: Send(env, s, t, replies, items)) || GiveUp(s, t)
    || Receive(s, t) || (exists ok :: Apply(s, t, ok)) || (exists stored :: Finish(s, t, stored)) || Crash(s, t)
  }

  ghost predicate IsRun(env: Env, states: seq<State>) {
    |states| > 0 && forall i :: 0 <= i < |states| - 1 ==> Next(env, states[i], states[i + 1])
  }

  // The log positions one tick forwards, whatever its cache held and wherever Drive had the nodes.
  ghost function Positions(paths: map<string, string>, log: seq<FeedEntry>, lo: nat, hi: nat, drive: Drive,
                           root: string, rank: string -> nat): seq<nat>
    requires Acyclic(drive, rank) && lo <= hi <= |log|
    decreases hi
  {
    if lo == hi then []
    else
      Positions(paths, log, lo, hi - 1, drive, root, rank)
      + if Forwarded(TickCache(paths, log[lo..hi - 1], drive, rank), log[hi - 1], drive, root, rank).Some? then [hi - 1]
          else []
  }

  // The batch and the positions it was built from.
  ghost predicate Paired(paths: map<string, string>, log: seq<FeedEntry>, lo: nat, batch: seq<Change>, items: seq<nat>,
                         drive: Drive, root: string, rank: string -> nat)
    requires Acyclic(drive, rank)
  {
    && |batch| == |items|
    && forall k :: 0 <= k < |items| ==>
         && lo <= items[k] < |log|
         && Forwarded(TickCache(paths, log[lo..items[k]], drive, rank), log[items[k]], drive, root, rank) ==
             Some(batch[k])
  }

  lemma PairedPush(paths: map<string, string>, log: seq<FeedEntry>, lo: nat, batch: seq<Change>, items: seq<nat>,
                   i: nat, c: Change, drive: Drive, root: string, rank: string -> nat)
    requires Acyclic(drive, rank) && Paired(paths, log, lo, batch, items, drive, root, rank)
    requires lo <= i < |log|
    requires Forwarded(TickCache(paths, log[lo..i], drive, rank), log[i], drive, root, rank) == Some(c)
    ensures Paired(paths, log, lo, batch + [c], items + [i], drive, root, rank)
  {
    hide Forwarded, TickCache;
  }

  lemma NothingPaired(paths: map<string, string>, log: seq<FeedEntry>, lo: nat, drive: Drive, root: string,
          rank: string -> nat)
    requires Acyclic(drive, rank)
    ensures Paired(paths, log, lo, [], [], drive, root, rank)
  {
  }

  // The batch of a tick is made of those positions, in feed order ...
  lemma {:induction false} BatchIsPaired(paths: map<string, string>, log: seq<FeedEntry>, lo: nat, hi: nat,
                                         drive: Drive, root: string, rank: string -> nat)
    requires Acyclic(drive, rank) && lo <= hi <= |log|
    ensures Paired(paths, log, lo, TickBatch(paths, log[lo..hi], drive, root, rank),
                   Positions(paths, log, lo, hi, drive, root, rank), drive, root, rank)
    decreases hi
  {
    hide Paired, Forwarded, TickCache, Acyclic;
    if lo == hi {
      NothingPaired(paths, log, lo, drive, root, rank);
    } else {
      var before := log[lo..hi - 1];
      assert log[lo..hi][..hi - lo - 1] == before && log[lo..hi][hi - lo - 1] == log[hi - 1];
      BatchIsPaired(paths, log, lo, hi - 1, drive, root, rank);
      var last := Forwarded(TickCache(paths, before, drive, rank), log[hi - 1], drive, root, rank);
      if last.Some? {
        PairedPush(paths, log, lo, TickBatch(paths, before, drive, root, rank),
          Positions(paths, log, lo, hi - 1, drive, root, rank), hi - 1, last.value, drive, root, rank);
      } else {
        NothingAdded(TickBatch(paths, before, drive, root, rank), Positions(paths, log, lo, hi - 1, drive, root, rank));
      }
    }
  }

  lemma NothingAdded(batch: seq<Change>, items: seq<nat>)
    ensures batch + [] == batch && items + [] == items
  {
  }

  lemma {:induction false} TickKeepsRoot(paths: map<string, string>, entries: seq<FeedEntry>, drive: Drive,
          root: string, rank: string -> nat)
    requires Acyclic(drive, rank) && root in paths
    ensures root in TickCache(paths, entries, drive, rank)
    decreases |entries|
  {
    hide WalkedFile, Lookups, Acyclic;
    if entries != [] { TickKeepsRoot(paths, entries[..|entries| - 1], drive, root, rank); }
  }

  // ... and covers everything in scope: whatever happens to Drive between polls and however stale
  // the cache is, an entry whose parent chain leads to the mapped folder at this poll is in the batch.
  lemma {:induction false} BatchCoversScope(env: Env, lo: nat, hi: nat, paths: map<string, string>, drive: Drive,
                                            rank: string -> nat)
    requires Acyclic(drive, rank) && lo <= hi <= |env.log| && env.root in paths
    requires forall i: nat :: i < |env.log| && env.placed(i) ==> HasPlace(env.log[i], drive, env.root, rank)
    ensures Covers(env, lo, hi, Positions(paths, env.log, lo, hi, drive, env.root, rank))
    decreases hi
  {
    hide Forwarded, TickCache, Scoped, Acyclic, HasPlace;
    if lo < hi {
      BatchCoversScope(env, lo, hi - 1, paths, drive, rank);
      var now := TickCache(paths, env.log[lo..hi - 1], drive, rank);
      TickKeepsRoot(paths, env.log[lo..hi - 1], drive, env.root, rank);
      if Wanted(env, hi - 1) {
        WantedIsScoped(env, hi - 1, drive, rank);
        InScopeIsForwarded(now, env.log[hi - 1], drive, env.root, rank);
      }
      hide Covers;
      CoversOn(env, lo, hi, Positions(paths, env.log, lo, hi - 1, drive, env.root, rank),
        Forwarded(now, env.log[hi - 1], drive, env.root, rank).Some?);
    }
  }

  // The report of a file or folder whose parent chain leads to the mapped folder.
  ghost predicate HasPlace(e: FeedEntry, drive: Drive, root: string, rank: string -> nat)
    requires Acyclic(drive, rank)
  {
    !e.removed && e.file.Some? && FilePath(drive, root, rank, e.file.value.parents, e.file.value.name).Some?
  }

  lemma WantedIsScoped(env: Env, i: nat, drive: Drive, rank: string -> nat)
    requires Acyclic(drive, rank) && i < |env.log| && Wanted(env, i)
    requires env.placed(i) ==> HasPlace(env.log[i], drive, env.root, rank)
    ensures Scoped(env.log[i], drive, env.root, rank).Some?
  {
    hide Acyclic, FilePath;
  }

  lemma CoversOn(env: Env, lo: nat, hi: nat, items: seq<nat>, taken: bool)
    requires lo < hi && Covers(env, lo, hi - 1, items) && (Wanted(env, hi - 1) ==> taken)
    ensures Covers(env, lo, hi, items + if taken then [hi - 1] else [])
  {
  }

  // ---- what holds throughout -------------------------------------------------------------

  ghost predicate Covered(env: Env, s: State, p: nat) {
    forall i: nat :: i < p && Wanted(env, i) ==> i in s.applied
  }

  ghost predicate CursorCovered(env: Env, s: State) {
    s.cursor.Some? ==> Covered(env, s, env.pos(s.cursor.value))
  }

  ghost predicate SoundBatch(env: Env, s: State, b: Batch) {
    && b.from <= env.pos(b.token) <= b.to <= s.len && Covers(env, b.from, b.to, b.items)
    && Covered(env, s, b.from)
  }

  ghost predicate SoundWork(env: Env, s: State) {
    s.work.Working? ==>
      && SoundBatch(env, s, s.work.batch) && s.work.next <= |s.work.batch.items|
      && (s.work.clean ==> forall k :: 0 <= k < s.work.next ==> s.work.batch.items[k] in s.applied)
  }

  ghost predicate Safe(env: Env, s: State) {
    && CursorCovered(env, s) && SoundWork(env, s) && s.len <= |env.log|
    && (s.cursor.Some? ==> env.pos(s.cursor.value) <= s.len)
    && (s.polling.Some? ==> env.pos(s.polling.value) <= s.len && Covered(env, s, env.pos(s.polling.value)))
    && forall b :: b in s.channel ==> SoundBatch(env, s, b)
  }

  lemma SoundStays(env: Env, s: State, t: State, b: Batch)
    requires SoundBatch(env, s, b) && s.applied <= t.applied && s.len <= t.len
    ensures SoundBatch(env, t, b)
  {
  }

  lemma SendIsSafe(env: Env, s: State, t: State, replies: seq<Reply>, items: seq<nat>)
    requires Safe(env, s) && Send(env, s, t, replies, items)
    ensures Safe(env, t)
  {
    hide Fetched, Serves;
    FetchCoversLog(env.log, env.pos, s.len, s.polling.value, replies);
  }

  lemma ApplyIsSafe(env: Env, s: State, t: State, ok: bool)
    requires Safe(env, s) && Apply(s, t, ok)
    ensures Safe(env, t)
  {
    hide SoundBatch;
    forall b | b in s.channel ensures SoundBatch(env, t, b) { SoundStays(env, s, t, b); }
    SoundStays(env, s, t, s.work.batch);
  }

  lemma FinishIsSafe(env: Env, s: State, t: State, stored: bool)
    requires Safe(env, s) && Finish(s, t, stored)
    ensures Safe(env, t)
  {
    forall b | b in s.channel ensures SoundBatch(env, t, b) { SoundStays(env, s, t, b); }
    if s.work.clean {
      var b := s.work.batch;
      forall i: nat | i < b.to && Wanted(env, i) ensures i in s.applied {
        if i >= b.from {
          assert i in b.items;
        }
      }
    }
  }

  lemma NextIsSafe(env: Env, s: State, t: State)
    requires Safe(env, s) && Next(env, s, t)
    ensures Safe(env, t)
  {
    hide Send, Apply, Finish;
    if replies, items :| Send(env, s, t, replies, items) { SendIsSafe(env, s, t, replies, items); }
    else if ok :| Apply(s, t, ok) { ApplyIsSafe(env, s, t, ok); }
    else if stored :| Finish(s, t, stored) { FinishIsSafe(env, s, t, stored); }
    else {
      forall b | b in s.channel ensures SoundBatch(env, t, b) {
        if !Crash(s, t) { SoundStays(env, s, t, b); } else { SoundCrash(env, s, t, b); }
      }
    }
  }

  lemma SoundCrash(env: Env, s: State, t: State, b: Batch)
    requires SoundBatch(env, s, b) && Crash(s, t)
    ensures SoundBatch(env, t, b)
  {
  }

  lemma {:induction false} RunIsSafe(env: Env, states: seq<State>, i: nat)
    requires IsRun(env, states) && Safe(env, states[0]) && i < |states|
    ensures Safe(env, states[i])
    decreases i
  {
    hide Safe, Next;
    if i > 0 {
      RunIsSafe(env, states, i - 1);
      NextIsSafe(env, states[i - 1], states[i]);
    }
  }

  // The state after start-up: an empty channel, and a cursor the initial pass vouches for.
  ghost predicate Start(env: Env, s: State) {
    && s.polling == None && s.channel == [] && s.work == Idle && s.len <= |env.log|
    && (s.cursor.Some? ==> env.pos(s.cursor.value) <= s.len) && CursorCovered(env, s)
  }

  // Whatever the pages, the batches in flight, the failures and the crashes: every change in scope
  // behind the persisted cursor has been applied successfully.
  lemma EveryChangeIsApplied(env: Env, states: seq<State>, i: nat, change: nat)
    requires IsRun(env, states) && Start(env, states[0]) && i < |states|
    requires states[i].cursor.Some? && change < env.pos(states[i].cursor.value) && Wanted(env, change)
    ensures change in states[i].applied
  {
    hide Next;
    RunIsSafe(env, states, i);
  }

  // ---- the cursor never moves backwards --------------------------------------------------

  function Pending(s: State): seq<Batch> {
    (if s.work.Working? then [s.work.batch] else []) + s.channel
  }

  ghost predicate Ordered(env: Env, s: State) {
    && (forall b :: b in Pending(s) ==> env.pos(b.token) == b.to <= s.len)
    && (forall i, j :: 0 <= i < j < |Pending(s)| ==> Pending(s)[i].to <= Pending(s)[j].to)
    && (s.cursor.Some? ==> (
          && env.pos(s.cursor.value) <= s.len
          && forall b :: b in Pending(s) ==> env.pos(s.cursor.value) <= b.to))
  }

  // Polls whose last page is full.
  ghost predicate FullNext(env: Env, s: State, t: State) {
    || Grow(env, s, t) || Ask(s, t) || (exists replies, items :: Send(env, s, t, replies, items) && Full(replies))
    || GiveUp(s, t) || Receive(s, t) || (exists ok :: Apply(s, t, ok)) || (exists stored :: Finish(s, t, stored))
    || Crash(s, t)
  }

  ghost predicate CursorAdvances(env: Env, s: State, t: State) {
    s.cursor.Some? ==> t.cursor.Some? && env.pos(s.cursor.value) <= env.pos(t.cursor.value)
  }

  lemma SendIsOrdered(env: Env, s: State, t: State, replies: seq<Reply>, items: seq<nat>)
    requires Ordered(env, s) && Send(env, s, t, replies, items) && Full(replies)
    ensures Ordered(env, t) && CursorAdvances(env, s, t)
  {
    hide Fetched, Serves, Covers;
    FetchCoversLog(env.log, env.pos, s.len, s.polling.value, replies);
    assert Pending(t) == Pending(s) + [t.channel[|s.channel|]];
  }

  lemma FinishIsOrdered(env: Env, s: State, t: State, stored: bool)
    requires Ordered(env, s) && Finish(s, t, stored)
    ensures Ordered(env, t) && CursorAdvances(env, s, t)
  {
    assert Pending(s) == [s.work.batch] + Pending(t);
    assert Pending(s)[0] in Pending(s);
    forall b | b in Pending(t) ensures b in Pending(s) && s.work.batch.to <= b.to {
      var j :| 0 <= j < |Pending(t)| && Pending(t)[j] == b;
      assert Pending(s)[j + 1] == b;
    }
    forall i, j | 0 <= i < j < |Pending(t)| ensures Pending(t)[i].to <= Pending(t)[j].to {
      assert Pending(t)[i] == Pending(s)[i + 1] && Pending(t)[j] == Pending(s)[j + 1];
    }
  }

  lemma OtherIsOrdered(env: Env, s: State, t: State)
    requires Ordered(env, s)
    requires
      Grow(env, s, t) || Ask(s, t) || GiveUp(s, t) || Receive(s, t) || Crash(s, t) || exists ok :: Apply(s, t, ok)
    ensures Ordered(env, t) && CursorAdvances(env, s, t)
  {
    if Crash(s, t) {
      assert Pending(t) == [];
    } else {
      assert Pending(t) == Pending(s);
    }
  }

  lemma FullNextIsOrdered(env: Env, s: State, t: State)
    requires Ordered(env, s) && FullNext(env, s, t)
    ensures Ordered(env, t) && CursorAdvances(env, s, t)
  {
    hide Send, Apply, Finish, Ordered, CursorAdvances, Full, Grow, Ask, GiveUp, Receive, Crash;
    if replies, items :| Send(env, s, t, replies, items) && Full(replies) {
      SendIsOrdered(env, s, t, replies, items);
    }
    else if stored :| Finish(s, t, stored) { FinishIsOrdered(env, s, t, stored); }
    else { OtherIsOrdered(env, s, t); }
  }

  lemma {:induction false} RunIsOrdered(env: Env, states: seq<State>, i: nat)
    requires |states| > 0 && Ordered(env, states[0]) && i < |states|
    requires forall k :: 0 <= k < |states| - 1 ==> FullNext(env, states[k], states[k + 1])
    ensures Ordered(env, states[i])
    decreases i
  {
    hide Ordered, FullNext;
    if i > 0 {
      RunIsOrdered(env, states, i - 1);
      FullNextIsOrdered(env, states[i - 1], states[i]);
    }
  }

  // With a full last page on every poll the cursor only ever moves forward, even while several
  // overlapping deltas are on the channel.
  lemma {:induction false} CursorNeverMovesBack(env: Env, states: seq<State>, i: nat, j: nat)
    requires |states| > 0 && Start(env, states[0]) && i <= j < |states|
    requires forall k :: 0 <= k < |states| - 1 ==> FullNext(env, states[k], states[k + 1])
    ensures CursorAdvances(env, states[i], states[j])
    decreases j - i
  {
    hide FullNext;
    assert Pending(states[0]) == [];
    if i < j {
      CursorNeverMovesBack(env, states, i, j - 1);
      RunIsOrdered(env, states, j - 1);
      FullNextIsOrdered(env, states[j - 1], states[j]);
    }
  }

  // ---- one delta at a time ---------------------------------------------------------------

  // Ticks wait until everything fetched before has been finished or dropped.
  ghost predicate PatientNext(env: Env, s: State, t: State) {
    || Grow(env, s, t) || (Ask(s, t) && Pending(s) == [])
    || (exists replies, items :: Send(env, s, t, replies, items)) || GiveUp(s, t) || Receive(s, t)
    || (exists ok :: Apply(s, t, ok)) || (exists stored :: Finish(s, t, stored)) || Crash(s, t)
  }

  ghost predicate Single(env: Env, s: State) {
    && |Pending(s)| <= 1 && (s.polling.Some? ==> Pending(s) == [] && s.polling == s.cursor)
    && forall b :: b in Pending(s) && s.cursor.Some? ==> env.pos(s.cursor.value) <= env.pos(b.token)
  }

  lemma PatientNextIsSingle(env: Env, s: State, t: State)
    requires Single(env, s) && PatientNext(env, s, t)
    ensures Single(env, t) && CursorAdvances(env, s, t)
  {
    hide Fetched, Serves, Covers;
    if replies, items :| Send(env, s, t, replies, items) {
      FetchCoversLog(env.log, env.pos, s.len, s.polling.value, replies);
      assert Pending(t) == [t.channel[|s.channel|]];
    } else if stored :| Finish(s, t, stored) {
      assert Pending(s) == [s.work.batch] + Pending(t);
      assert Pending(s)[0] in Pending(s);
    } else if Crash(s, t) {
      assert Pending(t) == [];
    } else {
      assert Pending(t) == Pending(s);
    }
  }

  // Then the cursor only moves forward, however the tokens fall back.
  lemma {:induction false} PatientPollsNeverMoveBack(env: Env, states: seq<State>, i: nat, j: nat)
    requires |states| > 0 && Start(env, states[0]) && i <= j < |states|
    requires forall k :: 0 <= k < |states| - 1 ==> PatientNext(env, states[k], states[k + 1])
    ensures CursorAdvances(env, states[i], states[j]) && Single(env, states[j])
    decreases j
  {
    hide PatientNext;
    assert Pending(states[0]) == [];
    if j > 0 {
      PatientPollsNeverMoveBack(env, states, if i < j then i else i - 1, j - 1);
      PatientNextIsSingle(env, states[j - 1], states[j]);
    }
  }

  // ---- and where it moves back -----------------------------------------------------------

  lemma JoinRuns(env: Env, a: seq<State>, b: seq<State>)
    requires IsRun(env, a) && IsRun(env, b) && a[|a| - 1] == b[0]
    ensures IsRun(env, a + b[1..]) && (a + b[1..])[0] == a[0] && (a + b[1..])[|a| + |b| - 2] == b[|b| - 1]
    ensures |a + b[1..]| == |a| + |b| - 1 && (a + b[1..])[|a| - 1] == a[|a| - 1]
  {
    hide Next;
    var c := a + b[1..];
    forall i | 0 <= i < |c| - 1 ensures Next(env, c[i], c[i + 1]) {
      if i < |a| - 1 { assert c[i] == a[i] && c[i + 1] == a[i + 1]; }
      else { assert c[i] == b[i - |a| + 1] && c[i + 1] == b[i - |a| + 2]; }
    }
  }

  // The rest of a batch is applied.
  lemma {:induction false} AppliesOn(env: Env, s: State) returns (states: seq<State>)
    requires s.work.Working? && s.work.clean && s.work.next <= |s.work.batch.items|
    ensures IsRun(env, states) && states[0] == s
    ensures var t := states[|states| - 1];
      t.work == Working(s.work.batch, |s.work.batch.items|, true) && t.cursor == s.cursor && t.channel == s.channel &&
          t.len == s.len
    decreases |s.work.batch.items| - s.work.next
  {
    if s.work.next == |s.work.batch.items| {
      states := [s];
    } else {
      var t := s.(work := Working(s.work.batch, s.work.next + 1, true),
          applied := s.applied + {s.work.batch.items[s.work.next]});
      assert Apply(s, t, true);
      var rest := AppliesOn(env, t);
      StepIsRun(env, s, t);
      JoinRuns(env, [s, t], rest);
      states := [s, t] + rest[1..];
    }
  }

  // The first batch on the channel is taken, applied and persisted.
  lemma BatchIsPersisted(env: Env, s: State) returns (states: seq<State>)
    requires s.work == Idle && s.channel != []
    ensures IsRun(env, states) && states[0] == s
    ensures var t := states[|states| - 1];
      t.work == Idle && t.channel == s.channel[1..] && t.cursor == Some(s.channel[0].token) && t.len == s.len
  {
    var t := s.(channel := s.channel[1..], work := Working(s.channel[0], 0, true));
    assert IsRun(env, [s, t]) by { assert Receive(s, t); StepIsRun(env, s, t); }
    var run := AppliesOn(env, t);
    JoinRuns(env, [s, t], run);
    var all := [s, t] + run[1..];
    var u := all[|all| - 1];
    var v := u.(work := Idle, cursor := Some(u.work.batch.token));
    assert IsRun(env, [u, v]) by { assert Finish(u, v, true); StepIsRun(env, u, v); }
    JoinRuns(env, all, [u, v]);
    states := all + [u, v][1..];
  }

  lemma StepIsRun(env: Env, s: State, t: State)
    requires Next(env, s, t)
    ensures IsRun(env, [s, t])
  {
    hide Next;
  }

  function Upto(n: nat): (s: set<nat>)
    ensures forall i: nat :: i in s <==> i < n
  {
    if n == 0 then {} else Upto(n - 1) + {n - 1}
  }

  // Two polls of one delta before the first is consumed, the second falling back to a token before
  // the end: the cursor reaches the end and moves back again.
  lemma ShortPollMovesBack(env: Env, token: string, len: nat, full: seq<Reply>,
          short: seq<Reply>) returns (states: seq<State>, m: nat)
    requires Answered(env, token, len, full) && Full(full)
    requires Answered(env, token, len, short) && !Full(short)
    ensures IsRun(env, states) && Start(env, states[0]) && m < |states|
    ensures !CursorAdvances(env, states[m], states[|states| - 1])
  {
    FetchCoversLog(env.log, env.pos, len, token, full);
    FetchCoversLog(env.log, env.pos, len, token, short);
    hide Fetched, Serves, InScope, Full, Next;
    var from, items := env.pos(token), InScope(env, env.pos(token), len);
    var s0 := State(Some(token), None, [], Idle, Upto(len), len);
    var b1, b2 := Batch(from, len, items, Fetched(token, full).value.token),
        Batch(from, len, items, Fetched(token, short).value.token);
    var s1, s2 := s0.(channel := [b1]), s0.(channel := [b1, b2]);
    assert s2.channel == s1.channel + [b2];
    var one := PollIsRun(env, s0, s1, full, items);
    var two := PollIsRun(env, s1, s2, short, items);
    hide IsRun;
    JoinRuns(env, one, two);
    var polled := one + two[1..];
    var first := BatchIsPersisted(env, s2);
    JoinRuns(env, polled, first);
    var once := polled + first[1..];
    m := |once| - 1;
    var second := BatchIsPersisted(env, once[m]);
    JoinRuns(env, once, second);
    states := once + second[1..];
    assert states[m] == once[m];
  }

  // One undisturbed tick.
  lemma PollIsRun(env: Env, s: State, t: State, replies: seq<Reply>, items: seq<nat>) returns (states: seq<State>)
    requires s.polling.None? && s.cursor.Some? && Answered(env, s.cursor.value, s.len, replies)
    requires Covers(env, env.pos(s.cursor.value), s.len, items)
    requires t == s.(channel := s.channel + [Batch(env.pos(s.cursor.value), s.len, items,
                                                   Fetched(s.cursor.value, replies).value.token)])
    ensures IsRun(env, states) && states[0] == s && states[|states| - 1] == t
  {
    hide Fetched, Serves, Covers;
    var asked := s.(polling := s.cursor);
    assert Ask(s, asked);
    assert Send(env, asked, t, replies, items);
    StepIsRun(env, s, asked);
    StepIsRun(env, asked, t);
    states := [s, asked, t];
  }

  ghost predicate NeverMovesBack(env: Env) {
    forall states, i, j :: IsRun(env, states) && 0 <= i <= j < |states| && Start(env, states[0]) ==>
      CursorAdvances(env, states[i], states[j])
  }

  ghost predicate AlwaysFull(env: Env) {
    forall token, len, replies :: Answered(env, token, len, replies) ==> Full(replies)
  }

  // A full answer is always among the possible ones.
  ghost predicate CanBeFull(env: Env) {
    forall token, len :: env.pos(token) <= len <= |env.log| ==> HasFull(env, token, len)
  }

  ghost predicate HasFull(env: Env, token: string, len: nat) {
    exists replies :: Answered(env, token, len, replies) && Full(replies)
  }

  // Of a Drive that can answer in full, the cursor never moves back in any run exactly when it always
  // does: when no last page with entries on it lacks the new start token.
  lemma CursorNeverMovesBackIff(env: Env)
    requires CanBeFull(env)
    ensures NeverMovesBack(env) <==> AlwaysFull(env)
  {
    hide Full, IsRun, Start, Next, CursorAdvances;
    if token, len, replies :| Answered(env, token, len, replies) && !Full(replies) {
      hide Serves, Fetched;
      assert HasFull(env, token, len);
      var full :| Answered(env, token, len, full) && Full(full);
      var states, m := ShortPollMovesBack(env, token, len, full, replies);
      assert IsRun(env, states) && !CursorAdvances(env, states[m], states[|states| - 1]);
    } else {
      forall states, i, j | IsRun(env, states) && 0 <= i <= j < |states| && Start(env, states[0])
        ensures CursorAdvances(env, states[i], states[j])
      {
        RunIsFull(env, states);
        CursorNeverMovesBack(env, states, i, j);
      }
    }
  }

  lemma RunIsFull(env: Env, states: seq<State>)
    requires AlwaysFull(env) && IsRun(env, states)
    ensures forall k :: 0 <= k < |states| - 1 ==> FullNext(env, states[k], states[k + 1])
  {
    hide AlwaysFull, Next, FullNext;
    forall k | 0 <= k < |states| - 1 ensures FullNext(env, states[k], states[k + 1]) {
      NextIsFull(env, states[k], states[k + 1]);
    }
  }

  lemma NextIsFull(env: Env, s: State, t: State)
    requires AlwaysFull(env) && Next(env, s, t)
    ensures FullNext(env, s, t)
  {
    hide Full, Answered, Covers;
    if replies, items :| Send(env, s, t, replies, items) {
      assert Full(replies);
    }
  }

  function TwoEntries(e: FeedEntry): seq<FeedEntry> { [e, e] }

  // The smallest such run: a delta of two entries, fetched once in one page with the new start token
  // and once in two pages without.
  lemma FallbackMovesBack(e: FeedEntry) returns (env: Env, states: seq<State>)
    ensures IsRun(env, states) && Start(env, states[0])
    ensures exists i, j :: 0 <= i <= j < |states| && !CursorAdvances(env, states[i], states[j])
  {
    hide Fetched, Serves, TwoEntries, IsRun, Start, CursorAdvances;
    env := Env(TwoEntries(e), "", t => if t == "end" then 2 else if t == "mid" then 1
        else 0, i => false, (t, n, r) => true);
    var first := [Page([e, e], None, Some("end"))];
    var second := [Page([e], Some("mid"), None), Page([e], None, None)];
    FallbackPolls(env, e, first, second);
    var m;
    states, m := ShortPollMovesBack(env, "start", 2, first, second);
  }

  lemma FallbackPolls(env: Env, e: FeedEntry, first: seq<Reply>, second: seq<Reply>)
    requires env.log == TwoEntries(e) && env.pos("start") == 0 && env.pos("mid") == 1 && env.pos("end") == 2
    requires env.answers("start", 2, first) && env.answers("start", 2, second)
    requires first == [Page([e, e], None, Some("end"))]
    requires second == [Page([e], Some("mid"), None), Page([e], None, None)]
    ensures Answered(env, "start", 2, first) && Full(first)
    ensures Answered(env, "start", 2, second) && !Full(second)
  {
    assert env.log[0..2] == [e, e] && env.log[0..1] == [e] && env.log[1..2] == [e];
    assert second[1..] == [Page([e], None, None)];
    assert Serves(env.log, env.pos, 2, "mid", second[1..]) && !Full(second[1..]);
    assert Fetched("mid", second[1..]) == Some(Delta([e], "mid"));
  }

  // ---- a change that can never be applied ------------------------------------------------

  lemma NativeFailsIff(w: World, c: Change, known: Option<nat>, now: int)
    requires c.file.Some? && c.file.value.mime.NativeDoc? && (known.Some? ==> known.value in w.db.items)
    ensures NativeActs(w, c, known, now).None? <==>
      known.None? && FindPath(w.db, ShortcutPath(Default(c.path, c.file.value.name), c.file.value.mime.ext)).Some?
  {
    hide FindPath, ShortcutPath;
  }

  lemma FileFailsIff(w: World, c: Change, known: Option<nat>, now: int)
    requires c.file.Some? && c.file.value.md5.Some? && (known.Some? ==> known.value in w.db.items)
    ensures FileActs(w, c, known, now).None? <==>
      && known.Some? && w.db.items[known.value].trashedAt.None?
      && (c.path.Some? ==> c.path.value == w.db.items[known.value].path)
      && (w.db.items[known.value].md5 != c.file.value.md5 ||
          w.db.items[known.value].size != Some(Default(c.file.value.size, 0)))
      && CopyHasNoRoom(w, c.file.value, known.value, now)
  {
    hide FindPath, MovedFileActs, EditedFileActs, CopyHasNoRoom;
    if known.Some? { EditFailsIff(w, c.file.value, known.value, now); }
  }

  lemma EditFailsIff(w: World, f: Snapshot, id: nat, now: int)
    requires id in w.db.items && f.md5.Some?
    ensures EditedFileActs(w, f, id, now).None? <==> CopyHasNoRoom(w, f, id, now)
  {
    hide ConflictPath;
  }

  // The only failures of `apply_remote`: a native document that is new at a taken path, and a file
  // edited on both sides with a directory where the conflict copy has to go.
  lemma ApplyFailsIff(w: World, c: Change, now: int)
    ensures RemoteActs(w, c, now).None? <==>
      && c.fileId !in w.inFlight && !c.removed && c.file.Some? && !c.file.value.trashed
      && ((c.file.value.mime.NativeDoc? && FindRemote(w.db, c.fileId).None?
           && FindPath(w.db, ShortcutPath(Default(c.path, c.file.value.name), c.file.value.mime.ext)).Some?)
          || BlockedCopy(w, c, now))
  {
    hide FindRemote, FindPath, ShortcutPath, FileActs, NativeActs, FolderActs, TrashActs, CopyHasNoRoom;
    if c.file.Some? {
      var known := FindRemote(w.db, c.fileId);
      if c.file.value.mime.NativeDoc? { NativeFailsIff(w, c, known, now); }
      if c.file.value.md5.Some? { FileFailsIff(w, c, known, now); }
    }
  }

  ghost predicate BlockedCopy(w: World, c: Change, now: int) {
    && c.file.Some? && c.file.value.mime.Opaque? && c.file.value.md5.Some?
    && var known := FindRemote(w.db, c.fileId);
       && known.Some? && w.db.items[known.value].trashedAt.None?
       && (c.path.Some? ==> c.path.value == w.db.items[known.value].path)
       && (w.db.items[known.value].md5 != c.file.value.md5 ||
           w.db.items[known.value].size != Some(Default(c.file.value.size, 0)))
       && CopyHasNoRoom(w, c.file.value, known.value, now)
  }

  // The local file was edited as well, and a directory lies where its copy has to go.
  ghost predicate CopyHasNoRoom(w: World, f: Snapshot, id: nat, now: int)
    requires id in w.db.items && f.md5.Some?
  {
    var row := w.db.items[id];
    && IsFile(w.disk, row.path) && row.md5.Some?
    && Md5(w.disk[row.path].bytes) != row.md5.value && Md5(w.disk[row.path].bytes) != f.md5.value
    && IsDir(w.disk, ConflictPath(row.path, now))
  }
}
