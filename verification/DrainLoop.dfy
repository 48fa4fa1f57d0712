// The dispatcher's drain loop (src/daemon/runtime.rs, src/state/ops.rs): what is due runs, what
// fails is put off, and what fails too often is parked for good.
module DrainLoop {
  import opened Tables
  import opened World
  import opened Runtime
  import opened Draining

  const MAX_ATTEMPTS := 10
  const INITIAL_BACKOFF_SECS := 1
  const MAX_BACKOFF_SECS := 60
  const PARKED_FOREVER := 32_503_680_000
  const AUTH_PAUSE_SECS := 3600

  type Queue = map<nat, Pending>

  function Clamp(x: int, lo: int, hi: int): (r: int)
    requires lo <= hi
    ensures lo <= r <= hi
  {
    if x < lo then lo else if x > hi then hi else x
  }

  function ShiftLeft(x: nat, k: nat): nat { if k == 0 then x else 2 * ShiftLeft(x, k - 1) }

  function Capped(attempt: int): int {
    var base := ShiftLeft(INITIAL_BACKOFF_SECS, Clamp(attempt - 1, 0, 6));
    if base < MAX_BACKOFF_SECS then base else MAX_BACKOFF_SECS
  }

  function JitterRange(attempt: int): int {
    if Capped(attempt) / 5 > 1 then Capped(attempt) / 5 else 1
  }

  // `backoff_seconds`, with the random draw as a parameter.
  function Backoff(attempt: int, draw: int): int {
    if Capped(attempt) + draw > 1 then Capped(attempt) + draw else 1
  }

  // Delays double up to the cap, are never less than a second, and stay within a fifth of their
  // nominal value from the fourth attempt on.
  lemma BackoffBounds(attempt: int, draw: int)
    requires attempt >= 1 && -JitterRange(attempt) <= draw <= JitterRange(attempt)
    ensures 1 <= Backoff(attempt, draw) <= 72
    ensures attempt <= 6 ==> Capped(attempt) == ShiftLeft(1, attempt - 1)
    ensures attempt >= 7 ==> 48 <= Backoff(attempt, draw)
    ensures attempt >= 4 ==> 4 * Capped(attempt) <= 5 * Backoff(attempt, draw) <= 6 * Capped(attempt)
    ensures attempt < 7 ==> Capped(attempt) < Capped(attempt + 1)
  {
    assert ShiftLeft(1, 0) == 1 && ShiftLeft(1, 1) == 2 && ShiftLeft(1, 2) == 4;
    assert ShiftLeft(1, 3) == 8 && ShiftLeft(1, 4) == 16;
    assert ShiftLeft(1, 5) == 32 && ShiftLeft(1, 6) == 64;
  }

  // ---- selection -------------------------------------------------------------------------

  // ORDER BY next_attempt_at ASC, id ASC
  predicate Before(ops: Queue, o: nat, p: nat)
    requires o in ops && p in ops
  {
    ops[o].due < ops[p].due || (ops[o].due == ops[p].due && o <= p)
  }

  ghost predicate IsNextDue(ops: Queue, now: int, r: Option<nat>) {
    match r
    case None => forall p :: p in ops ==> ops[p].due > now
    case Some(o) => o in ops && ops[o].due <= now && forall p :: p in ops ==> Before(ops, o, p)
  }

  // ---- one turn --------------------------------------------------------------------------

  datatype Outcome = Succeeded | AuthFailed | OtherFailure

  // One turn of the loop: the operation selected, the two clock readings, how the execution went,
  // the jitter drawn, and the operations it took down with their items.
  datatype Turn = Turn(o: nat, now: int, later: int, outcome: Outcome, draw: int, dropped: set<nat>)

  function PutOff(ops: Queue, o: nat, next: int): Queue {
    if o in ops then ops[o := ops[o].(attempts := ops[o].attempts + 1, due := next)] else ops
  }

  function AfterTurn(ops: Queue, t: Turn): Queue
    requires t.o in ops
  {
    var p := ops[t.o];
    if p.attempts >= MAX_ATTEMPTS then PutOff(ops, t.o, PARKED_FOREVER)
    else
      var rest := ops - t.dropped;
      match t.outcome
      case Succeeded => rest - {t.o}
      case AuthFailed => PutOff(rest, t.o, t.later + AUTH_PAUSE_SECS)
      case OtherFailure => PutOff(rest, t.o, t.later + Backoff(p.attempts + 1, t.draw))
  }

  // What a turn does to the queue: a success is removed, an authentication failure waits an hour, any
  // other failure waits twice as long as the last one, within a fifth and never more than about a
  // minute, and an operation that failed ten times is not due again before the year 3000.
  lemma TurnOutcome(ops: Queue, t: Turn)
    requires t.o in ops && 0 <= ops[t.o].attempts && -JitterRange(ops[t.o].attempts + 1) <= t.draw
    requires t.draw <= JitterRange(ops[t.o].attempts + 1)
    ensures var p, after := ops[t.o], AfterTurn(ops, t);
      var tried := p.attempts < 10;
      && (forall q :: q in ops && q != t.o && (tried ==> q !in t.dropped) ==> q in after && after[q] == ops[q])
      && (forall q :: q in after ==> q in ops && (tried ==> q !in t.dropped))
      && (t.o in after <==> !tried || (t.o !in t.dropped && t.outcome != Succeeded))
      && (t.o in after ==>
            && after[t.o] == p.(attempts := p.attempts + 1, due := after[t.o].due)
            && var delay := after[t.o].due - t.later;
               if !tried then after[t.o].due == 32503680000
               else if t.outcome == AuthFailed then delay == 3600
               else
                 var nominal := if p.attempts < 6 then [1, 2, 4, 8, 16, 32][p.attempts] else 60;
                 delay >= 1 && 5 * nominal - (if nominal >= 5 then nominal else 5) <= 5 * delay
                 && 5 * delay <= 5 * nominal + (if nominal >= 5 then nominal else 5))
  {
    assert ShiftLeft(1, 0) == 1 && ShiftLeft(1, 1) == 2 && ShiftLeft(1, 2) == 4;
    assert ShiftLeft(1, 3) == 8 && ShiftLeft(1, 4) == 16;
    assert ShiftLeft(1, 5) == 32 && ShiftLeft(1, 6) == 64;
  }

  // What is queued now is due now, and what fails is put off, in the tables as in the loop.
  lemma QueuedIsDue(db: Db, item: nat, op: Operation, now: int, r: Option<nat>)
    requires item in db.items && IsNextDue(Enqueue(db, item, op, now).ops, now, r)
    ensures r.Some?
    ensures db.nextOp in Enqueue(db, item, op, now).ops && Enqueue(db, item, op, now).ops[db.nextOp].attempts == 0
  {
    assert db.nextOp in Enqueue(db, item, op, now).ops;
  }

  predicate Executes(ops: Queue, t: Turn) {
    t.o in ops && ops[t.o].attempts < MAX_ATTEMPTS
  }

  // An operation past its last attempt is parked.
  ghost predicate Kept(ops: Queue) {
    forall o :: o in ops ==> ops[o].attempts >= 0 && (ops[o].attempts > MAX_ATTEMPTS ==> ops[o].due == PARKED_FOREVER)
  }

  ghost predicate LegalTurn(ops: Queue, t: Turn) {
    t.o in ops && IsNextDue(ops, t.now, Some(t.o)) && t.now < PARKED_FOREVER
  }

  // ---- the measure -----------------------------------------------------------------------

  function Left(p: Pending): nat {
    if p.attempts <= MAX_ATTEMPTS then MAX_ATTEMPTS + 1 - p.attempts else 0
  }

  ghost function Measure(ops: Queue): nat {
    if ops == map[] then 0
    else
      var o :| o in ops;
      Left(ops[o]) + Measure(ops - {o})
  }

  lemma {:induction false} MeasureWithout(ops: Queue, o: nat)
    requires o in ops
    ensures Measure(ops) == Left(ops[o]) + Measure(ops - {o})
    decreases |ops|
  {
    hide Left;
    var p :| p in ops && Measure(ops) == Left(ops[p]) + Measure(ops - {p});
    if p != o {
      MeasureWithout(ops - {p}, o);
      MeasureWithout(ops - {o}, p);
      assert ops - {p} - {o} == ops - {o} - {p};
    }
  }

  lemma {:induction false} MeasureDrop(ops: Queue, dropped: set<nat>)
    ensures Measure(ops - dropped) <= Measure(ops)
    decreases |ops|
  {
    hide Left;
    if o :| o in ops && o in dropped {
      MeasureWithout(ops, o);
      MeasureDrop(ops - {o}, dropped);
      assert ops - {o} - dropped == ops - dropped;
    } else {
      assert ops - dropped == ops;
    }
  }

  lemma MeasureMark(ops: Queue, o: nat, next: int)
    requires o in ops && 0 <= ops[o].attempts <= MAX_ATTEMPTS
    ensures Measure(PutOff(ops, o, next)) < Measure(ops)
  {
    hide Measure;
    MeasureWithout(ops, o);
    MeasureWithout(PutOff(ops, o, next), o);
    assert PutOff(ops, o, next) - {o} == ops - {o};
  }

  lemma TurnKeeps(ops: Queue, t: Turn)
    requires Kept(ops) && LegalTurn(ops, t)
    ensures Kept(AfterTurn(ops, t)) && 0 <= ops[t.o].attempts <= MAX_ATTEMPTS
  {
    hide Backoff;
  }

  // Dropping operations and putting one off that is left, in the order the loop does it.
  lemma DroppedAndPutOff(ops: Queue, o: nat, dropped: set<nat>, next: int)
    requires o in ops && 0 <= ops[o].attempts <= MAX_ATTEMPTS
    ensures Measure(PutOff(ops - dropped, o, next)) < Measure(ops)
    ensures Measure(ops - dropped - {o}) < Measure(ops)
  {
    hide Measure;
    MeasureWithout(ops, o);
    MeasureDrop(ops - {o}, dropped);
    assert ops - {o} - dropped == ops - dropped - {o};
    if o in dropped {
      assert ops - dropped - {o} == ops - dropped;
    } else {
      MeasureDrop(ops, dropped);
      MeasureMark(ops - dropped, o, next);
    }
  }

  // Every turn uses up some of the attempts left in the queue; the parked ones are out of reach.
  lemma TurnUsesAttempts(ops: Queue, t: Turn)
    requires Kept(ops) && LegalTurn(ops, t)
    ensures Kept(AfterTurn(ops, t)) && Measure(AfterTurn(ops, t)) < Measure(ops)
    ensures 0 <= ops[t.o].attempts <= MAX_ATTEMPTS
  {
    hide Measure, Backoff, Kept, IsNextDue, PutOff;
    TurnKeeps(ops, t);
    MeasureMark(ops, t.o, PARKED_FOREVER);
    DroppedAndPutOff(ops, t.o, t.dropped, t.later + AUTH_PAUSE_SECS);
    DroppedAndPutOff(ops, t.o, t.dropped, t.later + Backoff(ops[t.o].attempts + 1, t.draw));
  }

  // ---- the loop --------------------------------------------------------------------------

  // What the surroundings answer in turn k.
  datatype Script = Script(
    now: nat -> int, later: nat -> int, outcome: nat -> Outcome, draw: nat -> int, dropped: nat -> set<nat>)

  ghost predicate Readable(s: Script) {
    forall k :: s.now(k) < PARKED_FOREVER
  }

  // The turns lead from one queue to the other.
  ghost predicate Chain(ops: Queue, turns: seq<Turn>, after: Queue)
    decreases |turns|
  {
    if turns == [] then ops == after
    else LegalTurn(ops, turns[0]) && Chain(AfterTurn(ops, turns[0]), turns[1..], after)
  }

  lemma {:induction false} ChainPush(ops: Queue, turns: seq<Turn>, mid: Queue, t: Turn)
    requires Chain(ops, turns, mid) && LegalTurn(mid, t)
    ensures Chain(ops, turns + [t], AfterTurn(mid, t))
    decreases |turns|
  {
    hide IsNextDue, AfterTurn;
    if turns == [] {
      assert (turns + [t])[1..] == [];
    } else {
      assert (turns + [t])[1..] == turns[1..] + [t];
      ChainPush(AfterTurn(ops, turns[0]), turns[1..], mid, t);
    }
  }

  lemma ChainNone(ops: Queue)
    ensures Chain(ops, [], ops)
  {
  }

  // A drain is never longer than the attempts left in the queue.
  lemma {:induction false} DrainIsShort(ops: Queue, turns: seq<Turn>, after: Queue)
    requires Kept(ops) && Chain(ops, turns, after)
    ensures |turns| + Measure(after) <= Measure(ops)
    decreases |turns|
  {
    hide Measure, AfterTurn, IsNextDue, Kept;
    if turns != [] {
      TurnUsesAttempts(ops, turns[0]);
      DrainIsShort(AfterTurn(ops, turns[0]), turns[1..], after);
    }
  }

  class Dispatcher {
    var ops: Queue

    constructor (ops: Queue)
      ensures this.ops == ops
    {
      this.ops := ops;
    }

    // `next_due`
    method NextDue(now: int) returns (r: Option<nat>)
      ensures IsNextDue(ops, now, r)
    {
      r := None;
      var todo := ops.Keys;
      while todo != {}
        invariant todo <= ops.Keys
        invariant r.None? ==> forall p :: p in ops && p !in todo ==> ops[p].due > now
        invariant r.Some? ==> r.value in ops && ops[r.value].due <= now
        invariant r.Some? ==> forall p :: p in ops && p !in todo ==> Before(ops, r.value, p)
      {
        var p :| p in todo;
        if ops[p].due <= now && (r.None? || Before(ops, p, r.value)) { r := Some(p); }
        todo := todo - {p};
      }
    }

    // `mark_attempt`
    method MarkAttempt(o: nat, next: int)
      modifies this
      ensures ops == PutOff(old(ops), o, next)
    {
      if o in ops {
        ops := ops[o := ops[o].(attempts := ops[o].attempts + 1, due := next)];
      }
    }

    // Runs until nothing is due or the account is blocked. It ends for every clock and every
    // outcome, because each turn uses up one of the attempts left in the queue.
    method DrainDue(s: Script) returns (blocked: bool, ghost turns: seq<Turn>)
      requires Kept(ops) && Readable(s)
      modifies this
      ensures Kept(ops) && Chain(old(ops), turns, ops) && |turns| + Measure(ops) <= Measure(old(ops))
      ensures blocked || IsNextDue(ops, s.now(|turns|), None)
      ensures blocked <==> exists k :: 0 <= k < |turns| && turns[k].outcome == AuthFailed
    {
      hide Measure, Backoff, Chain, AfterTurn;
      turns := [];
      blocked := false;
      ChainNone(ops);
      var k := 0;
      while true
        invariant Kept(ops) && k == |turns| && Chain(old(ops), turns, ops)
        invariant forall j :: 0 <= j < |turns| ==> turns[j].outcome != AuthFailed
        decreases Measure(ops)
      {
        ghost var was := ops;
        var due := NextDue(s.now(k));
        if due.None? {
          DrainIsShort(old(ops), turns, ops);
          return;
        }
        var o := due.value;
        var parking := ops[o].attempts >= MAX_ATTEMPTS;
        // A turn that only parks executes nothing, so it has no outcome of its own.
        ghost var t := Turn(o, s.now(k), s.later(k), if parking then OtherFailure
            else s.outcome(k), s.draw(k), s.dropped(k));
        TurnUsesAttempts(was, t);
        ChainPush(old(ops), turns, was, t);
        turns := turns + [t];
        blocked := TakeTurn(s, k, o, t);
        assert turns[|turns| - 1] == t;
        if blocked {
          DrainIsShort(old(ops), turns, ops);
          return;
        }
        k := k + 1;
      }
    }

    method TakeTurn(s: Script, k: nat, o: nat, ghost t: Turn) returns (blocked: bool)
      requires o in ops
      requires t == Turn(o, s.now(k), s.later(k), if ops[o].attempts >= MAX_ATTEMPTS then OtherFailure
          else s.outcome(k), s.draw(k), s.dropped(k))
      modifies this
      ensures ops == AfterTurn(old(ops), t) && (blocked <==> t.outcome == AuthFailed)
    {
      hide Backoff;
      var attempts := ops[o].attempts;
      blocked := false;
      if attempts >= MAX_ATTEMPTS {
        MarkAttempt(o, PARKED_FOREVER);
        return;
      }
      ops := ops - s.dropped(k);
      match s.outcome(k) {
        case Succeeded => ops := ops - {o};
        case AuthFailed =>
          MarkAttempt(o, s.later(k) + AUTH_PAUSE_SECS);
          blocked := true;
        case OtherFailure => MarkAttempt(o, s.later(k) + Backoff(attempts + 1, s.draw(k)));
      }
    }
  }

  // ---- over the whole life of an operation -----------------------------------------------

  // The turns of any number of drains, with new operations queued in between.
  datatype Event = Took(turn: Turn) | Queued(o: nat, entry: Pending)

  ghost predicate LegalEvent(ops: Queue, e: Event) {
    match e
    case Took(t) => LegalTurn(ops, t)
    case Queued(o, entry) => o !in ops && entry.attempts == 0
  }

  ghost function AfterEvent(ops: Queue, e: Event): Queue
    requires LegalEvent(ops, e)
  {
    match e case Took(t) => AfterTurn(ops, t) case Queued(o, entry) => ops[o := entry]
  }

  // Ids are never handed out twice (AUTOINCREMENT).
  ghost predicate LegalLife(ops: Queue, es: seq<Event>, o: nat)
    decreases |es|
  {
    es == [] || (LegalEvent(ops, es[0]) && (es[0].Queued? ==> es[0].o != o) &&
        LegalLife(AfterEvent(ops, es[0]), es[1..], o))
  }

  ghost function Executions(ops: Queue, es: seq<Event>, o: nat): nat
    requires LegalLife(ops, es, o)
    decreases |es|
  {
    if es == [] then 0
    else
      (if es[0].Took? && es[0].turn.o == o && Executes(ops, es[0].turn) then 1 else 0)
      + Executions(AfterEvent(ops, es[0]), es[1..], o)
  }

  function Remaining(ops: Queue, o: nat): nat {
    if o in ops && ops[o].attempts < MAX_ATTEMPTS then MAX_ATTEMPTS - ops[o].attempts else 0
  }

  lemma EventKeeps(ops: Queue, e: Event, o: nat)
    requires Kept(ops) && LegalEvent(ops, e) && (e.Queued? ==> e.o != o)
    ensures Kept(AfterEvent(ops, e))
    ensures o in ops && 0 <= ops[o].attempts ==>
      Remaining(AfterEvent(ops, e), o) +
          (if e.Took? && e.turn.o == o && Executes(ops, e.turn) then 1 else 0) <= Remaining(ops, o)
    ensures o !in ops ==> o !in AfterEvent(ops, e)
  {
    hide Measure, Backoff;
    if e.Took? { TurnUsesAttempts(ops, e.turn); }
  }

  // Whatever the clock, the outcomes and the other operations do, one operation is executed at most
  // ten times in its life.
  lemma {:induction false} AtMostTenExecutions(ops: Queue, es: seq<Event>, o: nat)
    requires Kept(ops) && LegalLife(ops, es, o)
    ensures Executions(ops, es, o) <= Remaining(ops, o) <= MAX_ATTEMPTS
    decreases |es|
  {
    hide Kept, LegalEvent, AfterEvent, Executes, Remaining;
    RemainingAtMost(ops, o);
    if es != [] {
      EventKeeps(ops, es[0], o);
      AtMostTenExecutions(AfterEvent(ops, es[0]), es[1..], o);
      if o !in ops { GoneIsIdle(ops, es[0], o); }
    }
  }

  lemma RemainingAtMost(ops: Queue, o: nat)
    requires Kept(ops)
    ensures Remaining(ops, o) <= MAX_ATTEMPTS && (o in ops ==> 0 <= ops[o].attempts)
  {
  }

  lemma GoneIsIdle(ops: Queue, e: Event, o: nat)
    requires LegalEvent(ops, e) && o !in ops && (e.Queued? ==> e.o != o)
    ensures Remaining(ops, o) == 0 && Remaining(AfterEvent(ops, e), o) == 0
    ensures !(e.Took? && e.turn.o == o)
  {
    hide Backoff;
  }

  // A parked operation is never selected again.
  lemma {:induction false} ParkedIsNeverSelected(ops: Queue, es: seq<Event>, o: nat, i: nat)
    requires Kept(ops) && LegalLife(ops, es, o) && o in ops && ops[o].attempts > MAX_ATTEMPTS && i < |es|
    ensures es[i].Took? ==> es[i].turn.o != o
    decreases |es|
  {
    hide LegalEvent, Backoff, Measure;
    ParkedStays(ops, es[0], o);
    if i > 0 {
      var next := AfterEvent(ops, es[0]);
      EventKeeps(ops, es[0], o);
      if o in next {
        ParkedIsNeverSelected(next, es[1..], o, i - 1);
      } else {
        GoneIsNeverSelected(next, es[1..], o, i - 1);
      }
    }
  }

  lemma ParkedStays(ops: Queue, e: Event, o: nat)
    requires Kept(ops) && LegalEvent(ops, e) && o in ops && ops[o].attempts > MAX_ATTEMPTS && (e.Queued? ==> e.o != o)
    ensures e.Took? ==> e.turn.o != o
    ensures o in AfterEvent(ops, e) ==> AfterEvent(ops, e)[o] == ops[o]
  {
    hide Backoff;
  }

  lemma {:induction false} GoneIsNeverSelected(ops: Queue, es: seq<Event>, o: nat, i: nat)
    requires Kept(ops) && LegalLife(ops, es, o) && o !in ops && i < |es|
    ensures es[i].Took? ==> es[i].turn.o != o
    decreases |es|
  {
    hide Backoff, Measure;
    if i > 0 {
      EventKeeps(ops, es[0], o);
      GoneIsNeverSelected(AfterEvent(ops, es[0]), es[1..], o, i - 1);
    }
  }

  // ---- what an execution may do to the queue ---------------------------------------------

  // No operation queues or reschedules another one: it only drops some, with their items.
  lemma ExecutionOnlyDrops(w: World, id: nat, op: Operation, a: Answers, now: int)
    requires id in w.db.items
    ensures var after := Run(w, ExecEffect(w, id, op, a, now).acts).db;
      after.nextOp == w.db.nextOp && forall o :: o in after.ops ==> o in w.db.ops && after.ops[o] == w.db.ops[o]
  {
    hide ExecEffect, Run;
    EffectIgnoresQueue(w, w, id, op, a, now);
    OpsShrink(w, ExecEffect(w, id, op, a, now).acts);
  }

  // With due times in the order of the ids the operations are selected oldest first.
  lemma OldestFirst(ops: Queue, now: int, o: nat)
    requires o in ops && (forall p :: p in ops ==> o <= p && ops[p].due <= now)
    requires forall p, q :: p in ops && q in ops && p <= q ==> ops[p].due <= ops[q].due
    ensures IsNextDue(ops, now, Some(o))
  {
  }
}
