// The token bucket in front of every Drive request (src/drive/http.rs), over real numbers.
module RateLimiter {
  import opened Tables

  const RATE_BURST: real := 100.0
  const RATE_REFILL_PER_SEC: real := 10.0

  datatype Bucket = Bucket(tokens: real, last: real)

  function Min(a: real, b: real): real { if a <= b then a else b }

  function Refilled(b: Bucket, now: real, capacity: real, rate: real): real {
    Min(b.tokens + Gained(now - b.last, rate), capacity)
  }

  function Gained(elapsed: real, rate: real): real { elapsed * rate }

  // One look at the bucket: a token is taken, or the time to wait for one is told.
  function Polled(b: Bucket, now: real, capacity: real, rate: real): Bucket {
    var t := Refilled(b, now, capacity, rate);
    Bucket(if t >= 1.0 then t - 1.0 else t, now)
  }

  predicate Granted(b: Bucket, now: real, capacity: real, rate: real) {
    Refilled(b, now, capacity, rate) >= 1.0
  }

  function Wait(b: Bucket, now: real, capacity: real, rate: real): real
    requires rate > 0.0
  {
    (1.0 - Refilled(b, now, capacity, rate)) / rate
  }

  class Limiter {
    const capacity: real
    const rate: real
    var tokens: real
    var last: real

    ghost predicate Valid()
      reads this
    {
      capacity >= 1.0 && rate > 0.0 && 0.0 <= tokens <= capacity
    }

    function View(): Bucket
      reads this
    {
      Bucket(tokens, last)
    }

    constructor (capacity: real, rate: real, now: real)
      requires capacity >= 1.0 && rate > 0.0
      ensures Valid() && this.capacity == capacity && this.rate == rate && View() == Bucket(capacity, now)
    {
      this.capacity, this.rate, tokens, last := capacity, rate, capacity, now;
    }

    // The critical section of `acquire`.
    method Poll(now: real) returns (wait: Option<real>)
      requires Valid() && last <= now
      modifies this
      ensures Valid() && View() == Polled(old(View()), now, capacity, rate)
      ensures wait == if Granted(old(View()), now, capacity, rate) then None
          else Some(Wait(old(View()), now, capacity, rate))
      ensures wait.Some? ==> wait.value > 0.0
    {
      hide Gained;
      var elapsed := now - last;
      RefillIsPositive(elapsed, rate);
      tokens := Min(tokens + Gained(elapsed, rate), capacity);
      last := now;
      if tokens >= 1.0 {
        tokens := tokens - 1.0;
        return None;
      }
      WaitIsPositive(1.0 - tokens, rate);
      wait := Some((1.0 - tokens) / rate);
    }

    // `acquire` with nobody else polling: it sleeps at most once, however late it wakes up.
    method Acquire(now: real, late: real) returns (at: real)
      requires Valid() && last <= now && late >= 0.0
      modifies this
      ensures Valid() && View().last == at
      ensures at == if Granted(old(View()), now, capacity, rate) then now
          else now + Wait(old(View()), now, capacity, rate) + late
      ensures Granted(old(View()), now, capacity, rate) ==> View() == Polled(old(View()), now, capacity, rate)
      ensures !Granted(old(View()), now, capacity, rate) ==>
          View() == Polled(Polled(old(View()), now, capacity, rate), at, capacity, rate)
    {
      at := now;
      ghost var slept := false;
      while true
        invariant Valid() && last <= at && 0.0 <= late
        invariant !slept ==> View() == old(View()) && at == now
        invariant slept ==> !Granted(old(View()), now, capacity, rate)
        invariant slept ==> View() == Polled(old(View()), now, capacity, rate)
        invariant slept ==> at == now + Wait(old(View()), now, capacity, rate) + late
        decreases !slept
      {
        ghost var before := View();
        var wait := Poll(at);
        match wait {
          case None => return;
          case Some(w) =>
            if slept { WaiterIsGranted(old(View()), now, at, capacity, rate); }
            at := at + w + late;
            slept := true;
        }
      }
    }
  }

  lemma RefillIsPositive(elapsed: real, rate: real)
    requires elapsed >= 0.0 && rate > 0.0
    ensures Gained(elapsed, rate) >= 0.0
  {
  }

  lemma WaitIsPositive(gap: real, rate: real)
    requires gap > 0.0 && rate > 0.0
    ensures gap / rate > 0.0
  {
    assert gap / rate * rate == gap;
  }

  // A refused waiter that polls next is granted exactly when it has waited as long as it was told.
  lemma WaiterIsGrantedIff(b: Bucket, now: real, at: real, capacity: real, rate: real)
    requires capacity >= 1.0 && rate > 0.0 && now <= at && !Granted(b, now, capacity, rate)
    ensures Granted(Polled(b, now, capacity, rate), at, capacity, rate) <==> at >= now + Wait(b, now, capacity, rate)
  {
    hide Gained;
    var t := Refilled(b, now, capacity, rate);
    GapIsClosed(at - now, 1.0 - t, rate);
    assert Polled(b, now, capacity, rate) == Bucket(t, now);
  }

  lemma GapIsClosed(elapsed: real, gap: real, rate: real)
    requires rate > 0.0
    ensures Gained(elapsed, rate) >= gap <==> elapsed >= gap / rate
  {
    var w := gap / rate;
    assert w * rate == gap;
    assert elapsed * rate - gap == (elapsed - w) * rate;
    if elapsed >= w { Product(elapsed - w, rate); } else { Product(w - elapsed, rate); }
  }

  lemma Product(x: real, rate: real)
    requires x >= 0.0 && rate > 0.0
    ensures x * rate >= 0.0 && (x > 0.0 ==> x * rate > 0.0)
  {
  }

  lemma WaiterIsGranted(b: Bucket, now: real, at: real, capacity: real, rate: real)
    requires capacity >= 1.0 && rate > 0.0 && !Granted(b, now, capacity, rate) && 0.0 <= b.tokens && b.last <= now
    requires at >= now + Wait(b, now, capacity, rate)
    ensures Granted(Polled(b, now, capacity, rate), at, capacity, rate)
  {
    WaitIsPositive(1.0 - Refilled(b, now, capacity, rate), rate);
    WaiterIsGrantedIff(b, now, at, capacity, rate);
  }

  // ---- any interleaving of waiters -------------------------------------------------------

  predicate InOrder(start: real, polls: seq<real>) {
    (polls != [] ==> start <= polls[0]) && forall i, j :: 0 <= i < j < |polls| ==> polls[i] <= polls[j]
  }

  // The bucket after the first n polls.
  function AfterPolls(b: Bucket, polls: seq<real>, n: nat, capacity: real, rate: real): Bucket
    requires n <= |polls|
  {
    if n == 0 then b else Polled(AfterPolls(b, polls, n - 1, capacity, rate), polls[n - 1], capacity, rate)
  }

  predicate Grants(b: Bucket, polls: seq<real>, i: nat, capacity: real, rate: real)
    requires i < |polls|
  {
    Granted(AfterPolls(b, polls, i, capacity, rate), polls[i], capacity, rate)
  }

  // How many of the polls i .. j-1 are granted.
  function GrantCount(b: Bucket, polls: seq<real>, i: nat, j: nat, capacity: real, rate: real): nat
    requires i <= j <= |polls|
    decreases j - i
  {
    if i == j then 0 else GrantCount(b, polls, i, j - 1, capacity, rate) + if Grants(b, polls, j - 1, capacity, rate)
        then 1 else 0
  }

  // Tokens never go below zero or above the capacity.
  lemma {:induction false} TokensStayInRange(b: Bucket, polls: seq<real>, n: nat, capacity: real, rate: real)
    requires 0.0 <= b.tokens <= capacity && rate > 0.0 && InOrder(b.last, polls) && n <= |polls|
    ensures 0.0 <= AfterPolls(b, polls, n, capacity, rate).tokens <= capacity
    ensures n > 0 ==> AfterPolls(b, polls, n, capacity, rate).last == polls[n - 1]
    ensures n < |polls| ==> AfterPolls(b, polls, n, capacity, rate).last <= polls[n]
  {
    hide Gained;
    if n > 0 {
      TokensStayInRange(b, polls, n - 1, capacity, rate);
      RefillIsPositive(polls[n - 1] - AfterPolls(b, polls, n - 1, capacity, rate).last, rate);
    }
  }

  // Tokens are spent one per grant and come back at the refill rate.
  lemma {:induction false} TokenBalance(b: Bucket, polls: seq<real>, i: nat, j: nat, capacity: real, rate: real)
    requires 0.0 <= b.tokens <= capacity && rate > 0.0 && InOrder(b.last, polls) && i < j <= |polls|
    ensures AfterPolls(b, polls, j, capacity, rate).tokens + GrantCount(b, polls, i + 1, j, capacity, rate) as real
         <= AfterPolls(b, polls, i + 1, capacity, rate).tokens + Gained(polls[j - 1] - polls[i], rate)
    decreases j
  {
    hide InOrder, Gained, AfterPolls, Polled;
    if j > i + 1 {
      TokenBalance(b, polls, i, j - 1, capacity, rate);
      OnePollSpends(b, polls, j - 1, capacity, rate);
      TokensStayInRange(b, polls, j - 1, capacity, rate);
      Spread(rate, polls[i], polls[j - 2], polls[j - 1]);
    } else {
      Spread(rate, polls[i], polls[i], polls[i]);
    }
  }

  lemma OnePollSpends(b: Bucket, polls: seq<real>, n: nat, capacity: real, rate: real)
    requires n < |polls|
    ensures var before, after := AfterPolls(b, polls, n, capacity, rate), AfterPolls(b, polls, n + 1, capacity, rate);
      after.tokens + (if Grants(b, polls, n, capacity, rate) then 1.0 else 0.0) <= before.tokens +
          Gained(polls[n] - before.last, rate)
  {
    hide Gained;
  }

  lemma Spread(rate: real, r: real, s: real, t: real)
    ensures Gained(s - r, rate) + Gained(t - s, rate) == Gained(t - r, rate)
  {
  }

  // Between two grants, both counted, no more requests go out than the burst plus what the refill
  // rate yields in the time between them.
  lemma GrantsAreBounded(b: Bucket, polls: seq<real>, i: nat, j: nat, capacity: real, rate: real)
    requires 0.0 <= b.tokens <= capacity && rate > 0.0 && InOrder(b.last, polls) && i <= j < |polls|
    requires Grants(b, polls, i, capacity, rate) && Grants(b, polls, j, capacity, rate)
    ensures GrantCount(b, polls, i, j + 1, capacity, rate) as real <= capacity + Gained(polls[j] - polls[i], rate)
  {
    hide InOrder, Grants, GrantCount, AfterPolls, Gained;
    TokenBalance(b, polls, i, j + 1, capacity, rate);
    TokensStayInRange(b, polls, j + 1, capacity, rate);
    SpentAt(b, polls, i, capacity, rate);
    CountFrom(b, polls, i, j + 1, capacity, rate);
  }

  lemma SpentAt(b: Bucket, polls: seq<real>, i: nat, capacity: real, rate: real)
    requires i < |polls| && Grants(b, polls, i, capacity, rate)
    ensures AfterPolls(b, polls, i + 1, capacity, rate).tokens <= capacity - 1.0
  {
  }

  lemma {:induction false} CountFrom(b: Bucket, polls: seq<real>, i: nat, j: nat, capacity: real, rate: real)
    requires i < j <= |polls| && Grants(b, polls, i, capacity, rate)
    ensures GrantCount(b, polls, i, j, capacity, rate) == 1 + GrantCount(b, polls, i + 1, j, capacity, rate)
    decreases j
  {
    hide Grants;
    if j > i + 1 {
      CountFrom(b, polls, i, j - 1, capacity, rate);
    } else {
      assert GrantCount(b, polls, i, i, capacity, rate) == 0;
    }
  }

  // ... with the daemon's constants.
  lemma DriveQuota(polls: seq<real>, start: real, i: nat, j: nat)
    requires InOrder(start, polls) && i <= j < |polls|
    requires var b := Bucket(RATE_BURST, start);
      Grants(b, polls, i, RATE_BURST, RATE_REFILL_PER_SEC) && Grants(b, polls, j, RATE_BURST, RATE_REFILL_PER_SEC)
    ensures GrantCount(Bucket(RATE_BURST, start), polls, i, j + 1, RATE_BURST, RATE_REFILL_PER_SEC) as real
      <= 100.0 + 10.0 * (polls[j] - polls[i])
  {
    hide InOrder, Grants, GrantCount;
    GrantsAreBounded(Bucket(RATE_BURST, start), polls, i, j, RATE_BURST, RATE_REFILL_PER_SEC);
  }

  // The limiter is not stricter than that: from a full bucket a whole burst is granted, whenever
  // its requests come.
  lemma {:induction false} BurstIsGranted(polls: seq<real>, start: real, i: nat, capacity: real, rate: real)
    requires InOrder(start, polls) && i < |polls| && rate > 0.0 && (i + 1) as real <= capacity
    ensures Grants(Bucket(capacity, start), polls, i, capacity, rate)
    ensures AfterPolls(Bucket(capacity, start), polls, i + 1, capacity, rate).tokens >= capacity - (i + 1) as real
  {
    var b := Bucket(capacity, start);
    hide Gained;
    if i > 0 { BurstIsGranted(polls, start, i - 1, capacity, rate); }
    TokensStayInRange(b, polls, i, capacity, rate);
    RefillIsPositive(polls[i] - AfterPolls(b, polls, i, capacity, rate).last, rate);
  }
}
