// The loops around a single Drive request: `with_retry` (src/drive/http.rs) and the pages of
// `list_children` (src/drive/metadata.rs).
module Requests {
  import opened Tables

  const MAX_ATTEMPTS := 6
  const INITIAL_BACKOFF_MS := 1000
  const MAX_BACKOFF_MS := 16000

  // How one attempt ends; `is_transient` separates the two failures.
  datatype Attempt = Answered | Transient | Fatal

  predicate Ends(a: Attempt) { !a.Transient? }

  // The nominal delay before retry number k, counted from zero.
  function Nominal(k: nat): nat {
    if k == 0 then INITIAL_BACKOFF_MS
    else if 2 * Nominal(k - 1) < MAX_BACKOFF_MS then 2 * Nominal(k - 1) else MAX_BACKOFF_MS
  }

  function NominalSum(n: nat): nat {
    if n == 0 then 0 else NominalSum(n - 1) + Nominal(n - 1)
  }

  predicate WithinJitter(delay: int, base: nat) { 4 * base <= 5 * delay <= 6 * base }

  // `jittered`, with the random draw as a parameter.
  function Jittered(base: nat, draw: int): int {
    if base + draw > 0 then base + draw else 0
  }

  lemma JitterIsBounded(base: nat, draw: int)
    requires -(base / 5) <= draw <= base / 5
    ensures WithinJitter(Jittered(base, draw), base)
  {
  }

  lemma NothingSlept()
    ensures WithinJitter(0, NominalSum(0))
  {
  }

  lemma SleepsAdd(slept: int, n: nat, more: int)
    requires WithinJitter(slept, NominalSum(n)) && WithinJitter(more, Nominal(n))
    ensures WithinJitter(slept + more, NominalSum(n + 1))
  {
  }

  // The first answer or fatal error ends it, and the sixth attempt does in any case; what was slept
  // in between stays within a fifth of the doubling delays.
  method WithRetry(outcome: nat -> Attempt, draw: nat -> int) returns (ok: bool, attempts: nat, slept: int)
    requires forall k: nat :: k < MAX_ATTEMPTS ==> -(Nominal(k) / 5) <= draw(k) <= Nominal(k) / 5
    ensures 1 <= attempts <= MAX_ATTEMPTS
    ensures forall k :: 0 <= k < attempts - 1 ==> outcome(k).Transient?
    ensures Ends(outcome(attempts - 1)) || attempts == MAX_ATTEMPTS
    ensures ok <==> outcome(attempts - 1).Answered?
    ensures WithinJitter(slept, NominalSum(attempts - 1))
  {
    hide WithinJitter, NominalSum, Jittered;
    NothingSlept();
    var delay := INITIAL_BACKOFF_MS;
    attempts, slept := 0, 0;
    while true
      invariant 0 <= attempts < MAX_ATTEMPTS && delay == Nominal(attempts)
      invariant forall k :: 0 <= k < attempts ==> outcome(k).Transient?
      invariant WithinJitter(slept, NominalSum(attempts))
      decreases MAX_ATTEMPTS - attempts
    {
      var result := outcome(attempts);
      if result.Transient? && attempts + 1 < MAX_ATTEMPTS {
        JitterIsBounded(delay, draw(attempts));
        SleepsAdd(slept, attempts, Jittered(delay, draw(attempts)));
        slept := slept + Jittered(delay, draw(attempts));
        delay := if 2 * delay < MAX_BACKOFF_MS then 2 * delay else MAX_BACKOFF_MS;
        attempts := attempts + 1;
      } else {
        attempts := attempts + 1;
        return result.Answered?, attempts, slept;
      }
    }
  }

  // One request never waits longer than 37.2 seconds in all.
  lemma {:induction false} RetriesAreShort(n: nat, slept: int)
    requires n < MAX_ATTEMPTS && WithinJitter(slept, NominalSum(n))
    ensures NominalSum(n) <= 31000 && slept <= 37200
  {
    assert Nominal(0) == 1000;
    assert Nominal(1) == 2000;
    assert Nominal(2) == 4000;
    assert Nominal(3) == 8000;
    assert Nominal(4) == 16000;
    assert NominalSum(1) == 1000;
    assert NominalSum(2) == 3000;
    assert NominalSum(3) == 7000;
    assert NominalSum(4) == 15000;
    assert NominalSum(5) == 31000;
  }

  // ---- listing a folder ------------------------------------------------------------------

  // One `files.list` answer; a body without the `files` array is an error.
  datatype ListReply = Body(files: Option<seq<string>>, next: Option<string>) | NoReply

  predicate HasNext(r: ListReply) { r.Body? && r.next.Some? && r.next.value != "" }

  function Listed(replies: seq<ListReply>): Option<seq<string>>
    decreases |replies|
  {
    if replies == [] || replies[0].NoReply? || replies[0].files.None? then None
    else if !HasNext(replies[0]) then replies[0].files
    else
      match Listed(replies[1..])
      case None => None
      case Some(rest) => Some(replies[0].files.value + rest)
  }

  method ListChildren(replies: seq<ListReply>) returns (r: Option<seq<string>>)
    ensures r == Listed(replies)
  {
    var out: seq<string> := [];
    assert replies[0..] == replies && forall rest: seq<string> :: [] + rest == rest;
    for k := 0 to |replies|
      invariant Listed(replies) == match Listed(replies[k..]) case None => None case Some(rest) => Some(out + rest)
    {
      assert replies[k..][0] == replies[k] && replies[k..][1..] == replies[k + 1..];
      if replies[k].NoReply? || replies[k].files.None? { return None; }
      ghost var before := out;
      var more := replies[k].files.value;
      out := out + more;
      forall rest: seq<string> ensures before + (more + rest) == out + rest {}
      if !HasNext(replies[k]) { return Some(out); }
    }
    return None;
  }

  // The replies page through a listing.
  ghost predicate Pages(all: seq<string>, at: nat, replies: seq<ListReply>)
    decreases |replies|
  {
    && replies != [] && replies[0].Body? && replies[0].files.Some?
    && var end := at + |replies[0].files.value|;
       && end <= |all| && replies[0].files.value == all[at..end]
       && if HasNext(replies[0]) then Pages(all, end, replies[1..]) else end == |all|
  }

  // However many pages it took, no child is missed and none is listed twice.
  lemma {:induction false} ListingIsComplete(all: seq<string>, at: nat, replies: seq<ListReply>)
    requires Pages(all, at, replies)
    ensures at <= |all| && Listed(replies) == Some(all[at..])
    decreases |replies|
  {
    var end := at + |replies[0].files.value|;
    if HasNext(replies[0]) {
      ListingIsComplete(all, end, replies[1..]);
      assert all[at..end] + all[end..] == all[at..];
    } else {
      assert all[at..end] == all[at..];
    }
  }

  // The n-th reply is the last page, and those before it lead up to it.
  predicate EndsAt(replies: seq<ListReply>, n: nat) {
    && n < |replies| && (forall k :: 0 <= k <= n ==> replies[k].Body? && replies[k].files.Some?)
    && (forall k :: 0 <= k < n ==> HasNext(replies[k])) && !HasNext(replies[n])
  }

  // The listing fails exactly if a request fails, or a page lacks its list, before a last page.
  lemma {:induction false} ListingSucceedsIff(replies: seq<ListReply>)
    ensures Listed(replies).Some? <==> exists n: nat :: EndsAt(replies, n)
    decreases |replies|
  {
    if replies != [] && replies[0].Body? && replies[0].files.Some? {
      if HasNext(replies[0]) {
        ListingSucceedsIff(replies[1..]);
        if n: nat :| EndsAt(replies[1..], n) {
          forall k | 0 <= k <= n + 1
            ensures replies[k].Body? && replies[k].files.Some? && (k <= n ==> HasNext(replies[k]))
          {
            if k > 0 { assert replies[1..][k - 1] == replies[k]; }
          }
          assert replies[1..][n] == replies[n + 1];
          assert EndsAt(replies, n + 1);
        }
        if n: nat :| EndsAt(replies, n) {
          assert EndsAt(replies[1..], n - 1);
        }
      } else {
        assert EndsAt(replies, 0);
      }
    }
  }
}
