/** The sliding-window rate limiter over a Redis sorted set (internal/ratelimit/limiter.go).

    Times are nanoseconds. A member is the nanosecond of its request, and its score the microsecond. */
module Limiter {
  import opened Wrappers

  const WINDOW_US := 1_000_000
  const TTL_NS := 2_000_000_000

  function Score(ns: int): int {
    ns / 1000
  }

  /** UnixMicro of one second before `now`: scores up to and including it are pruned. */
  function Cutoff(now: int): int {
    Score(now) - WINDOW_US
  }

  /** One key: its members and when EXPIRE removes it. */
  datatype ZSet = ZSet(members: set<int>, expires: int)

  const ABSENT: ZSet := ZSet({}, 0)

  function Present(z: ZSet, now: int): set<int> {
    if z.expires <= now then {} else z.members
  }

  function Pruned(members: set<int>, cutoff: int): set<int> {
    set m | m in members && Score(m) > cutoff
  }

  /** ZREMRANGEBYSCORE, ZCARD, ZADD, EXPIRE. */
  function Called(z: ZSet, now: int, limit: int): (ZSet, bool) {
    var kept := Pruned(Present(z, now), Cutoff(now));
    (ZSet(kept + {now}, now + TTL_NS), |kept| < limit)
  }

  datatype Request = Request(at: int, limit: int)

  function CalledAll(rs: seq<Request>): (r: (ZSet, seq<bool>))
    ensures |r.1| == |rs|
  {
    if rs == [] then (ABSENT, [])
    else
      var (z, answers) := CalledAll(rs[..|rs| - 1]);
      var (z', answer) := Called(z, rs[|rs| - 1].at, rs[|rs| - 1].limit);
      (z', answers + [answer])
  }

  // ---- The reference: a limiter that keeps the whole history ----

  /** How many requests, denied ones included, have a score above the cutoff. */
  function CountAfter(rs: seq<Request>, cutoff: int): nat {
    if rs == [] then 0
    else CountAfter(rs[..|rs| - 1], cutoff) + if Score(rs[|rs| - 1].at) > cutoff then 1 else 0
  }

  function Answer(before: seq<Request>, r: Request): bool {
    CountAfter(before, Cutoff(r.at)) < r.limit
  }

  /** The clock moves forward and no two requests share a nanosecond. */
  predicate Increasing(rs: seq<Request>) {
    forall i, j :: 0 <= i < j < |rs| ==> rs[i].at < rs[j].at
  }

  function Recent(rs: seq<Request>, cutoff: int): set<int> {
    if rs == [] then {}
    else
      var last := rs[|rs| - 1].at;
      Recent(rs[..|rs| - 1], cutoff) + if Score(last) > cutoff then {last} else {}
  }

  lemma {:induction false} RecentAreBefore(rs: seq<Request>, cutoff: int, m: int)
    requires Increasing(rs) && m in Recent(rs, cutoff)
    ensures rs != [] && m <= rs[|rs| - 1].at
    decreases |rs|
  {
    if m in Recent(rs[..|rs| - 1], cutoff) { RecentAreBefore(rs[..|rs| - 1], cutoff, m); }
  }

  lemma {:induction false} RecentCount(rs: seq<Request>, cutoff: int)
    requires Increasing(rs)
    ensures |Recent(rs, cutoff)| == CountAfter(rs, cutoff)
    decreases |rs|
  {
    if rs != [] {
      var n := |rs| - 1;
      RecentCount(rs[..n], cutoff);
      if rs[n].at in Recent(rs[..n], cutoff) { RecentAreBefore(rs[..n], cutoff, rs[n].at); }
    }
  }

  lemma {:induction false} PruneRecent(rs: seq<Request>, from: int, cutoff: int)
    requires from <= cutoff
    ensures Pruned(Recent(rs, from), cutoff) == Recent(rs, cutoff)
    decreases |rs|
  {
    if rs != [] { PruneRecent(rs[..|rs| - 1], from, cutoff); }
  }

  lemma {:induction false} NoneRecent(rs: seq<Request>, cutoff: int)
    requires Increasing(rs) && (rs != [] ==> Score(rs[|rs| - 1].at) <= cutoff)
    ensures Recent(rs, cutoff) == {}
    decreases |rs|
  {
    if rs != [] { NoneRecent(rs[..|rs| - 1], cutoff); }
  }

  predicate Holds(rs: seq<Request>, z: ZSet) {
    if rs == [] then z == ABSENT
    else var last := rs[|rs| - 1].at; z == ZSet(Recent(rs, Cutoff(last)), last + TTL_NS)
  }

  /** Pruning what is left of the key, expired or not, leaves what the history holds in the new window. */
  lemma PruningIsExact(before: seq<Request>, z: ZSet, now: int)
    requires Increasing(before) && (before != [] ==> before[|before| - 1].at < now)
    requires Holds(before, z)
    ensures Pruned(Present(z, now), Cutoff(now)) == Recent(before, Cutoff(now))
  {
    if before != [] {
      if z.expires <= now {
        NoneRecent(before, Cutoff(now));
      } else {
        PruneRecent(before, Cutoff(before[|before| - 1].at), Cutoff(now));
      }
    }
  }

  lemma CallRefines(rs: seq<Request>, z: ZSet)
    requires rs != [] && Increasing(rs) && Holds(rs[..|rs| - 1], z)
    ensures var (before, r) := (rs[..|rs| - 1], rs[|rs| - 1]);
      Holds(rs, Called(z, r.at, r.limit).0) && Called(z, r.at, r.limit).1 == Answer(before, r)
  {
    var before, r := rs[..|rs| - 1], rs[|rs| - 1];
    PruningIsExact(before, z, r.at);
    RecentCount(before, Cutoff(r.at));
  }

  lemma {:induction false} KeyHolds(rs: seq<Request>)
    requires Increasing(rs)
    ensures Holds(rs, CalledAll(rs).0)
    decreases |rs|
  {
    if rs != [] {
      KeyHolds(rs[..|rs| - 1]);
      CallRefines(rs, CalledAll(rs[..|rs| - 1]).0);
    }
  }

  lemma LastAnswer(rs: seq<Request>)
    requires rs != [] && Increasing(rs)
    ensures CalledAll(rs).1[|rs| - 1] == Answer(rs[..|rs| - 1], rs[|rs| - 1])
  {
    KeyHolds(rs[..|rs| - 1]);
    CallRefines(rs, CalledAll(rs[..|rs| - 1]).0);
  }

  /** Later calls do not change earlier answers. */
  lemma {:induction false} AnswersStay(rs: seq<Request>, k: nat)
    requires k < |rs|
    ensures CalledAll(rs).1[k] == CalledAll(rs[..k + 1]).1[k]
    decreases |rs|
  {
    if k + 1 < |rs| {
      AnswersStay(rs[..|rs| - 1], k);
      assert rs[..|rs| - 1][..k + 1] == rs[..k + 1];
    } else {
      assert rs[..k + 1] == rs;
    }
  }

  /** Limiter refinement: after every call the set holds exactly the requests with a score above now minus one
      second, and every answer, whatever the two-second expiry removed, is that of a limiter that keeps the full
      history. */
  lemma Refines(rs: seq<Request>, k: nat)
    requires Increasing(rs) && k < |rs|
    ensures CalledAll(rs).0.members == Recent(rs, Cutoff(rs[|rs| - 1].at))
    ensures CalledAll(rs).1[k] == Answer(rs[..k], rs[k])
  {
    KeyHolds(rs);
    AnswersStay(rs, k);
    LastAnswer(rs[..k + 1]);
    assert rs[..k + 1][..k] == rs[..k];
  }

  // ---- The rate bound ----

  /** How many allowed requests have a score in the second after `from`. */
  function AllowedIn(rs: seq<Request>, from: int): nat {
    if rs == [] then 0
    else
      var n := |rs| - 1;
      AllowedIn(rs[..n], from)
        + if CalledAll(rs).1[n] && from < Score(rs[n].at) <= from + WINDOW_US then 1 else 0
  }

  predicate Fixed(rs: seq<Request>, limit: int) {
    forall i :: 0 <= i < |rs| ==> rs[i].limit == limit
  }

  lemma {:induction false} AllowedAreRecorded(rs: seq<Request>, from: int, cutoff: int)
    requires cutoff <= from
    ensures AllowedIn(rs, from) <= CountAfter(rs, cutoff)
    decreases |rs|
  {
    if rs != [] { AllowedAreRecorded(rs[..|rs| - 1], from, cutoff); }
  }

  /** Every one-second window of scores, anywhere in an unbounded history, contains at most `limit` allowed
      requests. */
  lemma {:induction false} RateBound(rs: seq<Request>, limit: nat, from: int)
    requires Increasing(rs) && Fixed(rs, limit)
    ensures AllowedIn(rs, from) <= limit
    decreases |rs|
  {
    if rs != [] {
      var n := |rs| - 1;
      RateBound(rs[..n], limit, from);
      Refines(rs, n);
      if CalledAll(rs).1[n] && from < Score(rs[n].at) <= from + WINDOW_US {
        AllowedAreRecorded(rs[..n], from, Cutoff(rs[n].at));
      }
    }
  }

  /** How many allowed requests fall in the closed interval of nanoseconds. */
  function AllowedBetween(rs: seq<Request>, first: int, last: int): nat {
    if rs == [] then 0
    else
      var n := |rs| - 1;
      AllowedBetween(rs[..n], first, last) + if CalledAll(rs).1[n] && first <= rs[n].at <= last then 1 else 0
  }

  lemma {:induction false} BetweenIsIn(rs: seq<Request>, first: int, last: int)
    requires last - first <= 999_999_000
    ensures AllowedBetween(rs, first, last) <= AllowedIn(rs, Score(first) - 1)
    decreases |rs|
  {
    if rs != [] { BetweenIsIn(rs[..|rs| - 1], first, last); }
  }

  predicate BoundedIn(rs: seq<Request>, limit: nat, first: int, span: nat) {
    Increasing(rs) && Fixed(rs, limit) ==> AllowedBetween(rs, first, first + span) <= limit
  }

  /** In real time the bound holds for every interval up to 999 999 000 ns and for no longer one: scores are
      microseconds and the window's lower end is excluded, so two requests 999 999 001 ns apart may both pass a
      limit of one. */
  lemma NanosecondBound(span: nat)
    ensures span <= 999_999_000 <==> forall rs, limit: nat, first :: BoundedIn(rs, limit, first, span)
  {
    if span <= 999_999_000 {
      forall rs, limit: nat, first ensures BoundedIn(rs, limit, first, span) {
        if Increasing(rs) && Fixed(rs, limit) {
          BetweenIsIn(rs, first, first + span);
          RateBound(rs, limit, Score(first) - 1);
        }
      }
    } else {
      BothPass(Request(999, 1), Request(1_000_000_000, 1), span);
    }
  }

  lemma OnePasses(a: Request)
    requires a.limit == 1
    ensures CalledAll([a]).1[0]
  {
    assert [a][..0] == [];
    LastAnswer([a]);
  }

  lemma SecondPasses(a: Request, b: Request)
    requires a.limit == 1 && b.limit == 1 && a.at < b.at && Score(a.at) <= Cutoff(b.at)
    ensures CalledAll([a, b]).1[1]
  {
    assert [a, b][..1] == [a] && [a][..0] == [];
    LastAnswer([a, b]);
    assert CountAfter([a], Cutoff(b.at)) == 0;
  }

  lemma BothPass(a: Request, b: Request, span: nat)
    requires a.limit == 1 && b.limit == 1 && a.at < b.at <= a.at + span && Score(a.at) <= Cutoff(b.at)
    ensures !BoundedIn([a, b], 1, a.at, span)
  {
    assert [a, b][..1] == [a] && [a][..0] == [];
    OnePasses(a);
    SecondPasses(a, b);
    assert AllowedBetween([a], a.at, a.at + span) == 1;
  }

  // ---- A clock that may repeat ----

  /** The clock does not go back. */
  predicate NonDecreasing(rs: seq<Request>) {
    forall i, j :: 0 <= i < j < |rs| ==> rs[i].at <= rs[j].at
  }

  lemma {:induction false} NoneRecentAnymore(rs: seq<Request>, cutoff: int)
    requires NonDecreasing(rs) && (rs != [] ==> Score(rs[|rs| - 1].at) <= cutoff)
    ensures Recent(rs, cutoff) == {} && CountAfter(rs, cutoff) == 0
    decreases |rs|
  {
    if rs != [] { NoneRecentAnymore(rs[..|rs| - 1], cutoff); }
  }

  lemma {:induction false} EmptyWindow(rs: seq<Request>, cutoff: int)
    ensures Recent(rs, cutoff) == {} <==> CountAfter(rs, cutoff) == 0
    decreases |rs|
  {
    if rs != [] { EmptyWindow(rs[..|rs| - 1], cutoff); }
  }

  /** What is left of the key is still what the history holds; only its size may be smaller than the count. */
  lemma RepeatedPruning(before: seq<Request>, z: ZSet, now: int)
    requires NonDecreasing(before) && (before != [] ==> before[|before| - 1].at <= now) && Holds(before, z)
    ensures Pruned(Present(z, now), Cutoff(now)) == Recent(before, Cutoff(now))
  {
    if before != [] {
      if z.expires <= now {
        NoneRecentAnymore(before, Cutoff(now));
      } else {
        PruneRecent(before, Cutoff(before[|before| - 1].at), Cutoff(now));
      }
    }
  }

  lemma {:induction false} RepeatedKeyHolds(rs: seq<Request>)
    requires NonDecreasing(rs)
    ensures Holds(rs, CalledAll(rs).0)
    decreases |rs|
  {
    if rs != [] {
      RepeatedKeyHolds(rs[..|rs| - 1]);
      RepeatedPruning(rs[..|rs| - 1], CalledAll(rs[..|rs| - 1]).0, rs[|rs| - 1].at);
    }
  }

  /** With a limit of at most one, an allowed request finds an empty window, whatever shares its nanosecond. */
  lemma AloneIfAllowed(rs: seq<Request>, limit: nat)
    requires NonDecreasing(rs) && rs != [] && Fixed(rs, limit) && limit <= 1 && CalledAll(rs).1[|rs| - 1]
    ensures limit == 1 && CountAfter(rs[..|rs| - 1], Cutoff(rs[|rs| - 1].at)) == 0
  {
    var before, now := rs[..|rs| - 1], rs[|rs| - 1].at;
    RepeatedKeyHolds(before);
    RepeatedPruning(before, CalledAll(before).0, now);
    EmptyWindow(before, Cutoff(now));
  }

  lemma {:induction false} SmallLimitBound(rs: seq<Request>, limit: nat, from: int)
    requires NonDecreasing(rs) && Fixed(rs, limit) && limit <= 1
    ensures AllowedIn(rs, from) <= limit
    decreases |rs|
  {
    if rs != [] {
      var n := |rs| - 1;
      SmallLimitBound(rs[..n], limit, from);
      if CalledAll(rs).1[n] && from < Score(rs[n].at) <= from + WINDOW_US {
        AloneIfAllowed(rs, limit);
        AllowedAreRecorded(rs[..n], from, Cutoff(rs[n].at));
      }
    }
  }

  /** Requests in one nanosecond share a member, so all of them pass a limit of two or more. */
  lemma {:induction false} OneNanosecond(at: int, limit: nat, n: nat)
    requires limit >= 2
    ensures var rs := seq(n, _ => Request(at, limit));
      && (forall k :: 0 <= k < n ==> CalledAll(rs).1[k])
      && CalledAll(rs).0.members <= {at} && (n > 0 ==> CalledAll(rs).0.expires > at)
    ensures AllowedIn(seq(n, _ => Request(at, limit)), Score(at) - 1) == n
    decreases n
  {
    if n > 0 {
      var rs := seq(n, _ => Request(at, limit));
      OneNanosecond(at, limit, n - 1);
      assert rs[..n - 1] == seq(n - 1, _ => Request(at, limit));
      var kept := Pruned(Present(CalledAll(rs[..n - 1]).0, at), Cutoff(at));
      assert kept == {} || kept == {at};
    }
  }

  predicate RepeatedBoundIn(rs: seq<Request>, limit: nat, from: int) {
    NonDecreasing(rs) && Fixed(rs, limit) ==> AllowedIn(rs, from) <= limit
  }

  /** When requests may share a nanosecond, the rate bound holds for every history if and only if the limit is at most
      one. */
  lemma RepeatedClockBound(limit: nat)
    ensures limit <= 1 <==> forall rs, from :: RepeatedBoundIn(rs, limit, from)
  {
    if limit <= 1 {
      forall rs, from ensures RepeatedBoundIn(rs, limit, from) {
        if NonDecreasing(rs) && Fixed(rs, limit) { SmallLimitBound(rs, limit, from); }
      }
    } else {
      OneNanosecond(0, limit, limit + 1);
      assert !RepeatedBoundIn(seq(limit + 1, _ => Request(0, limit)), limit, Score(0) - 1);
    }
  }

  // ---- The key expires ----

  /** Two seconds after a call its key is gone, and not before. */
  lemma IdleKeyIsGoneIff(z: ZSet, now: int, limit: int, later: int)
    ensures Present(Called(z, now, limit).0, later) == {} <==> later >= now + 2_000_000_000
  {
    assert now in Called(z, now, limit).0.members;
  }

  // ---- The limiter object ----

  class RateLimiter {
    var keys: map<string, ZSet>

    constructor ()
      ensures keys == map[]
    {
      keys := map[];
    }

    ghost function Key(projectID: string): ZSet reads this {
      if projectID in keys then keys[projectID] else ABSENT
    }

    /** On a Redis failure the request is let through. */
    method Allow(projectID: string, now: int, limit: int, redisOk: bool) returns (allowed: bool, failed: bool)
      modifies this
      ensures failed == !redisOk
      ensures failed ==> allowed && keys == old(keys)
      ensures !failed ==> (Key(projectID), allowed) == Called(old(Key(projectID)), now, limit)
      ensures forall p :: p != projectID ==> Key(p) == old(Key(p))
    {
      if !redisOk {
        return true, true;
      }
      var windowStart := Score(now) - 1_000_000;
      var members := if projectID in keys && keys[projectID].expires > now then keys[projectID].members else {};
      members := set m | m in members && Score(m) > windowStart;
      var count := |members|;
      members := members + {now};
      keys := keys[projectID := ZSet(members, now + 2_000_000_000)];
      return count < limit, false;
    }
  }
}
