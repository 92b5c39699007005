/** The nonce counter of a relayer wallet (internal/nonce/manager.go): one Redis key, INCR, SET and GET.

    `offset` is what SyncFromChain adds to the chain's pending nonce. The code adds SEED_OFFSET; its comment and
    the tests describe the results of adding nothing. */
module Nonce {
  import opened Wrappers

  const MAX64 := 0x7fff_ffff_ffff_ffff
  const UINT64_LIMIT := 0x1_0000_0000_0000_0000
  const SEED_OFFSET: nat := 1

  /** A command, with the worker that sends it; Expire is Redis dropping the key after 24 hours. */
  datatype Action = Next(w: nat) | Peek(w: nat) | Sync(w: nat, pending: nat) | Expire

  datatype Answer = Issued(w: nat, nonce: nat) | Peeked(nonce: nat) | Failed | Quiet

  /** INCR counts from 0 if the key is missing and fails on a value that would leave the int64 range; the result
      is the value after the increment, less one. */
  function Incremented(c: Option<nat>): (Option<nat>, Option<nat>) {
    var v := if c.Some? then c.value else 0;
    if v + 1 > MAX64 then (c, None) else (Some(v + 1), Some(v))
  }

  function PeekedValue(c: Option<nat>): nat {
    if c.None? || c.value == 0 then 0 else c.value - 1
  }

  function Seeded(offset: nat, pending: nat): nat {
    (pending + offset) % UINT64_LIMIT
  }

  function Step(offset: nat, c: Option<nat>, a: Action): (Option<nat>, Answer) {
    match a
    case Next(w) =>
      var (c', r) := Incremented(c);
      (c', if r.Some? then Issued(w, r.value) else Failed)
    case Peek(_) => (c, Peeked(PeekedValue(c)))
    case Sync(_, pending) => (Some(Seeded(offset, pending)), Quiet)
    case Expire => (None, Quiet)
  }

  function Run(offset: nat, c: Option<nat>, actions: seq<Action>): (Option<nat>, seq<Answer>)
    decreases |actions|
  {
    if actions == [] then (c, [])
    else
      var (c', x) := Step(offset, c, actions[0]);
      var (c'', xs) := Run(offset, c', actions[1..]);
      (c'', [x] + xs)
  }

  /** The nonces handed out, in order. */
  function Nonces(xs: seq<Answer>): seq<nat> {
    if xs == [] then []
    else (if xs[0].Issued? then [xs[0].nonce] else []) + Nonces(xs[1..])
  }

  /** No sync and no expiry. */
  predicate OneEpoch(actions: seq<Action>) {
    forall a :: a in actions ==> a.Next? || a.Peek?
  }

  function Nexts(actions: seq<Action>): nat {
    if actions == [] then 0 else (if actions[0].Next? then 1 else 0) + Nexts(actions[1..])
  }

  function From(base: nat, n: nat): seq<nat> {
    seq(n, i requires 0 <= i < n => base + i)
  }

  /** Where an epoch starts: a missing key counts from zero. */
  function Base(c: Option<nat>): nat {
    if c.Some? then c.value else 0
  }

  /** Within an epoch, whether it starts with a sync, a missing or an expired key, and whatever the workers interleave, the
      nonces handed out are base, base + 1, and so on: no repetition, no gap, one for each Next. */
  lemma {:induction false} EpochIsARange(offset: nat, c: Option<nat>, actions: seq<Action>)
    requires OneEpoch(actions) && Base(c) + Nexts(actions) <= MAX64
    ensures var (c', xs) := Run(offset, c, actions);
      Nonces(xs) == From(Base(c), Nexts(actions)) && c' == if Nexts(actions) == 0 then c else Some(Base(c) + Nexts(actions))
    decreases |actions|
  {
    if actions != [] {
      var (c', x) := Step(offset, c, actions[0]);
      assert forall a :: a in actions[1..] ==> a in actions;
      EpochIsARange(offset, c', actions[1..]);
      var xs := Run(offset, c', actions[1..]).1;
      assert ([x] + xs)[1..] == xs;
      if actions[0].Next? {
        assert From(Base(c), Nexts(actions)) == [Base(c)] + From(Base(c) + 1, Nexts(actions[1..]));
      }
    }
  }

  /** No two workers ever get the same nonce in an epoch. */
  lemma NoncesDistinct(offset: nat, c: Option<nat>, actions: seq<Action>)
    requires OneEpoch(actions) && Base(c) + Nexts(actions) <= MAX64
    ensures var nonces := Nonces(Run(offset, c, actions).1);
      |nonces| == Nexts(actions)
      && (forall i, j :: 0 <= i < j < |nonces| ==> nonces[i] != nonces[j])
      && forall n :: n in nonces <==> Base(c) <= n < Base(c) + Nexts(actions)
  {
    EpochIsARange(offset, c, actions);
    var nonces := From(Base(c), Nexts(actions));
    forall n ensures n in nonces <==> Base(c) <= n < Base(c) + |nonces| {
      if Base(c) <= n < Base(c) + |nonces| { assert nonces[n - Base(c)] == n; }
    }
  }

  /** After at least one Next, Peek answers the largest nonce handed out, and it changes nothing. */
  lemma PeekIsLargest(offset: nat, c: Option<nat>, actions: seq<Action>, w: nat)
    requires OneEpoch(actions) && Nexts(actions) > 0 && Base(c) + Nexts(actions) <= MAX64
    ensures var (c', xs) := Run(offset, c, actions);
      var (c'', x) := Step(offset, c', Peek(w));
      && c'' == c' && x.Peeked? && x.nonce in Nonces(xs)
      && forall n :: n in Nonces(xs) ==> n <= x.nonce
  {
    NoncesDistinct(offset, c, actions);
    EpochIsARange(offset, c, actions);
  }

  /** What a sync to p promises is that the next nonce is p. That holds exactly for an offset of zero, so not for
      the code: its first nonce is p + 1. */
  lemma FirstNonceIffNoOffset(offset: nat, c: Option<nat>, pending: nat, w: nat)
    requires pending + offset < MAX64
    ensures var nonces := Nonces(Run(offset, c, [Sync(w, pending), Next(w)]).1);
      nonces == [pending + offset] && (nonces == [pending] <==> offset == 0)
  {
    var run := [Sync(w, pending), Next(w)];
    assert run[1..] == [Next(w)];
    assert Nexts([Next(w)]) == 1 by { assert [Next(w)][1..] == []; }
    EpochIsARange(offset, Some(pending + offset), [Next(w)]);
    var xs := Run(offset, Some(pending + offset), [Next(w)]).1;
    assert Run(offset, c, run).1 == [Quiet] + xs && ([Quiet] + xs)[1..] == xs;
    assert From(pending + offset, 1) == [pending + offset];
  }

  /** The code's offset is one: after a sync to p the workers get p + 1, p + 2, and so on, and p is never used. */
  lemma CodeSkipsPending(c: Option<nat>, pending: nat, w: nat, actions: seq<Action>)
    requires OneEpoch(actions) && pending + 1 + Nexts(actions) <= MAX64
    ensures var nonces := Nonces(Run(SEED_OFFSET, c, [Sync(w, pending)] + actions).1);
      |nonces| == Nexts(actions) && forall i :: 0 <= i < |nonces| ==> nonces[i] == pending + 1 + i
  {
    var run := [Sync(w, pending)] + actions;
    assert run[0] == Sync(w, pending) && run[1..] == actions;
    EpochIsARange(SEED_OFFSET, Some(pending + 1), actions);
    var xs := Run(SEED_OFFSET, Some(pending + 1), actions).1;
    assert ([Quiet] + xs)[1..] == xs;
  }

  /** When the counter is used up: INCR fails, and changes nothing, exactly from the largest int64 on; so after a sync to p
      the first Next fails exactly if p is that large, unless the seed wrapped round to zero. */
  lemma NextFailsIff(c: Option<nat>, w: nat, pending: nat)
    requires pending < UINT64_LIMIT
    ensures var (c', x) := Step(SEED_OFFSET, c, Next(w));
      (x == Failed <==> Base(c) >= 0x7fff_ffff_ffff_ffff) && (x == Failed ==> c' == c)
    ensures var (c', x) := Step(SEED_OFFSET, Step(SEED_OFFSET, c, Sync(w, pending)).0, Next(w));
      (x == Failed <==> 0x7fff_ffff_ffff_fffe <= pending < 0xffff_ffff_ffff_ffff)
      && (pending == 0xffff_ffff_ffff_ffff ==> x == Issued(w, 0))
  {
  }

  /** What an epoch that starts with a sync to p hands out. */
  function Handed(offset: nat, p: nat, actions: seq<Action>): seq<nat> {
    Nonces(Run(offset, Some(Seeded(offset, p)), actions).1)
  }

  lemma HandedRange(offset: nat, p: nat, actions: seq<Action>)
    requires OneEpoch(actions) && p + offset + Nexts(actions) <= MAX64
    ensures forall n :: n in Handed(offset, p, actions) <==> p + offset <= n < p + offset + Nexts(actions)
  {
    NoncesDistinct(offset, Some(p + offset), actions);
  }

  /** Two epochs hand out a common nonce exactly when their ranges overlap: a sync back to a pending nonce that
      the chain has not yet seen reuses what was handed out. */
  lemma EpochsOverlapIff(offset: nat, p1: nat, first: seq<Action>, p2: nat, second: seq<Action>)
    requires OneEpoch(first) && OneEpoch(second)
    requires p1 + offset + Nexts(first) <= MAX64 && p2 + offset + Nexts(second) <= MAX64
    ensures (exists n :: n in Handed(offset, p1, first) && n in Handed(offset, p2, second))
        <==> Nexts(first) > 0 && Nexts(second) > 0 && p1 < p2 + Nexts(second) && p2 < p1 + Nexts(first)
  {
    HandedRange(offset, p1, first);
    HandedRange(offset, p2, second);
    var a, b := Handed(offset, p1, first), Handed(offset, p2, second);
    var n := if p1 < p2 then p2 + offset else p1 + offset;
    if Nexts(first) > 0 && Nexts(second) > 0 && p1 < p2 + Nexts(second) && p2 < p1 + Nexts(first) {
      assert n in a && n in b;
    }
  }

  /** Where a worker stands in ensureNonce followed by Next: it peeks, syncs if the answer was zero, and then may take a
      nonce. */
  datatype Ensure = AtPeek | AtSync | AtNext

  /** Every command of worker w is the one its ensureNonce sends next, given what it was answered. */
  predicate FollowsEnsure(w: nat, at: Ensure, actions: seq<Action>, xs: seq<Answer>)
    requires |xs| == |actions|
    decreases |actions|
  {
    if actions == [] then true
    else
      match actions[0]
      case Peek(v) =>
        if v != w then FollowsEnsure(w, at, actions[1..], xs[1..])
        else at.AtPeek? && FollowsEnsure(w, if xs[0] == Peeked(0) then AtSync else AtNext, actions[1..], xs[1..])
      case Sync(v, _) =>
        if v != w then FollowsEnsure(w, at, actions[1..], xs[1..]) else at.AtSync? && FollowsEnsure(w, AtNext, actions[1..], xs[1..])
      case Next(v) =>
        if v != w then FollowsEnsure(w, at, actions[1..], xs[1..]) else at.AtNext? && FollowsEnsure(w, AtPeek, actions[1..], xs[1..])
      case Expire => FollowsEnsure(w, at, actions[1..], xs[1..])
  }

  /** The racing run follows ensureNonce for both workers. */
  lemma RaceFollowsEnsure(pending: nat, nonce: nat, u: nat, v: nat)
    requires u != v
    ensures var run := [Peek(u), Peek(v), Sync(u, pending), Next(u), Sync(v, pending), Next(v)];
      var xs := [Peeked(0), Peeked(0), Quiet, Issued(u, nonce), Quiet, Issued(v, nonce)];
      FollowsEnsure(u, AtPeek, run, xs) && FollowsEnsure(v, AtPeek, run, xs)
  {
    var run := [Peek(u), Peek(v), Sync(u, pending), Next(u), Sync(v, pending), Next(v)];
    var xs := [Peeked(0), Peeked(0), Quiet, Issued(u, nonce), Quiet, Issued(v, nonce)];
    assert run[1..][1..] == [Sync(u, pending), Next(u), Sync(v, pending), Next(v)];
    assert xs[1..][1..] == [Quiet, Issued(u, nonce), Quiet, Issued(v, nonce)];
    RaceEnds(pending, nonce, u, v, u);
    RaceEnds(pending, nonce, u, v, v);
  }

  lemma RaceEnds(pending: nat, nonce: nat, u: nat, v: nat, w: nat)
    requires u != v && (w == u || w == v)
    ensures FollowsEnsure(w, AtSync, [Sync(u, pending), Next(u), Sync(v, pending), Next(v)],
                          [Quiet, Issued(u, nonce), Quiet, Issued(v, nonce)])
  {
    var run, xs := [Sync(u, pending), Next(u), Sync(v, pending), Next(v)], [Quiet, Issued(u, nonce), Quiet, Issued(v, nonce)];
    assert run[1..] == [Next(u), Sync(v, pending), Next(v)] && xs[1..] == [Issued(u, nonce), Quiet, Issued(v, nonce)];
    assert run[1..][1..] == [Sync(v, pending), Next(v)] && xs[1..][1..] == [Quiet, Issued(v, nonce)];
    assert run[1..][1..][1..] == [Next(v)] && xs[1..][1..][1..] == [Issued(v, nonce)];
    assert run[1..][1..][1..][1..] == [] && xs[1..][1..][1..][1..] == [];
    assert FollowsEnsure(w, AtPeek, [], []) && FollowsEnsure(w, AtNext, [], []);
    if w == u {
      assert FollowsEnsure(u, AtPeek, [Next(v)], [Issued(v, nonce)]);
      assert FollowsEnsure(u, AtPeek, [Sync(v, pending), Next(v)], [Quiet, Issued(v, nonce)]);
      assert FollowsEnsure(u, AtNext, run[1..], xs[1..]);
    } else {
      assert FollowsEnsure(v, AtNext, [Next(v)], [Issued(v, nonce)]);
      assert FollowsEnsure(v, AtSync, [Sync(v, pending), Next(v)], [Quiet, Issued(v, nonce)]);
      assert FollowsEnsure(v, AtSync, run[1..], xs[1..]);
    }
  }

  /** ensureNonce peeks and then syncs: two workers that both find the key missing get the same nonce. */
  lemma RacingEnsureRepeats(offset: nat, pending: nat, u: nat, v: nat)
    requires u != v && pending + offset < MAX64
    ensures var run := [Peek(u), Peek(v), Sync(u, pending), Next(u), Sync(v, pending), Next(v)];
      var xs := Run(offset, None, run).1;
      && |xs| == 6 && FollowsEnsure(u, AtPeek, run, xs) && FollowsEnsure(v, AtPeek, run, xs)
      && xs[3] == Issued(u, pending + offset) && xs[5] == Issued(v, pending + offset)
  {
    var run := [Peek(u), Peek(v), Sync(u, pending), Next(u), Sync(v, pending), Next(v)];
    var c := Some(pending + offset);
    var c' := Some(pending + offset + 1);
    assert run[1..][1..] == [Sync(u, pending), Next(u), Sync(v, pending), Next(v)];
    assert run[1..][1..][1..] == [Next(u), Sync(v, pending), Next(v)];
    assert run[1..][1..][1..][1..] == [Sync(v, pending), Next(v)];
    assert [Sync(v, pending), Next(v)][1..] == [Next(v)] && [Next(v)][1..] == [];
    assert Run(offset, c, [Next(v)]).1 == [Issued(v, pending + offset)];
    assert Run(offset, c', [Sync(v, pending), Next(v)]).1 == [Quiet, Issued(v, pending + offset)];
    assert Run(offset, c, [Next(u), Sync(v, pending), Next(v)]).1
        == [Issued(u, pending + offset), Quiet, Issued(v, pending + offset)];
    assert Run(offset, None, [Sync(u, pending), Next(u), Sync(v, pending), Next(v)]).1
        == [Quiet, Issued(u, pending + offset), Quiet, Issued(v, pending + offset)];
    assert Run(offset, None, run[1..]).1
        == [Peeked(0), Quiet, Issued(u, pending + offset), Quiet, Issued(v, pending + offset)];
    RaceFollowsEnsure(pending, pending + offset, u, v);
  }

  // ---- The manager object ----

  class NonceManager {
    var counters: map<(string, string), nat>

    ghost function Counter(chainID: string, address: string): Option<nat> reads this {
      if (chainID, address) in counters then Some(counters[(chainID, address)]) else None
    }

    constructor ()
      ensures counters == map[]
    {
      counters := map[];
    }

    method Next(chainID: string, address: string) returns (nonce: Option<nat>)
      modifies this
      ensures (Counter(chainID, address), nonce) == Incremented(old(Counter(chainID, address)))
      ensures forall k :: k != (chainID, address) ==> Counter(k.0, k.1) == old(Counter(k.0, k.1))
    {
      var value := if (chainID, address) in counters then counters[(chainID, address)] else 0;
      if value + 1 > MAX64 {
        return None;
      }
      value := value + 1;
      counters := counters[(chainID, address) := value];
      return Some(value - 1);
    }

    method SyncFromChain(chainID: string, address: string, pending: nat)
      modifies this
      ensures Counter(chainID, address) == Some(Seeded(SEED_OFFSET, pending))
      ensures forall k :: k != (chainID, address) ==> Counter(k.0, k.1) == old(Counter(k.0, k.1))
    {
      counters := counters[(chainID, address) := (pending + 1) % UINT64_LIMIT];
    }

    method Peek(chainID: string, address: string) returns (nonce: nat)
      ensures nonce == PeekedValue(Counter(chainID, address))
    {
      if (chainID, address) !in counters {
        return 0;
      }
      var value := counters[(chainID, address)];
      if value == 0 {
        return 0;
      }
      return value - 1;
    }
  }
}
