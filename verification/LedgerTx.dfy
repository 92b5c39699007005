/** Debit and Credit as concurrent READ COMMITTED transactions over the same balance rows, each stepped at
    its statements: whatever the interleaving, the books are those of the transactions run one by one, and
    for each organisation the order is that in which they obtained the row lock. */
module LedgerTx {
  import opened Wrappers
  import opened Ledger

  /** Where a transaction stands. SELECT ... FOR UPDATE returned `read`; the UPDATE and the INSERT are
      uncommitted until Commit. */
  datatype Phase =
    | Waiting
    | Missing                 // the first SELECT of a debit found no row
    | Locked(read: Money)
    | Updated(read: Money)
    | Done(outcome: Outcome)

  /** `holder` says who holds the lock of an organisation's row (or of its uncommitted insertion); `locked`
      lists the transactions in the order they obtained it, `ended` those that released it, with whether
      their statements succeeded. */
  datatype State = State(
    books: Books, phases: seq<Phase>, holder: map<string, nat>, locked: seq<nat>, ended: seq<(nat, bool)>)

  datatype Action =
    | Look(i: nat)      // the first SELECT finds no row
    | Lock(i: nat)      // SELECT ... FOR UPDATE returns, after the INSERT ... ON CONFLICT DO NOTHING if that ran
    | Write(i: nat)     // the check, then UPDATE and INSERT
    | Commit(i: nat)
    | Abort(i: nat)     // a statement fails or the connection breaks

  function Start(b: Books, ts: seq<Posting>): State {
    State(b, seq(|ts|, _ => Waiting), map[], [], [])
  }

  predicate Enabled(ts: seq<Posting>, s: State, a: Action) {
    && a.i < |ts| && |s.phases| == |ts|
    && match a
       case Look(i) => s.phases[i].Waiting? && ts[i].amount < 0 && ts[i].org !in s.books.balances
       case Lock(i) =>
         && ts[i].org !in s.holder && (ts[i].org in s.books.balances || ts[i].org in s.books.orgs)
         && (s.phases[i].Missing? || (s.phases[i].Waiting? && (ts[i].amount < 0 ==> ts[i].org in s.books.balances)))
       case Write(i) => s.phases[i].Locked?
       case Commit(i) => s.phases[i].Updated?
       case Abort(i) => !s.phases[i].Done?
  }

  predicate Holding(p: Phase) {
    p.Locked? || p.Updated?
  }

  /** Transaction i ends: it releases its lock if it has one. */
  function Ended(ts: seq<Posting>, s: State, i: nat, o: Outcome, good: bool): State
    requires i < |ts| && |s.phases| == |ts|
  {
    if Holding(s.phases[i]) then
      s.(phases := s.phases[i := Done(o)], holder := s.holder - {ts[i].org}, ended := s.ended + [(i, good)])
    else s.(phases := s.phases[i := Done(o)])
  }

  function Step(ts: seq<Posting>, s: State, a: Action): State
    requires Enabled(ts, s, a)
  {
    var p := ts[a.i];
    match a
    case Look(i) => s.(phases := s.phases[i := Missing])
    case Lock(i) =>
      s.(phases := s.phases[i := Locked(Balance(s.books, p.org))], holder := s.holder[p.org := i], locked := s.locked + [i])
    case Write(i) =>
      var o := Decided(p, s.phases[i].read);
      if o.Posted? then s.(phases := s.phases[i := Updated(s.phases[i].read)]) else Ended(ts, s, i, o, true)
    case Commit(i) =>
      var o := Decided(p, s.phases[i].read);
      Ended(ts, s, i, o, true).(books := Written(s.books, p, o))
    case Abort(i) => Ended(ts, s, i, Failed, false)
  }

  function Apply(ts: seq<Posting>, s: State, a: Action): State {
    if Enabled(ts, s, a) then Step(ts, s, a) else s
  }

  function Exec(ts: seq<Posting>, s: State, run: seq<Action>): State
    decreases |run|
  {
    if run == [] then s else Exec(ts, Apply(ts, s, run[0]), run[1..])
  }

  // ---- The serial reference ----

  predicate Indices(n: nat, order: seq<(nat, bool)>) {
    forall k :: 0 <= k < |order| ==> order[k].0 < n
  }

  /** The transactions run one by one, without interleaving: the books and what each answers. */
  function Serial(b: Books, ts: seq<Posting>, order: seq<(nat, bool)>): (r: (Books, seq<Outcome>))
    requires Indices(|ts|, order)
    ensures |r.1| == |order|
  {
    if order == [] then (b, [])
    else
      var last := order[|order| - 1];
      var (before, outcomes) := Serial(b, ts, order[..|order| - 1]);
      var (after, o) := Post(before, ts[last.0], last.1);
      (after, outcomes + [o])
  }

  /** The transactions on one organisation, in order. */
  function Only(ts: seq<Posting>, order: seq<nat>, org: string): seq<nat> {
    if order == [] then []
    else
      var last := order[|order| - 1];
      Only(ts, order[..|order| - 1], org) + if last < |ts| && ts[last].org == org then [last] else []
  }

  function Names(order: seq<(nat, bool)>): seq<nat> {
    seq(|order|, i requires 0 <= i < |order| => order[i].0)
  }

  // ---- Invariant ----

  ghost predicate LocksAgree(ts: seq<Posting>, s: State) {
    && |s.phases| == |ts|
    && (forall i :: 0 <= i < |ts| && Holding(s.phases[i]) ==>
         ts[i].org in s.holder && s.holder[ts[i].org] == i && s.phases[i].read == Balance(s.books, ts[i].org)
         && (ts[i].org in s.books.balances || ts[i].org in s.books.orgs))
    && (forall i :: 0 <= i < |ts| && s.phases[i].Updated? ==> Decided(ts[i], s.phases[i].read).Posted?)
    && (forall org :: org in s.holder ==> s.holder[org] < |ts| && Holding(s.phases[s.holder[org]]) && ts[s.holder[org]].org == org)
  }

  ghost predicate SerialSoFar(b: Books, ts: seq<Posting>, s: State) {
    && Indices(|ts|, s.ended) && |s.phases| == |ts|
    && s.books == Serial(b, ts, s.ended).0
    && forall k :: 0 <= k < |s.ended| ==> s.phases[s.ended[k].0] == Done(Serial(b, ts, s.ended).1[k])
  }

  /** Whoever ended after locking is listed once, and who got any answer but an error is listed. */
  ghost predicate EachOnce(ts: seq<Posting>, s: State) {
    && |s.phases| == |ts| && Indices(|ts|, s.ended)
    && (forall k :: 0 <= k < |s.ended| ==> s.phases[s.ended[k].0].Done?)
    && (forall j, k :: 0 <= j < k < |s.ended| ==> s.ended[j].0 != s.ended[k].0)
    && (forall i :: 0 <= i < |ts| && s.phases[i].Done? && s.phases[i].outcome != Failed ==> i in Names(s.ended))
  }

  /** Per organisation, the transactions ended in the order they were locked; at most one is still locked. */
  ghost predicate LockOrder(ts: seq<Posting>, s: State, org: string) {
    Only(ts, s.locked, org) == Only(ts, Names(s.ended), org) + if org in s.holder then [s.holder[org]] else []
  }

  lemma OnlySnoc(ts: seq<Posting>, order: seq<nat>, i: nat, org: string)
    ensures Only(ts, order + [i], org) == Only(ts, order, org) + if i < |ts| && ts[i].org == org then [i] else []
  {
    assert (order + [i])[..|order|] == order;
  }

  lemma NamesSnoc(order: seq<(nat, bool)>, x: (nat, bool))
    ensures Names(order + [x]) == Names(order) + [x.0]
  {
  }

  lemma LockKeepsLocks(ts: seq<Posting>, s: State, i: nat)
    requires LocksAgree(ts, s) && Enabled(ts, s, Lock(i))
    ensures LocksAgree(ts, Step(ts, s, Lock(i)))
  {
  }

  lemma EndKeepsLocks(ts: seq<Posting>, s: State, i: nat, o: Outcome, good: bool)
    requires LocksAgree(ts, s) && i < |ts|
    ensures LocksAgree(ts, Ended(ts, s, i, o, good))
    ensures Holding(s.phases[i]) ==> ts[i].org !in Ended(ts, s, i, o, good).holder
  {
  }

  lemma UpdateKeepsLocks(ts: seq<Posting>, s: State, i: nat)
    requires LocksAgree(ts, s) && i < |ts| && s.phases[i].Locked? && Decided(ts[i], s.phases[i].read).Posted?
    ensures LocksAgree(ts, s.(phases := s.phases[i := Updated(s.phases[i].read)]))
  {
  }

  /** A commit writes only the balance whose lock it has released. */
  lemma WriteKeepsLocks(ts: seq<Posting>, s: State, p: Posting, o: Outcome)
    requires LocksAgree(ts, s) && p.org !in s.holder
    ensures LocksAgree(ts, s.(books := Written(s.books, p, o)))
  {
  }

  lemma StepKeepsLocks(ts: seq<Posting>, s: State, a: Action)
    requires LocksAgree(ts, s) && Enabled(ts, s, a)
    ensures LocksAgree(ts, Step(ts, s, a))
  {
    match a
    case Look(i) =>
    case Lock(i) => LockKeepsLocks(ts, s, i);
    case Write(i) =>
      if Decided(ts[i], s.phases[i].read).Posted? {
        UpdateKeepsLocks(ts, s, i);
      } else {
        EndKeepsLocks(ts, s, i, Decided(ts[i], s.phases[i].read), true);
      }
    case Commit(i) =>
      var o := Decided(ts[i], s.phases[i].read);
      EndKeepsLocks(ts, s, i, o, true);
      WriteKeepsLocks(ts, Ended(ts, s, i, o, true), ts[i], o);
    case Abort(i) => EndKeepsLocks(ts, s, i, Failed, false);
  }

  lemma LockKeepsOrder(ts: seq<Posting>, s: State, i: nat, org: string)
    requires LocksAgree(ts, s) && LockOrder(ts, s, org) && Enabled(ts, s, Lock(i))
    ensures LockOrder(ts, Step(ts, s, Lock(i)), org)
  {
    OnlySnoc(ts, s.locked, i, org);
  }

  lemma EndKeepsOrder(ts: seq<Posting>, s: State, i: nat, o: Outcome, good: bool, org: string)
    requires LocksAgree(ts, s) && LockOrder(ts, s, org) && i < |ts|
    ensures LockOrder(ts, Ended(ts, s, i, o, good), org)
  {
    if Holding(s.phases[i]) {
      var s' := Ended(ts, s, i, o, good);
      NamesSnoc(s.ended, (i, good));
      OnlySnoc(ts, Names(s.ended), i, org);
      if ts[i].org == org {
        assert s.holder[org] == i && org !in s'.holder;
        assert Only(ts, s.locked, org) + [] == Only(ts, s.locked, org);
      } else {
        assert org in s'.holder <==> org in s.holder;
      }
    }
  }

  lemma StepKeepsLockOrder(ts: seq<Posting>, s: State, a: Action, org: string)
    requires LocksAgree(ts, s) && LockOrder(ts, s, org) && Enabled(ts, s, a)
    ensures LockOrder(ts, Step(ts, s, a), org)
  {
    match a
    case Look(i) =>
    case Lock(i) => LockKeepsOrder(ts, s, i, org);
    case Write(i) => EndKeepsOrder(ts, s, i, Decided(ts[i], s.phases[i].read), true, org);
    case Commit(i) => EndKeepsOrder(ts, s, i, Decided(ts[i], s.phases[i].read), true, org);
    case Abort(i) => EndKeepsOrder(ts, s, i, Failed, false, org);
  }

  lemma StepKeepsEachOnce(ts: seq<Posting>, s: State, a: Action)
    requires EachOnce(ts, s) && Enabled(ts, s, a)
    ensures EachOnce(ts, Step(ts, s, a))
  {
    var s' := Step(ts, s, a);
    forall i | 0 <= i < |ts| && s'.phases[i].Done? && s'.phases[i].outcome != Failed ensures i in Names(s'.ended) {
      if i == a.i && !s.phases[i].Done? {
        NamesSnoc(s.ended, s'.ended[|s.ended|]);
      } else if s'.ended != s.ended {
        assert i in Names(s.ended);
        NamesSnoc(s.ended, s'.ended[|s.ended|]);
      }
    }
  }

  /** Ending with the outcome the serial run has at this point. */
  lemma EndKeepsSerial(b: Books, ts: seq<Posting>, s: State, i: nat, good: bool, s': State)
    requires SerialSoFar(b, ts, s) && i < |ts| && !s.phases[i].Done?
    requires var (books, o) := Post(s.books, ts[i], good);
      s'.books == books && s'.phases == s.phases[i := Done(o)] && s'.ended == s.ended + [(i, good)]
    ensures SerialSoFar(b, ts, s')
  {
    assert s'.ended[..|s.ended|] == s.ended;
    forall k | 0 <= k < |s.ended| ensures s'.phases[s.ended[k].0] == Done(Serial(b, ts, s.ended).1[k]) {
      assert s.phases[s.ended[k].0].Done?;
    }
  }

  lemma StepKeepsSerial(b: Books, ts: seq<Posting>, s: State, a: Action)
    requires LocksAgree(ts, s) && SerialSoFar(b, ts, s) && Enabled(ts, s, a)
    ensures SerialSoFar(b, ts, Step(ts, s, a))
  {
    var s', i := Step(ts, s, a), a.i;
    if s'.ended != s.ended {
      EndKeepsSerial(b, ts, s, i, !a.Abort?, s');
    }
  }

  lemma {:induction false} ExecKeepsAll(b: Books, ts: seq<Posting>, s: State, run: seq<Action>)
    requires LocksAgree(ts, s) && SerialSoFar(b, ts, s) && EachOnce(ts, s) && forall org :: LockOrder(ts, s, org)
    ensures var s' := Exec(ts, s, run);
      LocksAgree(ts, s') && SerialSoFar(b, ts, s') && EachOnce(ts, s') && forall org :: LockOrder(ts, s', org)
    decreases |run|
  {
    if run != [] {
      var s' := Apply(ts, s, run[0]);
      if Enabled(ts, s, run[0]) {
        StepKeepsLocks(ts, s, run[0]);
        StepKeepsSerial(b, ts, s, run[0]);
        StepKeepsEachOnce(ts, s, run[0]);
        forall org ensures LockOrder(ts, s', org) { StepKeepsLockOrder(ts, s, run[0], org); }
      }
      ExecKeepsAll(b, ts, s', run[1..]);
    }
  }

  lemma StartIsGood(b: Books, ts: seq<Posting>)
    ensures var s := Start(b, ts);
      LocksAgree(ts, s) && SerialSoFar(b, ts, s) && EachOnce(ts, s) && forall org :: LockOrder(ts, s, org)
  {
  }

  /** Serialisability: after any interleaving of any transactions, the committed books are those of running
      the ended ones one by one, each with the answer it has there; and on each organisation that order is
      the order in which they obtained the row lock. */
  lemma Serialisable(b: Books, ts: seq<Posting>, run: seq<Action>, org: string)
    ensures var s := Exec(ts, Start(b, ts), run);
      && SerialSoFar(b, ts, s) && EachOnce(ts, s)
      && (org !in s.holder ==> Only(ts, s.locked, org) == Only(ts, Names(s.ended), org))
      && Only(ts, Names(s.ended), org) <= Only(ts, s.locked, org)
  {
    StartIsGood(b, ts);
    ExecKeepsAll(b, ts, Start(b, ts), run);
    assert LockOrder(ts, Exec(ts, Start(b, ts), run), org);
  }

  lemma {:induction false} SerialKeepsConsistent(b: Books, ts: seq<Posting>, order: seq<(nat, bool)>)
    requires Consistent(b) && Indices(|ts|, order) && forall i :: 0 <= i < |ts| ==> ts[i].amount != 0
    ensures Consistent(Serial(b, ts, order).0)
    decreases |order|
  {
    if order != [] {
      var last := order[|order| - 1];
      SerialKeepsConsistent(b, ts, order[..|order| - 1]);
      PostKeepsConsistent(Serial(b, ts, order[..|order| - 1]).0, ts[last.0], last.1);
    }
  }

  /** So the committed books balance at every moment of every interleaving, and no balance is negative. */
  lemma BooksBalanceAlways(b: Books, ts: seq<Posting>, run: seq<Action>)
    requires Consistent(b) && forall i :: 0 <= i < |ts| ==> ts[i].amount != 0
    ensures Consistent(Exec(ts, Start(b, ts), run).books)
  {
    StartIsGood(b, ts);
    ExecKeepsAll(b, ts, Start(b, ts), run);
    SerialKeepsConsistent(b, ts, Exec(ts, Start(b, ts), run).ended);
  }

  /** No deadlock: while a transaction is unfinished, one can move without anything failing, unless it waits
      for the row of an organisation that does not exist. */
  lemma NoDeadlock(ts: seq<Posting>, s: State, i: nat) returns (a: Action)
    requires LocksAgree(ts, s) && i < |ts| && !s.phases[i].Done? && ts[i].org in s.books.orgs
    ensures Enabled(ts, s, a) && !a.Abort?
  {
    var org := ts[i].org;
    if org in s.holder {
      var h := s.holder[org];
      a := if s.phases[h].Locked? then Write(h) else Commit(h);
    } else if s.phases[i].Waiting? && ts[i].amount < 0 && org !in s.books.balances {
      a := Look(i);
    } else {
      a := Lock(i);
    }
  }
}
