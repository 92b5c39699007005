/** The monthly free grant (internal/cron/cron.go, internal/credits/credits.go): for each organisation of the
    month's list, check the mark, write the mark, then credit. */
module Grants {
  import opened Wrappers
  import opened Ledger

  /** `order` lists the organizations rows by created_at; `marks` are the free_tier_grants rows. */
  datatype World = World(books: Books, order: seq<string>, deleted: set<string>, marks: set<(string, string)>)

  /** What happens to one organisation of the list: a statement fails, the context is cancelled before it, or the
      process dies before or after its mark. */
  datatype Fate = Fine | CheckFails | MarkFails | CreditFails | Interrupted | Died(marked: bool)

  type Fates = map<string, Fate>

  function FateOf(fates: Fates, org: string): Fate {
    if org in fates then fates[org] else Fine
  }

  /** ListOrgsForFreeGrant. */
  function Unmarked(w: World, orgs: seq<string>, period: string): seq<string> {
    if orgs == [] then []
    else
      var last := orgs[|orgs| - 1];
      Unmarked(w, orgs[..|orgs| - 1], period)
        + if last !in w.deleted && (last, period) !in w.marks then [last] else []
  }

  function MarkGiven(w: World, org: string, period: string): World {
    w.(marks := w.marks + {(org, period)})
  }

  /** grantToOrg: the world afterwards and whether it returned without an error. */
  function GrantTo(w: World, org: string, period: string, amount: Int64, fate: Fate): (World, bool) {
    if fate.CheckFails? then (w, false)
    else if (org, period) in w.marks then (w, true)
    else if fate.MarkFails? || org !in w.books.orgs then (w, false)
    else
      var (b, o) := Credited(w.books, org, amount, "free_grant", period, !fate.CreditFails?);
      (MarkGiven(w, org, period).(books := b), o.Posted?)
  }

  datatype Report = Report(succeeded: nat, failed: nat)

  /** The loop of runFreeTierGrantNow over the rest of its list. */
  function GrantEach(w: World, orgs: seq<string>, period: string, amount: Int64, fates: Fates, r: Report): (World, Report)
    decreases |orgs|
  {
    if orgs == [] then (w, r)
    else
      var fate := FateOf(fates, orgs[0]);
      if fate.Interrupted? then (w, r)
      else if fate.Died? then
        (if fate.marked && (orgs[0], period) !in w.marks && orgs[0] in w.books.orgs then MarkGiven(w, orgs[0], period) else w, r)
      else
        var (w', ok) := GrantTo(w, orgs[0], period, amount, fate);
        GrantEach(w', orgs[1..], period, amount, fates,
                  if ok then r.(succeeded := r.succeeded + 1) else r.(failed := r.failed + 1))
  }

  function Granted(w: World, period: string, amount: Int64, fates: Fates): (World, Report) {
    GrantEach(w, Unmarked(w, w.order, period), period, amount, fates, Report(0, 0))
  }

  // ---- Histories ----

  /** Runs follow one another; in between the ledger is used for anything but free grants, and organisations
      come and go. */
  datatype Event =
    | Run(period: string, amount: Int64, fates: Fates)
    | Use(call: Call)
    | NewOrg(org: string)
    | DeleteOrg(org: string)

  predicate Proper(ev: Event) {
    match ev
    case Run(period, _, _) => period != ""
    case Use(CreditCall(_, _, reason, _, _)) => reason != "free_grant"
    case Use(Found(_)) => false
    case _ => true
  }

  function After(w: World, costs: Costs, ev: Event): World {
    match ev
    case Run(period, amount, fates) => Granted(w, period, amount, fates).0
    case Use(call) => w.(books := Called(w.books, costs, call))
    case NewOrg(org) => if org in w.books.orgs then w else w.(books := Founded(w.books, org), order := w.order + [org])
    case DeleteOrg(org) => w.(deleted := w.deleted + {org})
  }

  function AfterAll(w: World, costs: Costs, events: seq<Event>): World
    decreases |events|
  {
    if events == [] then w else AfterAll(After(w, costs, events[0]), costs, events[1..])
  }

  // ---- Counting grants ----

  predicate IsGrantRow(row: LedgerRow, org: string, period: string) {
    row.org == org && row.reason == "free_grant" && row.refID == Some(period)
  }

  /** How many free_grant rows the organisation has for the period. */
  function Count(rows: seq<LedgerRow>, org: string, period: string): nat {
    if rows == [] then 0
    else
      var last := rows[|rows| - 1];
      Count(rows[..|rows| - 1], org, period) + if IsGrantRow(last, org, period) then 1 else 0
  }

  function GrantsOf(w: World, org: string, period: string): nat {
    Count(w.books.ledger, org, period)
  }

  lemma CountSnoc(rows: seq<LedgerRow>, row: LedgerRow, org: string, period: string)
    ensures Count(rows + [row], org, period) == Count(rows, org, period) + if IsGrantRow(row, org, period) then 1 else 0
  {
    assert (rows + [row])[..|rows|] == rows;
  }

  lemma PostCount(b: Books, p: Posting, stored: bool, org: string, period: string)
    ensures var (b', o) := Post(b, p, stored);
      Count(b'.ledger, org, period) == Count(b.ledger, org, period)
        + if o.Posted? && p.org == org && p.reason == "free_grant" && p.refID == Some(period) then 1 else 0
  {
    var o := Post(b, p, stored).1;
    if o.Posted? { CountSnoc(b.ledger, RowOf(p, o.after), org, period); }
  }

  /** One mark accounts for at most one row. */
  predicate Sound(w: World, org: string, period: string) {
    GrantsOf(w, org, period) <= (if (org, period) in w.marks then 1 else 0)
  }

  lemma GrantToCounts(w: World, x: string, period: string, amount: Int64, fate: Fate, org: string, p: string)
    requires period != ""
    ensures var (w', ok) := GrantTo(w, x, period, amount, fate);
      && w.marks <= w'.marks <= w.marks + {(x, period)} && w'.order == w.order && w'.deleted == w.deleted
      && w'.books.orgs == w.books.orgs
      && ((org, p) != (x, period) || (x, period) in w.marks ==> GrantsOf(w', org, p) == GrantsOf(w, org, p))
      && (w'.marks == w.marks ==> w' == w)
      && GrantsOf(w', org, p) <= GrantsOf(w, org, p) + 1
  {
    PostCount(w.books, Posting(x, amount, "free_grant", RefOf(period)), !fate.CreditFails?, org, p);
  }

  /** A run never touches an organisation that is marked, and keeps one row per mark. */
  lemma {:induction false} GrantEachKeeps(
      w: World, orgs: seq<string>, period: string, amount: Int64, fates: Fates, r: Report, org: string, p: string)
    requires period != "" && Sound(w, org, p)
    ensures var w' := GrantEach(w, orgs, period, amount, fates, r).0;
      && Sound(w', org, p) && w.marks <= w'.marks && w'.books.orgs == w.books.orgs
      && ((org, p) in w.marks ==> GrantsOf(w', org, p) == GrantsOf(w, org, p))
    decreases |orgs|
  {
    if orgs != [] {
      var fate := FateOf(fates, orgs[0]);
      if !fate.Interrupted? && !fate.Died? {
        var (w', ok) := GrantTo(w, orgs[0], period, amount, fate);
        GrantToCounts(w, orgs[0], period, amount, fate, org, p);
        GrantEachKeeps(w', orgs[1..], period, amount, fates,
                       if ok then r.(succeeded := r.succeeded + 1) else r.(failed := r.failed + 1), org, p);
      }
    }
  }

  lemma EventKeeps(w: World, costs: Costs, ev: Event, org: string, period: string)
    requires Proper(ev) && Sound(w, org, period)
    ensures var w' := After(w, costs, ev);
      Sound(w', org, period) && w.marks <= w'.marks
      && ((org, period) in w.marks ==> GrantsOf(w', org, period) == GrantsOf(w, org, period))
  {
    match ev
    case Run(p, amount, fates) =>
      GrantEachKeeps(w, Unmarked(w, w.order, p), p, amount, fates, Report(0, 0), org, period);
    case Use(DebitCall(o, operation, ref, stored)) =>
      if operation in costs { PostCount(w.books, Charge(o, costs[operation].cost, ref), stored, org, period); }
    case Use(CreditCall(o, amount, reason, ref, stored)) =>
      PostCount(w.books, Posting(o, amount, reason, RefOf(ref)), stored, org, period);
    case Use(Found(_)) =>
    case NewOrg(_) =>
    case DeleteOrg(_) =>
  }

  /** Over any number of runs, each failing or stopping anywhere, and anything in between: an organisation has at
      most one free grant for a period; and once it is marked, whether it got one never changes again. */
  lemma {:induction false} AtMostOneGrant(w: World, costs: Costs, events: seq<Event>, org: string, period: string)
    requires (forall ev :: ev in events ==> Proper(ev)) && Sound(w, org, period)
    ensures var w' := AfterAll(w, costs, events);
      && GrantsOf(w', org, period) <= 1 && Sound(w', org, period)
      && ((org, period) in w.marks ==> GrantsOf(w', org, period) == GrantsOf(w, org, period))
    decreases |events|
  {
    if events != [] {
      EventKeeps(w, costs, events[0], org, period);
      AtMostOneGrant(After(w, costs, events[0]), costs, events[1..], org, period);
    }
  }

  // ---- What a grant pays ----

  /** Every grant the organisation has for the period is of this amount. */
  predicate GrantsPay(rows: seq<LedgerRow>, org: string, period: string, amount: int) {
    forall k :: 0 <= k < |rows| && IsGrantRow(rows[k], org, period) ==> rows[k].amount == amount
  }

  lemma PostGrantsPay(b: Books, p: Posting, stored: bool, org: string, period: string, amount: int)
    requires GrantsPay(b.ledger, org, period, amount)
    requires p.reason == "free_grant" && p.refID == Some(period) ==> p.amount == amount
    ensures GrantsPay(Post(b, p, stored).0.ledger, org, period, amount)
  {
  }

  lemma {:induction false} GrantEachPays(
      w: World, orgs: seq<string>, period: string, amount: Int64, fates: Fates, r: Report, org: string, p: string, paid: int)
    requires period != "" && GrantsPay(w.books.ledger, org, p, paid) && (period == p ==> amount == paid)
    ensures GrantsPay(GrantEach(w, orgs, period, amount, fates, r).0.books.ledger, org, p, paid)
    decreases |orgs|
  {
    if orgs != [] {
      var fate := FateOf(fates, orgs[0]);
      if !fate.Interrupted? && !fate.Died? {
        var (w', ok) := GrantTo(w, orgs[0], period, amount, fate);
        PostGrantsPay(w.books, Posting(orgs[0], amount, "free_grant", RefOf(period)), !fate.CreditFails?, org, p, paid);
        GrantEachPays(w', orgs[1..], period, amount, fates,
                      if ok then r.(succeeded := r.succeeded + 1) else r.(failed := r.failed + 1), org, p, paid);
      }
    }
  }

  lemma EventPays(w: World, costs: Costs, ev: Event, org: string, period: string, amount: int)
    requires Proper(ev) && (ev.Run? && ev.period == period ==> ev.amount == amount)
    requires GrantsPay(w.books.ledger, org, period, amount)
    ensures GrantsPay(After(w, costs, ev).books.ledger, org, period, amount)
  {
    match ev
    case Run(p, a, fates) =>
      GrantEachPays(w, Unmarked(w, w.order, p), p, a, fates, Report(0, 0), org, period, amount);
    case Use(DebitCall(o, operation, ref, stored)) =>
      if operation in costs { PostGrantsPay(w.books, Charge(o, costs[operation].cost, ref), stored, org, period, amount); }
    case Use(CreditCall(o, a, reason, ref, stored)) =>
      PostGrantsPay(w.books, Posting(o, a, reason, RefOf(ref)), stored, org, period, amount);
    case Use(Found(_)) =>
    case NewOrg(_) =>
    case DeleteOrg(_) =>
  }

  /** Over every history whose runs for the period are configured with this amount, each grant for the period is exactly of
      this amount. */
  lemma {:induction false} GrantsPayTheAmount(w: World, costs: Costs, events: seq<Event>, org: string, period: string, amount: int)
    requires forall ev :: ev in events ==> Proper(ev) && (ev.Run? && ev.period == period ==> ev.amount == amount)
    requires GrantsPay(w.books.ledger, org, period, amount)
    ensures GrantsPay(AfterAll(w, costs, events).books.ledger, org, period, amount)
    decreases |events|
  {
    if events != [] {
      EventPays(w, costs, events[0], org, period, amount);
      GrantsPayTheAmount(After(w, costs, events[0]), costs, events[1..], org, period, amount);
    }
  }

  // ---- A run without errors ----

  predicate NoRepeats(orgs: seq<string>) {
    forall i, j :: 0 <= i < j < |orgs| ==> orgs[i] != orgs[j]
  }

  /** The rows of organizations are the members the ledger refers to, each once. */
  predicate Listed(w: World) {
    NoRepeats(w.order) && forall org :: org in w.order ==> org in w.books.orgs
  }

  predicate Room(b: Books, org: string, amount: Int64) {
    Balance(b, org) + amount <= MAX64
  }

  lemma {:induction false} UnmarkedExactly(w: World, orgs: seq<string>, period: string, org: string)
    ensures org in Unmarked(w, orgs, period) <==> org in orgs && org !in w.deleted && (org, period) !in w.marks
    ensures NoRepeats(orgs) ==> NoRepeats(Unmarked(w, orgs, period))
    decreases |orgs|
  {
    if orgs != [] {
      var n := |orgs| - 1;
      UnmarkedExactly(w, orgs[..n], period, org);
      UnmarkedExactly(w, orgs[..n], period, orgs[n]);
      assert orgs == orgs[..n] + [orgs[n]];
      if NoRepeats(orgs) {
        assert NoRepeats(orgs[..n]);
        assert orgs[n] !in orgs[..n];
      }
    }
  }

  /** The list keeps the order of creation, so that an interrupted run has served the oldest. */
  lemma {:induction false} UnmarkedInOrder(w: World, orgs: seq<string>, period: string, a: nat, b: nat, i: nat, j: nat)
    requires NoRepeats(orgs) && a < b < |orgs|
    requires var u := Unmarked(w, orgs, period); i < |u| && j < |u| && u[i] == orgs[a] && u[j] == orgs[b]
    ensures i < j
    decreases |orgs|
  {
    var n := |orgs| - 1;
    var u := Unmarked(w, orgs[..n], period);
    UnmarkedExactly(w, orgs[..n], period, orgs[n]);
    UnmarkedExactly(w, orgs, period, orgs[a]);
    assert orgs[n] !in orgs[..n];
    if i < |u| {
      if j < |u| {
        assert u[j] in u;
        UnmarkedExactly(w, orgs[..n], period, u[j]);
        UnmarkedInOrder(w, orgs[..n], period, a, b, i, j);
      }
    }
  }

  lemma FineGrant(w: World, x: string, period: string, amount: Int64, org: string)
    requires period != "" && x in w.books.orgs && (x, period) !in w.marks
    requires Room(w.books, x, amount)
    ensures var (w', ok) := GrantTo(w, x, period, amount, Fine);
      && ok == (amount > 0) && w'.marks == w.marks + {(x, period)} && w'.books.orgs == w.books.orgs
      && GrantsOf(w', org, period) == GrantsOf(w, org, period) + (if x == org && amount > 0 then 1 else 0)
      && (org != x ==> Balance(w'.books, org) == Balance(w.books, org))
  {
    PostCount(w.books, Posting(x, amount, "free_grant", RefOf(period)), true, org, period);
  }

  lemma {:induction false} CleanRunOver(
      w: World, orgs: seq<string>, period: string, amount: Int64, fates: Fates, r: Report, org: string)
    requires period != "" && NoRepeats(orgs) && (forall x :: x in orgs ==> FateOf(fates, x).Fine?)
    requires forall x :: x in orgs ==> x in w.books.orgs && (x, period) !in w.marks && Room(w.books, x, amount)
    ensures var (w', r') := GrantEach(w, orgs, period, amount, fates, r);
      && GrantsOf(w', org, period) == GrantsOf(w, org, period) + (if org in orgs && amount > 0 then 1 else 0)
      && (org in orgs ==> (org, period) in w'.marks)
      && r' == (if amount > 0 then Report(r.succeeded + |orgs|, r.failed) else Report(r.succeeded, r.failed + |orgs|))
      && w.marks <= w'.marks
    decreases |orgs|
  {
    if orgs != [] {
      var x, rest := orgs[0], orgs[1..];
      FineGrant(w, x, period, amount, org);
      var (w1, ok) := GrantTo(w, x, period, amount, Fine);
      forall y | y in rest ensures y in w1.books.orgs && (y, period) !in w1.marks && Room(w1.books, y, amount) {
        assert y in orgs && y != x;
        FineGrant(w, x, period, amount, y);
      }
      CleanRunOver(w1, rest, period, amount, fates,
                   if ok then r.(succeeded := r.succeeded + 1) else r.(failed := r.failed + 1), org);
      assert org in orgs <==> org == x || org in rest;
      assert x !in rest;
    }
  }

  /** A run in which nothing fails gives every organisation that exists, is not deleted and is not marked yet
      exactly one grant, provided the configured amount is positive; with an amount of zero or less it marks them
      all and grants nothing, and those marks are final. */
  lemma CleanRunGrantsAll(w: World, period: string, amount: Int64, fates: Fates, org: string)
    requires period != "" && Listed(w) && Sound(w, org, period)
    requires forall x :: x in w.order ==> FateOf(fates, x).Fine? && Room(w.books, x, amount)
    requires org in w.order && org !in w.deleted && (org, period) !in w.marks
    ensures var (w', r) := Granted(w, period, amount, fates);
      && GrantsOf(w', org, period) == (if amount > 0 then 1 else 0)
      && (org, period) in w'.marks
      && r == (var n := |Unmarked(w, w.order, period)|; if amount > 0 then Report(n, 0) else Report(0, n))
  {
    var orgs := Unmarked(w, w.order, period);
    UnmarkedExactly(w, w.order, period, org);
    forall x | x in orgs ensures x in w.order && (x, period) !in w.marks {
      UnmarkedExactly(w, w.order, period, x);
    }
    CleanRunOver(w, orgs, period, amount, fates, Report(0, 0), org);
  }

  // ---- A run in which anything may fail ----

  /** What a run does to an organisation of its list that it reaches. */
  lemma ReachedGrant(w: World, x: string, period: string, amount: Int64, fate: Fate)
    requires period != "" && x in w.books.orgs && (x, period) !in w.marks && !fate.Interrupted? && !fate.Died?
    ensures var w' := GrantTo(w, x, period, amount, fate).0;
      (x, period) in w'.marks ==>
        GrantsOf(w', x, period) == GrantsOf(w, x, period) + (if fate.Fine? && amount > 0 && Room(w.books, x, amount) then 1 else 0)
  {
    PostCount(w.books, Posting(x, amount, "free_grant", RefOf(period)), !fate.CreditFails?, x, period);
  }

  /** Granting one organisation leaves another's mark, rows and balance alone. */
  lemma OtherUntouched(w: World, x: string, period: string, amount: Int64, fate: Fate, org: string)
    requires period != "" && org != x
    ensures var w' := GrantTo(w, x, period, amount, fate).0;
      && ((org, period) in w'.marks <==> (org, period) in w.marks)
      && GrantsOf(w', org, period) == GrantsOf(w, org, period)
      && Balance(w'.books, org) == Balance(w.books, org) && w'.books.orgs == w.books.orgs
  {
    PostCount(w.books, Posting(x, amount, "free_grant", RefOf(period)), !fate.CreditFails?, org, period);
  }

  lemma {:induction false} MarkedInRun(
      w: World, orgs: seq<string>, period: string, amount: Int64, fates: Fates, r: Report, org: string)
    requires period != "" && NoRepeats(orgs) && org in w.books.orgs && (org, period) !in w.marks
    ensures var w' := GrantEach(w, orgs, period, amount, fates, r).0;
      (org, period) in w'.marks ==>
        && org in orgs
        && GrantsOf(w', org, period)
           == GrantsOf(w, org, period) + (if FateOf(fates, org).Fine? && amount > 0 && Room(w.books, org, amount) then 1 else 0)
    decreases |orgs|
  {
    if orgs != [] {
      var x, fate := orgs[0], FateOf(fates, orgs[0]);
      if !fate.Interrupted? && !fate.Died? {
        var (w1, ok) := GrantTo(w, x, period, amount, fate);
        var r1 := if ok then r.(succeeded := r.succeeded + 1) else r.(failed := r.failed + 1);
        assert x !in orgs[1..];
        if x == org {
          AfterOwnTurn(w, orgs, period, amount, fates, r, org);
        } else {
          OtherUntouched(w, x, period, amount, fate, org);
          MarkedInRun(w1, orgs[1..], period, amount, fates, r1, org);
        }
      }
    }
  }

  /** The rest of a run does not come back to an organisation. */
  lemma {:induction false} NotInRest(
      w: World, orgs: seq<string>, period: string, amount: Int64, fates: Fates, r: Report, org: string)
    requires period != "" && org !in orgs
    ensures var w' := GrantEach(w, orgs, period, amount, fates, r).0;
      ((org, period) in w'.marks <==> (org, period) in w.marks) && GrantsOf(w', org, period) == GrantsOf(w, org, period)
    decreases |orgs|
  {
    if orgs != [] {
      var x, fate := orgs[0], FateOf(fates, orgs[0]);
      if !fate.Interrupted? && !fate.Died? {
        var (w1, ok) := GrantTo(w, x, period, amount, fate);
        OtherUntouched(w, x, period, amount, fate, org);
        NotInRest(w1, orgs[1..], period, amount, fates,
                  if ok then r.(succeeded := r.succeeded + 1) else r.(failed := r.failed + 1), org);
      }
    }
  }

  lemma AfterOwnTurn(w: World, orgs: seq<string>, period: string, amount: Int64, fates: Fates, r: Report, org: string)
    requires period != "" && NoRepeats(orgs) && orgs != [] && orgs[0] == org
    requires org in w.books.orgs && (org, period) !in w.marks && !FateOf(fates, org).Interrupted? && !FateOf(fates, org).Died?
    ensures var w' := GrantEach(w, orgs, period, amount, fates, r).0;
      (org, period) in w'.marks ==>
        GrantsOf(w', org, period)
          == GrantsOf(w, org, period) + (if FateOf(fates, org).Fine? && amount > 0 && Room(w.books, org, amount) then 1 else 0)
  {
    var (w1, ok) := GrantTo(w, org, period, amount, FateOf(fates, org));
    ReachedGrant(w, org, period, amount, FateOf(fates, org));
    assert org !in orgs[1..];
    NotInRest(w1, orgs[1..], period, amount, fates,
              if ok then r.(succeeded := r.succeeded + 1) else r.(failed := r.failed + 1), org);
  }

  /** A mark is final, and the grant behind it may be missing: an unmarked organisation that a run marks has one grant for
      the period in every later history if and only if nothing failed or died after its mark, the amount is positive and
      its balance has room; otherwise it has none, in every later history. */
  lemma MarkedGetsGrantIff(w: World, costs: Costs, period: string, amount: Int64, fates: Fates, org: string, events: seq<Event>)
    requires period != "" && Listed(w) && Sound(w, org, period)
    requires org in w.books.orgs && (org, period) !in w.marks && (org, period) in Granted(w, period, amount, fates).0.marks
    requires forall ev :: ev in events ==> Proper(ev)
    ensures var later := GrantsOf(AfterAll(Granted(w, period, amount, fates).0, costs, events), org, period);
      && (later == 1 <==> FateOf(fates, org).Fine? && amount > 0 && Room(w.books, org, amount))
      && later <= 1
  {
    var orgs := Unmarked(w, w.order, period);
    UnmarkedExactly(w, w.order, period, org);
    MarkedInRun(w, orgs, period, amount, fates, Report(0, 0), org);
    var w1 := Granted(w, period, amount, fates).0;
    GrantEachKeeps(w, orgs, period, amount, fates, Report(0, 0), org, period);
    AtMostOneGrant(w1, costs, events, org, period);
  }

  /** One turn of the loop. */
  lemma NextGrant(w: World, orgs: seq<string>, i: nat, period: string, amount: Int64, fates: Fates, r: Report)
    requires i < |orgs|
    ensures var fate := FateOf(fates, orgs[i]);
      GrantEach(w, orgs[i..], period, amount, fates, r)
      == if fate.Interrupted? then (w, r)
         else if fate.Died? then
           (if fate.marked && (orgs[i], period) !in w.marks && orgs[i] in w.books.orgs then MarkGiven(w, orgs[i], period) else w, r)
         else
           var (w', ok) := GrantTo(w, orgs[i], period, amount, fate);
           GrantEach(w', orgs[i + 1..], period, amount, fates,
                     if ok then r.(succeeded := r.succeeded + 1) else r.(failed := r.failed + 1))
  {
    assert orgs[i..][0] == orgs[i] && orgs[i..][1..] == orgs[i + 1..];
  }

  // ---- The runner object ----

  class Runner {
    const credits: Manager
    const grantAmount: Int64
    var order: seq<string>
    var deleted: set<string>
    var marks: set<(string, string)>

    ghost function State(): World reads this, credits {
      World(credits.State(), order, deleted, marks)
    }

    constructor (credits: Manager, grantAmount: Int64, order: seq<string>)
      ensures this.credits == credits && this.grantAmount == grantAmount
      ensures this.order == order && deleted == {} && marks == {}
    {
      this.credits, this.grantAmount, this.order := credits, grantAmount, order;
      deleted, marks := {}, {};
    }

    method ListOrgsForFreeGrant(period: string) returns (orgs: seq<string>)
      ensures orgs == Unmarked(State(), order, period)
    {
      orgs := [];
      for i := 0 to |order|
        invariant orgs == Unmarked(State(), order[..i], period)
      {
        assert order[..i + 1][..i] == order[..i];
        if order[i] !in deleted && (order[i], period) !in marks {
          orgs := orgs + [order[i]];
        }
      }
      assert order[..|order|] == order;
    }

    method GrantToOrg(org: string, period: string, fate: Fate) returns (ok: bool)
      modifies this`marks, credits
      ensures (State(), ok) == GrantTo(old(State()), org, period, grantAmount, fate)
    {
      if fate.CheckFails? {
        return false;
      }
      if (org, period) in marks {
        return true;
      }
      if fate.MarkFails? || org !in credits.orgs {
        return false;
      }
      marks := marks + {(org, period)};
      var o := credits.Credit(org, grantAmount, "free_grant", period, !fate.CreditFails?);
      return o.Posted?;
    }

    method RunFreeTierGrantNow(period: string, fates: Fates) returns (succeeded: nat, failed: nat)
      modifies this`marks, credits
      ensures (State(), Report(succeeded, failed)) == Granted(old(State()), period, grantAmount, fates)
    {
      var orgs := ListOrgsForFreeGrant(period);
      ghost var start := State();
      succeeded, failed := 0, 0;
      for i := 0 to |orgs|
        invariant GrantEach(State(), orgs[i..], period, grantAmount, fates, Report(succeeded, failed))
               == GrantEach(start, orgs, period, grantAmount, fates, Report(0, 0))
        invariant order == start.order && deleted == start.deleted
      {
        NextGrant(State(), orgs, i, period, grantAmount, fates, Report(succeeded, failed));
        var fate := FateOf(fates, orgs[i]);
        if fate.Interrupted? {
          return;
        }
        if fate.Died? {
          if fate.marked && (orgs[i], period) !in marks && orgs[i] in credits.orgs {
            marks := marks + {(orgs[i], period)};
          }
          return;
        }
        var ok := GrantToOrg(orgs[i], period, fate);
        if ok {
          succeeded := succeeded + 1;
        } else {
          failed := failed + 1;
        }
      }
      assert orgs[|orgs|..] == [];
    }
  }
}
