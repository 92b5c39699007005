/** The credit ledger: a balance per organisation kept in step with an append-only list of rows
    (internal/credits/credits.go; the column constraints are those of db/migrations/003_cloud_credits.sql). */
module Ledger {
  import opened Wrappers

  const MAX64: int := 0x7fff_ffff_ffff_ffff

  /** A BIGINT column with CHECK (value >= 0). */
  type Money = x: int | 0 <= x <= MAX64

  type Int64 = x: int | -MAX64 - 1 <= x <= MAX64

  /** Go's int64 addition wraps around. */
  function Wrap64(n: int): (r: Int64)
    ensures -MAX64 - 1 <= n <= MAX64 ==> r == n
    ensures MAX64 < n <= 2 * MAX64 + 1 ==> r < 0
  {
    (n + MAX64 + 1) % (2 * MAX64 + 2) - MAX64 - 1
  }

  datatype LedgerRow = LedgerRow(org: string, amount: int, balanceAfter: Money, reason: string, refID: Option<string>)

  /** `orgs` are the rows of organizations, which the other two tables reference. */
  datatype Books = Books(orgs: set<string>, balances: map<string, Money>, ledger: seq<LedgerRow>)

  datatype Cost = Cost(cost: Money, active: bool)

  datatype Outcome =
    | OperationNotFound
    | Free
    | InvalidAmount
    | InvalidReason
    | InsufficientCredits
    | Failed                                  // a statement failed: the transaction is rolled back
    | Posted(before: Money, after: Money)

  /** GetBalance: a missing row reads as 0. */
  function Balance(b: Books, org: string): Money {
    if org in b.balances then b.balances[org] else 0
  }

  /** One transaction: add `amount` (negative for a debit) to the balance and append a row. */
  datatype Posting = Posting(org: string, amount: Int64, reason: string, refID: Option<string>)

  function RefOf(ref: string): Option<string> {
    if ref == "" then None else Some(ref)
  }

  function RowOf(p: Posting, after: Money): LedgerRow {
    LedgerRow(p.org, p.amount, after, p.reason, p.refID)
  }

  /** What the transaction body decides from the balance it has locked. A new balance that wraps below zero
      violates the CHECK. */
  function Decided(p: Posting, current: Money): Outcome {
    if p.amount < 0 && current + p.amount < 0 then InsufficientCredits
    else if Wrap64(current + p.amount) < 0 then Failed
    else Posted(current, Wrap64(current + p.amount))
  }

  function Written(b: Books, p: Posting, o: Outcome): Books {
    if o.Posted? then b.(balances := b.balances[p.org := o.after], ledger := b.ledger + [RowOf(p, o.after)]) else b
  }

  /** The transaction run on its own. `stored` is false when the database fails a statement. */
  function Post(b: Books, p: Posting, stored: bool): (Books, Outcome) {
    if !stored || (p.org !in b.balances && p.org !in b.orgs) then (b, Failed)
    else
      var o := Decided(p, Balance(b, p.org));
      (Written(b, p, o), o)
  }

  function Charge(org: string, cost: int, ref: string): Posting
    requires 0 <= cost <= MAX64
  {
    Posting(org, -cost, "operation", RefOf(ref))
  }

  type Costs = map<string, Cost>

  function Debited(b: Books, costs: Costs, org: string, operation: string, ref: string, stored: bool): (Books, Outcome) {
    if operation !in costs || !costs[operation].active then (b, OperationNotFound)
    else if costs[operation].cost == 0 then (b, Free)
    else Post(b, Charge(org, costs[operation].cost, ref), stored)
  }

  const CREDIT_REASONS: set<string> := {"purchase", "refund", "free_grant"}

  function Credited(b: Books, org: string, amount: Int64, reason: string, ref: string, stored: bool): (Books, Outcome) {
    if amount <= 0 then (b, InvalidAmount)
    else if reason !in CREDIT_REASONS then (b, InvalidReason)
    else Post(b, Posting(org, amount, reason, RefOf(ref)), stored)
  }

  /** CreateOrganization seeds a zero balance, unless the row is already there. */
  function Founded(b: Books, org: string): Books {
    b.(orgs := b.orgs + {org}, balances := if org in b.balances then b.balances else b.balances[org := 0])
  }

  // ---- The books balance ----

  function TotalOf(rows: seq<LedgerRow>, org: string): int {
    if rows == [] then 0
    else
      var last := rows[|rows| - 1];
      TotalOf(rows[..|rows| - 1], org) + if last.org == org then last.amount else 0
  }

  /** Every balance is the sum of the organisation's rows, every row's balance_after is the sum up to it, no
      row is zero, and balances belong to organisations. */
  ghost predicate Consistent(b: Books) {
    && (forall org :: org in b.balances ==> org in b.orgs)
    && (forall org :: Balance(b, org) == TotalOf(b.ledger, org))
    && (forall k :: 0 <= k < |b.ledger| ==>
         b.ledger[k].amount != 0 && b.ledger[k].balanceAfter == TotalOf(b.ledger[..k + 1], b.ledger[k].org))
  }

  lemma TotalSnoc(rows: seq<LedgerRow>, row: LedgerRow, org: string)
    ensures TotalOf(rows + [row], org) == TotalOf(rows, org) + if row.org == org then row.amount else 0
  {
    assert (rows + [row])[..|rows|] == rows;
  }

  lemma PostKeepsConsistent(b: Books, p: Posting, stored: bool)
    requires Consistent(b) && p.amount != 0
    ensures Consistent(Post(b, p, stored).0)
  {
    var b' := Post(b, p, stored).0;
    var o := Post(b, p, stored).1;
    if o.Posted? {
      var row := RowOf(p, o.after);
      forall org ensures Balance(b', org) == TotalOf(b'.ledger, org) {
        TotalSnoc(b.ledger, row, org);
      }
      forall k | 0 <= k < |b'.ledger|
        ensures b'.ledger[k].amount != 0 && b'.ledger[k].balanceAfter == TotalOf(b'.ledger[..k + 1], b'.ledger[k].org)
      {
        if k < |b.ledger| {
          assert b'.ledger[..k + 1] == b.ledger[..k + 1];
        } else {
          assert b'.ledger[..k + 1] == b.ledger + [row];
          TotalSnoc(b.ledger, row, p.org);
        }
      }
    }
  }

  datatype Call =
    | Found(org: string)
    | DebitCall(org: string, operation: string, ref: string, stored: bool)
    | CreditCall(org: string, amount: Int64, reason: string, ref: string, stored: bool)

  function Called(b: Books, costs: Costs, c: Call): Books {
    match c
    case Found(org) => Founded(b, org)
    case DebitCall(org, operation, ref, stored) => Debited(b, costs, org, operation, ref, stored).0
    case CreditCall(org, amount, reason, ref, stored) => Credited(b, org, amount, reason, ref, stored).0
  }

  function CalledAll(b: Books, costs: Costs, calls: seq<Call>): Books
    decreases |calls|
  {
    if calls == [] then b else CalledAll(Called(b, costs, calls[0]), costs, calls[1..])
  }

  const EMPTY: Books := Books({}, map[], [])

  function Received(rows: seq<LedgerRow>, org: string): int {
    if rows == [] then 0
    else
      var last := rows[|rows| - 1];
      Received(rows[..|rows| - 1], org) + if last.org == org && last.amount > 0 then last.amount else 0
  }

  function Spent(rows: seq<LedgerRow>, org: string): int {
    if rows == [] then 0
    else
      var last := rows[|rows| - 1];
      Spent(rows[..|rows| - 1], org) + if last.org == org && last.amount < 0 then -last.amount else 0
  }

  lemma {:induction false} TotalSplits(rows: seq<LedgerRow>, org: string)
    ensures TotalOf(rows, org) == Received(rows, org) - Spent(rows, org)
    decreases |rows|
  {
    if rows != [] { TotalSplits(rows[..|rows| - 1], org); }
  }

  lemma {:induction false} CallsKeepConsistent(b: Books, costs: Costs, calls: seq<Call>)
    requires Consistent(b)
    ensures Consistent(CalledAll(b, costs, calls))
    decreases |calls|
  {
    if calls != [] {
      CallKeepsConsistent(b, costs, calls[0]);
      CallsKeepConsistent(Called(b, costs, calls[0]), costs, calls[1..]);
    }
  }

  lemma CallKeepsConsistent(b: Books, costs: Costs, c: Call)
    requires Consistent(b)
    ensures Consistent(Called(b, costs, c))
  {
    match c
    case Found(org) =>
      forall x ensures Balance(Founded(b, org), x) == TotalOf(b.ledger, x) {
        assert Balance(b, x) == TotalOf(b.ledger, x);
      }
    case DebitCall(org, operation, ref, stored) =>
      if operation in costs && costs[operation].cost != 0 {
        PostKeepsConsistent(b, Charge(org, costs[operation].cost, ref), stored);
      }
    case CreditCall(org, amount, reason, ref, stored) =>
      if amount > 0 {
        PostKeepsConsistent(b, Posting(org, amount, reason, RefOf(ref)), stored);
      }
  }

  /** Over every sequence of calls, failed ones included: the balance is the sum of the organisation's ledger
      rows, each balance_after is the running sum, and nobody ever spends more than they received. */
  lemma LedgerBalances(costs: Costs, calls: seq<Call>, org: string)
    ensures var b := CalledAll(EMPTY, costs, calls);
      && Consistent(b)
      && Balance(b, org) == Received(b.ledger, org) - Spent(b.ledger, org)
      && Spent(b.ledger, org) <= Received(b.ledger, org)
  {
    var b := CalledAll(EMPTY, costs, calls);
    CallsKeepConsistent(EMPTY, costs, calls);
    TotalSplits(b.ledger, org);
    assert Balance(b, org) == TotalOf(b.ledger, org);
  }

  /** When exactly a transaction posts, in terms of unbounded integers, and that it touches one balance. */
  lemma PostsIff(b: Books, p: Posting, stored: bool)
    requires Consistent(b)
    ensures var (b', o) := Post(b, p, stored);
      && (o.Posted? <==> stored && p.org in b.orgs && 0 <= Balance(b, p.org) + p.amount <= MAX64)
      && (o.Posted? ==> o.before == Balance(b, p.org) && Balance(b', p.org) == Balance(b, p.org) + p.amount)
      && (!o.Posted? ==> b' == b)
      && (o == InsufficientCredits ==> Balance(b, p.org) + p.amount < 0)
      && b.ledger <= b'.ledger
      && forall org :: org != p.org ==> Balance(b', org) == Balance(b, org) && TotalOf(b'.ledger, org) == TotalOf(b.ledger, org)
  {
    var (b', o) := Post(b, p, stored);
    if o.Posted? {
      forall org | org != p.org ensures TotalOf(b'.ledger, org) == TotalOf(b.ledger, org) {
        TotalSnoc(b.ledger, RowOf(p, o.after), org);
      }
    }
  }

  /** Founding an organisation seeds its balance row with zero, keeps one that is there, and touches no other. */
  lemma FoundedSeeds(b: Books, org: string)
    ensures var b' := Founded(b, org);
      && b'.orgs == b.orgs + {org} && b'.ledger == b.ledger && b'.balances.Keys == b.balances.Keys + {org}
      && Balance(b', org) == Balance(b, org)
      && (forall x :: x in b.balances ==> b'.balances[x] == b.balances[x])
  {
  }

  /** The operation is configured, active, and not free. */
  predicate Priced(costs: Costs, operation: string) {
    operation in costs && costs[operation].active && costs[operation].cost > 0
  }

  /** What the transaction added: the balance moves by the amount and one row records it. */
  ghost predicate Moved(b: Books, b': Books, org: string, amount: int, reason: string, ref: string) {
    && Balance(b', org) == Balance(b, org) + amount
    && (forall x :: x != org ==> Balance(b', x) == Balance(b, x)) && b'.orgs == b.orgs
    && |b'.ledger| == |b.ledger| + 1 && b.ledger <= b'.ledger
    && var row := b'.ledger[|b.ledger|];
       && row.org == org && row.amount == amount && row.balanceAfter == Balance(b', org)
       && row.reason == reason && row.refID == if ref == "" then None else Some(ref)
  }

  /** A debit posts if and only if its statements succeed, the organisation exists, the operation is active with a positive
      cost, and the balance covers it; then it takes exactly the cost. Every other answer has its own exact condition and
      changes nothing. */
  lemma DebitPostsIff(b: Books, costs: Costs, org: string, operation: string, ref: string, stored: bool)
    requires Consistent(b)
    ensures var (b', o) := Debited(b, costs, org, operation, ref, stored);
      && (o.Posted? <==> Priced(costs, operation) && stored && org in b.orgs && costs[operation].cost <= Balance(b, org))
      && (o == InsufficientCredits <==>
          Priced(costs, operation) && stored && org in b.orgs && Balance(b, org) < costs[operation].cost)
      && (o == Failed <==> Priced(costs, operation) && !(stored && org in b.orgs))
      && (o == Free <==> operation in costs && costs[operation].active && costs[operation].cost == 0)
      && (o == OperationNotFound <==> operation !in costs || !costs[operation].active)
      && (if o.Posted? then var price: int := costs[operation].cost;
                            o.before == Balance(b, org) && o.after == Balance(b', org) && Moved(b, b', org, -price, "operation", ref)
          else b' == b)
  {
    if Priced(costs, operation) { PostsIff(b, Charge(org, costs[operation].cost, ref), stored); }
  }

  predicate Creditable(amount: int, reason: string) {
    amount > 0 && (reason == "purchase" || reason == "refund" || reason == "free_grant")
  }

  /** The same for a credit: nothing but a failing statement, a missing organisation or the end of the int64 range stops a
      positive amount with one of the three reasons. */
  lemma CreditPostsIff(b: Books, org: string, amount: Int64, reason: string, ref: string, stored: bool)
    requires Consistent(b)
    ensures var (b', o) := Credited(b, org, amount, reason, ref, stored);
      && (o.Posted? <==> Creditable(amount, reason) && stored && org in b.orgs && Balance(b, org) + amount <= MAX64)
      && (o == Failed <==> Creditable(amount, reason) && !(stored && org in b.orgs && Balance(b, org) + amount <= MAX64))
      && (o == InvalidAmount <==> amount <= 0)
      && (o == InvalidReason <==> amount > 0 && !Creditable(amount, reason))
      && (if o.Posted? then o.before == Balance(b, org) && o.after == Balance(b', org) && Moved(b, b', org, amount, reason, ref)
          else b' == b)
  {
    if Creditable(amount, reason) { PostsIff(b, Posting(org, amount, reason, RefOf(ref)), stored); }
  }

  /** Whatever was called before, an organisation can pay for an operation exactly when what it received less what it spent
      covers the cost. */
  lemma CanPayIff(costs: Costs, calls: seq<Call>, org: string, operation: string, ref: string)
    requires Priced(costs, operation) && org in CalledAll(EMPTY, costs, calls).orgs
    ensures var b := CalledAll(EMPTY, costs, calls);
      var o := Debited(b, costs, org, operation, ref, true).1;
      && (o.Posted? <==> costs[operation].cost <= Received(b.ledger, org) - Spent(b.ledger, org))
      && (o == InsufficientCredits <==> costs[operation].cost > Received(b.ledger, org) - Spent(b.ledger, org))
  {
    LedgerBalances(costs, calls, org);
    DebitPostsIff(CalledAll(EMPTY, costs, calls), costs, org, operation, ref, true);
  }

  /** A refund of what an operation cost undoes its debit: every balance is as before, and the two rows the
      ledger keeps cancel out. Credit accepts the reason, though no caller posts refunds yet. */
  lemma RefundUndoesDebit(b: Books, costs: Costs, org: string, operation: string, ref: string)
    requires Consistent(b) && Debited(b, costs, org, operation, ref, true).1.Posted?
    ensures operation in costs && costs[operation].active
    ensures var paid := Debited(b, costs, org, operation, ref, true).0;
      var (b', o) := Credited(paid, org, costs[operation].cost, "refund", ref, true);
      && costs[operation].cost <= Balance(b, org)
      && o == Posted(Balance(b, org) - costs[operation].cost, Balance(b, org))
      && (forall x :: Balance(b', x) == Balance(b, x))
      && |b'.ledger| == |b.ledger| + 2 && b.ledger <= b'.ledger
      && b'.ledger[|b.ledger|].amount + b'.ledger[|b.ledger| + 1].amount == 0
  {
  }

  // ---- The manager object ----

  class Manager {
    var orgs: set<string>
    var balances: map<string, Money>
    var ledger: seq<LedgerRow>
    const costs: Costs

    ghost function State(): Books reads this {
      Books(orgs, balances, ledger)
    }

    constructor (costs: Costs)
      ensures State() == EMPTY && this.costs == costs
    {
      orgs, balances, ledger := {}, map[], [];
      this.costs := costs;
    }

    method CreateOrganization(org: string)
      modifies this
      ensures State() == Founded(old(State()), org)
    {
      orgs := orgs + {org};
      if org !in balances {
        balances := balances[org := 0];
      }
    }

    method GetBalance(org: string) returns (balance: Money)
      ensures balance == Balance(State(), org)
    {
      balance := if org in balances then balances[org] else 0;
    }

    method GetCost(operation: string) returns (cost: Option<Money>)
      ensures cost == if operation in costs && costs[operation].active then Some(costs[operation].cost) else None
    {
      cost := if operation in costs && costs[operation].active then Some(costs[operation].cost) else None;
    }

    method Debit(org: string, operation: string, ref: string, stored: bool) returns (o: Outcome)
      modifies this
      ensures (State(), o) == Debited(old(State()), costs, org, operation, ref, stored)
    {
      var cost := GetCost(operation);
      if cost.None? {
        return OperationNotFound;
      }
      if cost.value == 0 {
        return Free;
      }
      if !stored || (org !in balances && org !in orgs) {
        return Failed;
      }
      var current := if org in balances then balances[org] else 0;
      if current < cost.value {
        return InsufficientCredits;
      }
      var next := current - cost.value;
      balances := balances[org := next];
      ledger := ledger + [LedgerRow(org, -cost.value, next, "operation", if ref != "" then Some(ref) else None)];
      return Posted(current, next);
    }

    method Credit(org: string, amount: Int64, reason: string, ref: string, stored: bool) returns (o: Outcome)
      modifies this
      ensures (State(), o) == Credited(old(State()), org, amount, reason, ref, stored)
    {
      if amount <= 0 {
        return InvalidAmount;
      }
      if reason !in {"purchase", "refund", "free_grant"} {
        return InvalidReason;
      }
      if !stored || (org !in balances && org !in orgs) {
        return Failed;
      }
      var current := if org in balances then balances[org] else 0;
      var next := Wrap64(current + amount);
      if next < 0 {
        return Failed;
      }
      balances := balances[org := next];
      ledger := ledger + [LedgerRow(org, amount, next, reason, if ref != "" then Some(ref) else None)];
      return Posted(current, next);
    }
  }
}
