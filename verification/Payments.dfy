/** Buying credits: the quote, its trip through the payment intent's metadata, and the webhook that credits it
    (internal/api/handlers/payment_handler.go, internal/storage/payments.go). */
module Payments {
  import opened Wrappers
  import opened Numerals
  import opened Ledger
  import opened Amount

  // ---- The quote ----

  /** Amount in cents to base and bonus credits. */
  const PACKAGES: map<int, (Int64, Int64)> :=
    map[1000 := (10000, 5000), 5000 := (50000, 25000), 10000 := (100000, 50000), 50000 := (500000, 250000)]

  const MINIMUM_CENTS := 1000

  /** Go's division truncates toward zero. */
  function Quot(n: int, d: int): int
    requires d > 0
  {
    if n >= 0 then n / d else -(-n / d)
  }

  /** creditsForAmount, in wrapping int64 arithmetic. */
  function CreditsForAmount(cents: Int64): (Int64, Int64) {
    if cents in PACKAGES then PACKAGES[cents]
    else
      var base := Wrap64(Quot(cents, 100) * 1000);
      (base, Wrap64(Quot(base, 2)))
  }

  function Quoted(cents: Int64): Int64 {
    Wrap64(CreditsForAmount(cents).0 + CreditsForAmount(cents).1)
  }

  lemma NoOverflow(q: nat)
    requires q * 1500 <= MAX64
    ensures Wrap64(q * 1000) == q * 1000 && Quot(q * 1000, 2) == q * 500
    ensures Wrap64(q * 500) == q * 500 && Wrap64(q * 1000 + q * 500) == q * 1500
  {
  }

  /** Packages and custom amounts follow one price: 1500 credits for each whole dollar, for every amount the
      endpoint accepts as long as the result fits in an int64, and only then. */
  lemma QuoteIsLinear(cents: Int64)
    requires cents >= MINIMUM_CENTS
    ensures Quoted(cents) == cents / 100 * 1500 <==> cents / 100 * 1500 <= MAX64
    ensures cents / 100 * 1500 <= MAX64 ==> CreditsForAmount(cents) == (cents / 100 * 1000, cents / 100 * 500)
  {
    var q := cents / 100;
    if q * 1500 <= MAX64 { NoOverflow(q); }
  }

  // ---- The metadata strings ----

  /** The space skipping of Sscanf, which stops with an error at a newline. */
  function SkipSpaces(s: string): Option<string> {
    if s == "" then Some(s)
    else if s[0] == '\n' then None
    else if IsSpace(s[0]) then SkipSpaces(s[1..])
    else Some(s)
  }

  function LeadingDigits(s: string): (k: nat)
    ensures k <= |s| && AllDigits(s[..k])
  {
    if s != "" && IsDigit(s[0]) then
      var k := LeadingDigits(s[1..]);
      assert s[..k + 1] == [s[0]] + s[1..][..k];
      k + 1
    else 0
  }

  /** Sscanf with %d: an optional sign and the digits that follow; whatever comes after them is ignored. */
  function ScanInt(s: string): Option<Int64> {
    match SkipSpaces(s)
    case None => None
    case Some(t) =>
      var signed := t != "" && (t[0] == '-' || t[0] == '+');
      var u := if signed then t[1..] else t;
      var k := LeadingDigits(u);
      if k == 0 then None
      else
        var n: int := Decimal(u[..k]);
        var n := if signed && t[0] == '-' then -n else n;
        if -MAX64 - 1 <= n <= MAX64 then Some(n) else None
  }

  /** parseMetadataInt64 ignores the error and is left with 0. */
  function ParseMetadata(s: string): Int64 {
    match ScanInt(s)
    case Some(n) => n
    case None => 0
  }

  lemma {:induction false} LeadingDigitsAll(s: string)
    requires AllDigits(s)
    ensures LeadingDigits(s) == |s|
    decreases |s|
  {
    if s != "" { LeadingDigitsAll(s[1..]); }
  }

  /** Digits after an optional sign. */
  lemma DigitsRead(digits: string)
    requires AllDigits(digits) && digits != ""
    ensures Decimal(digits) <= MAX64 ==> ParseMetadata(digits) == Decimal(digits)
    ensures Decimal(digits) <= MAX64 + 1 ==> ParseMetadata("-" + digits) == -(Decimal(digits) as int)
  {
    LeadingDigitsAll(digits);
    assert digits[..|digits|] == digits;
    assert IsDigit(digits[0]);
    assert SkipSpaces(digits) == Some(digits);
    var t := "-" + digits;
    assert t[0] == '-' && t[1..] == digits;
    assert SkipSpaces(t) == Some(t);
  }

  lemma {:induction false} LeadingDigitsOf(digits: string, rest: string)
    requires AllDigits(digits) && (rest == "" || !IsDigit(rest[0]))
    ensures LeadingDigits(digits + rest) == |digits|
    decreases |digits|
  {
    if digits == "" {
      assert digits + rest == rest;
    } else {
      assert (digits + rest)[1..] == digits[1..] + rest;
      LeadingDigitsOf(digits[1..], rest);
    }
  }

  lemma {:induction false} SpacesSkipped(spaces: string, s: string)
    requires (forall i :: 0 <= i < |spaces| ==> IsSpace(spaces[i]) && spaces[i] != '\n') && s != "" && !IsSpace(s[0])
    ensures SkipSpaces(spaces + s) == Some(s)
    decreases |spaces|
  {
    if spaces == "" {
      assert spaces + s == s;
    } else {
      assert (spaces + s)[1..] == spaces[1..] + s;
      SpacesSkipped(spaces[1..], s);
    }
  }

  /** A number is read up to the first character that is no digit, whatever follows, and spaces before it are skipped: a
      chain id of "137abc" is read as 137. */
  lemma ScanReadsPrefix(spaces: string, digits: string, rest: string)
    requires forall i :: 0 <= i < |spaces| ==> IsSpace(spaces[i]) && spaces[i] != '\n'
    requires AllDigits(digits) && digits != "" && (rest == "" || !IsDigit(rest[0])) && Decimal(digits) <= MAX64
    ensures ScanInt(spaces + (digits + rest)) == Some(Decimal(digits))
  {
    var t := digits + rest;
    assert t[0] == digits[0] && IsDigit(digits[0]);
    SpacesSkipped(spaces, t);
    LeadingDigitsOf(digits, rest);
    assert t[..|digits|] == digits;
  }

  /** What formatInt64 prints, parseMetadataInt64 reads back, for every int64. */
  lemma MetadataRoundTrip(n: Int64)
    ensures ParseMetadata(PrintInt(n)) == n
  {
    var m: int := n;
    var size := if m < 0 then -m else m;
    PrintValue(size);
    DigitsRead(Print(size));
  }

  // ---- The payments table and the webhook ----

  datatype PayStatus = Pending | Succeeded | Failed | Canceled

  datatype Payment = Payment(org: string, cents: Int64, base: Int64, bonus: Int64, status: PayStatus, credited: bool)

  /** A payment intent as an event carries it; the metadata are strings. */
  datatype Intent = Intent(id: string, org: string, cents: Int64, base: string, bonus: string)

  type Payments = map<string, Payment>

  /** The CHECK constraints and the generated total_credits column. */
  predicate RowAllowed(cents: Int64, base: Int64, bonus: Int64) {
    cents > 0 && base > 0 && bonus >= 0 && base + bonus <= MAX64
  }

  /** CreatePaymentIntent: the intent that Stripe is given under the id it chooses, unless Stripe fails, and the
      recorded row, which is missing when the INSERT fails. */
  function Purchased(t: Payments, org: string, cents: Int64, stripeOk: bool, id: string, recorded: bool): (Payments, Option<Intent>) {
    if cents < MINIMUM_CENTS || !stripeOk then (t, None)
    else
      var (base, bonus) := CreditsForAmount(cents);
      var pi := Intent(id, org, cents, PrintInt(base), PrintInt(bonus));
      if recorded && id !in t && RowAllowed(cents, base, bonus) then
        (t[id := Payment(org, cents, base, bonus, Pending, false)], Some(pi))
      else (t, Some(pi))
  }

  function TotalCredits(pi: Intent): Int64 {
    Wrap64(ParseMetadata(pi.base) + ParseMetadata(pi.bonus))
  }

  predicate Recorded(t: Payments, id: string) {
    id in t && t[id].credited
  }

  predicate Markable(pi: Intent) {
    RowAllowed(pi.cents, ParseMetadata(pi.base), ParseMetadata(pi.bonus))
  }

  /** MarkPaymentCredited. Without a row it inserts one whose org_id is the empty string, which is not a UUID:
      that INSERT always fails. */
  function Marked(t: Payments, pi: Intent, stored: bool): Payments {
    if stored && pi.id in t && Markable(pi) then
      t[pi.id := Payment(t[pi.id].org, pi.cents, ParseMetadata(pi.base), ParseMetadata(pi.bonus), Succeeded, true)]
    else t
  }

  function StatusUpdated(t: Payments, id: string, status: PayStatus, stored: bool): Payments {
    if stored && id in t && !t[id].credited then t[id := t[id].(status := status)] else t
  }

  datatype World = World(books: Books, payments: Payments)

  /** How the Credit transaction fares: committed and answered, not committed, or committed with its answer lost, which
      the handler takes for a failure. */
  datatype Crediting = Done | NotDone | Unanswered

  /** `readOk` and `markOk` say whether IsPaymentCredited and MarkPaymentCredited reach the database. Elsewhere is any
      other use of the ledger in between. */
  datatype Event =
    | SucceededEvent(pi: Intent, readOk: bool, credit: Crediting, markOk: bool)
    | FailedEvent(id: string, stored: bool)
    | CanceledEvent(id: string, stored: bool)
    | Elsewhere(call: Call)

  /** The Credit call that a delivery makes unless the payment is marked. */
  function Attempted(w: World, pi: Intent, readOk: bool, credit: Crediting): Option<(Books, Outcome)> {
    if pi.org == "" || !readOk || TotalCredits(pi) <= 0 then None
    else Some(Credited(w.books, pi.org, TotalCredits(pi), "purchase", pi.id, !credit.NotDone?))
  }

  /** The Credit call of handlePaymentSucceeded, if it gets that far. */
  function CreditOf(w: World, pi: Intent, readOk: bool, credit: Crediting): Option<(Books, Outcome)> {
    if Recorded(w.payments, pi.id) then None else Attempted(w, pi, readOk, credit)
  }

  predicate Pays(w: World, ev: Event) {
    ev.SucceededEvent? && var c := CreditOf(w, ev.pi, ev.readOk, ev.credit); c.Some? && c.value.1.Posted?
  }

  function Handled(w: World, costs: Costs, ev: Event): World {
    match ev
    case SucceededEvent(pi, readOk, credit, markOk) =>
      if Pays(w, ev) then
        World(CreditOf(w, pi, readOk, credit).value.0, Marked(w.payments, pi, credit.Done? && markOk))
      else w
    case FailedEvent(id, stored) => w.(payments := StatusUpdated(w.payments, id, PayStatus.Failed, stored))
    case CanceledEvent(id, stored) => w.(payments := StatusUpdated(w.payments, id, Canceled, stored))
    case Elsewhere(call) => w.(books := Called(w.books, costs, call))
  }

  function HandledAll(w: World, costs: Costs, events: seq<Event>): World
    decreases |events|
  {
    if events == [] then w else HandledAll(Handled(w, costs, events[0]), costs, events[1..])
  }

  // ---- Credited once ----

  predicate IsPaymentRow(row: LedgerRow, id: string) {
    row.reason == "purchase" && row.refID == Some(id)
  }

  /** The ledger rows that credit this payment. */
  function Paid(rows: seq<LedgerRow>, id: string): seq<LedgerRow> {
    if rows == [] then []
    else
      var last := rows[|rows| - 1];
      Paid(rows[..|rows| - 1], id) + if IsPaymentRow(last, id) then [last] else []
  }

  lemma PaidSnoc(rows: seq<LedgerRow>, row: LedgerRow, id: string)
    ensures Paid(rows + [row], id) == Paid(rows, id) + if IsPaymentRow(row, id) then [row] else []
  {
    assert (rows + [row])[..|rows|] == rows;
  }

  /** Every delivery for this payment carries the same intent, and nobody else writes purchase rows for it. */
  predicate Own(ev: Event, pi: Intent) {
    match ev
    case SucceededEvent(p, _, _, _) => p.id == pi.id ==> p == pi
    case Elsewhere(CreditCall(_, _, reason, ref, _)) => reason != "purchase" || ref != pi.id
    case _ => true
  }

  /** And its credit is answered and its marking does not fail. */
  predicate Fair(ev: Event, pi: Intent) {
    Own(ev, pi) && (ev.SucceededEvent? && ev.pi.id == pi.id ==> ev.markOk && !ev.credit.Unanswered?)
  }

  predicate Unpaid(w: World, pi: Intent) {
    pi.id in w.payments && !w.payments[pi.id].credited && Paid(w.books.ledger, pi.id) == []
  }

  predicate PaidOnce(w: World, pi: Intent) {
    && pi.id in w.payments && w.payments[pi.id].credited && w.payments[pi.id].status.Succeeded?
    && |Paid(w.books.ledger, pi.id)| == 1
    && Paid(w.books.ledger, pi.id)[0].amount == TotalCredits(pi)
    && Paid(w.books.ledger, pi.id)[0].org == pi.org
  }

  lemma PostPaid(b: Books, p: Posting, stored: bool, id: string)
    ensures var (b', o) := Post(b, p, stored);
      Paid(b'.ledger, id)
        == Paid(b.ledger, id) + if o.Posted? && p.reason == "purchase" && p.refID == Some(id) then [RowOf(p, o.after)] else []
  {
    var o := Post(b, p, stored).1;
    if o.Posted? { PaidSnoc(b.ledger, RowOf(p, o.after), id); }
  }

  lemma ElsewhereKeepsPaid(b: Books, costs: Costs, call: Call, pi: Intent)
    requires pi.id != "" && Own(Elsewhere(call), pi)
    ensures Paid(Called(b, costs, call).ledger, pi.id) == Paid(b.ledger, pi.id)
  {
    match call
    case Found(_) =>
    case DebitCall(org, operation, ref, stored) =>
      if operation in costs { PostPaid(b, Charge(org, costs[operation].cost, ref), stored, pi.id); }
    case CreditCall(org, amount, reason, ref, stored) =>
      PostPaid(b, Posting(org, amount, reason, RefOf(ref)), stored, pi.id);
  }

  lemma PaymentPosts(w: World, ev: Event, id: string)
    requires id != "" && Pays(w, ev)
    ensures var p := Posting(ev.pi.org, TotalCredits(ev.pi), "purchase", RefOf(ev.pi.id));
      var (b', o) := Post(w.books, p, true);
      && o.Posted? && CreditOf(w, ev.pi, ev.readOk, ev.credit).value == (b', o)
      && Paid(b'.ledger, id) == Paid(w.books.ledger, id) + if ev.pi.id == id then [RowOf(p, o.after)] else []
  {
    PostPaid(w.books, Posting(ev.pi.org, TotalCredits(ev.pi), "purchase", RefOf(ev.pi.id)), true, id);
  }

  /** A delivery whose credit posts. */
  lemma PayingEvent(w: World, costs: Costs, ev: Event, pi: Intent)
    requires pi.id != "" && Markable(pi) && Fair(ev, pi) && (Unpaid(w, pi) || PaidOnce(w, pi)) && Pays(w, ev)
    ensures var w' := Handled(w, costs, ev);
      if PaidOnce(w, pi) || ev.pi == pi then PaidOnce(w', pi) else Unpaid(w', pi)
  {
    PaymentPosts(w, ev, pi.id);
  }

  /** One event. */
  lemma EventPaysOnce(w: World, costs: Costs, ev: Event, pi: Intent)
    requires pi.id != "" && Markable(pi) && Fair(ev, pi) && (Unpaid(w, pi) || PaidOnce(w, pi))
    ensures var w' := Handled(w, costs, ev);
      if PaidOnce(w, pi) || (Pays(w, ev) && ev.pi == pi) then PaidOnce(w', pi) else Unpaid(w', pi)
  {
    if ev.Elsewhere? {
      ElsewhereKeepsPaid(w.books, costs, ev.call, pi);
    } else if Pays(w, ev) {
      PayingEvent(w, costs, ev, pi);
    }
  }

  /** Some delivery of this payment got its credit through. */
  predicate EverPays(w: World, costs: Costs, events: seq<Event>, pi: Intent)
    decreases |events|
  {
    events != [] && ((Pays(w, events[0]) && events[0].pi == pi) || EverPays(Handled(w, costs, events[0]), costs, events[1..], pi))
  }

  lemma {:induction false} PaidStaysPaid(w: World, costs: Costs, events: seq<Event>, pi: Intent)
    requires pi.id != "" && Markable(pi) && (forall ev :: ev in events ==> Fair(ev, pi)) && PaidOnce(w, pi)
    ensures PaidOnce(HandledAll(w, costs, events), pi)
    decreases |events|
  {
    if events != [] {
      EventPaysOnce(w, costs, events[0], pi);
      PaidStaysPaid(Handled(w, costs, events[0]), costs, events[1..], pi);
    }
  }

  /** However often and in whatever order succeeded, failed and canceled events arrive, mixed with other
      payments and other uses of the ledger: the organisation receives exactly the metadata's total exactly
      once if any delivery gets its credit through and nothing otherwise, and once paid the row says so forever. */
  lemma {:induction false} CreditedOnce(w: World, costs: Costs, events: seq<Event>, pi: Intent)
    requires pi.id != "" && Markable(pi) && (forall ev :: ev in events ==> Fair(ev, pi)) && Unpaid(w, pi)
    ensures var w' := HandledAll(w, costs, events);
      if EverPays(w, costs, events, pi) then PaidOnce(w', pi) else Unpaid(w', pi)
    decreases |events|
  {
    if events != [] {
      EventPaysOnce(w, costs, events[0], pi);
      if Pays(w, events[0]) && events[0].pi == pi {
        PaidStaysPaid(Handled(w, costs, events[0]), costs, events[1..], pi);
      } else {
        CreditedOnce(Handled(w, costs, events[0]), costs, events[1..], pi);
      }
    }
  }

  /** The intent carries what was quoted, and its row can be marked. */
  lemma PurchaseCarriesQuote(t: Payments, org: string, cents: Int64, id: string)
    requires cents >= MINIMUM_CENTS && cents / 100 * 1500 <= MAX64 && id !in t
    ensures var (t', pi) := Purchased(t, org, cents, true, id, true);
      && pi.Some? && TotalCredits(pi.value) == cents / 100 * 1500 && Markable(pi.value)
      && pi.value.id == id && pi.value.org == org && id in t' && !t'[id].credited
  {
    QuoteIsLinear(cents);
    var (base, bonus) := CreditsForAmount(cents);
    MetadataRoundTrip(base);
    MetadataRoundTrip(bonus);
  }

  /** A purchase is made if and only if it is of ten dollars or more and Stripe accepts it. The intent carries the amount and
      both parts of the quote as they are read back, and the row the same. */
  lemma PurchaseIff(t: Payments, org: string, cents: Int64, stripeOk: bool, id: string, recorded: bool)
    ensures var (t', pi) := Purchased(t, org, cents, stripeOk, id, recorded);
      && (pi.Some? <==> cents >= 1000 && stripeOk)
      && (pi.Some? ==>
            pi.value.id == id && pi.value.org == org && pi.value.cents == cents
            && ParseMetadata(pi.value.base) == CreditsForAmount(cents).0
            && ParseMetadata(pi.value.bonus) == CreditsForAmount(cents).1)
      && (t' != t ==>
            pi.Some? && recorded && id !in t
            && t' == t[id := Payment(org, cents, CreditsForAmount(cents).0, CreditsForAmount(cents).1, Pending, false)])
      && (pi.Some? && recorded && id !in t && Quoted(cents) > 0 && cents / 100 * 1500 <= MAX64 ==> id in t')
  {
    var (base, bonus) := CreditsForAmount(cents);
    MetadataRoundTrip(base);
    MetadataRoundTrip(bonus);
    if cents >= MINIMUM_CENTS { QuoteIsLinear(cents); }
  }

  /** From purchase to ledger: what a recorded purchase is eventually credited is 1500 per whole dollar. */
  lemma PurchaseToLedger(t: Payments, org: string, cents: Int64, id: string, b: Books, costs: Costs, events: seq<Event>)
    requires cents >= MINIMUM_CENTS && cents / 100 * 1500 <= MAX64
    requires id != "" && id !in t && Paid(b.ledger, id) == []
    requires forall ev :: ev in events ==> Fair(ev, Purchased(t, org, cents, true, id, true).1.value)
    ensures var (t', pi) := Purchased(t, org, cents, true, id, true);
      EverPays(World(b, t'), costs, events, pi.value) ==>
        var paid := Paid(HandledAll(World(b, t'), costs, events).books.ledger, id);
        |paid| == 1 && paid[0].amount == cents / 100 * 1500 && paid[0].org == org
  {
    var (t', pi) := Purchased(t, org, cents, true, id, true);
    PurchaseCarriesQuote(t, org, cents, id);
    CreditedOnce(World(b, t'), costs, events, pi.value);
  }

  /** No event changes the row of a credited payment. */
  lemma {:induction false} PaidRowStays(w: World, costs: Costs, events: seq<Event>, id: string)
    requires Recorded(w.payments, id)
    ensures id in HandledAll(w, costs, events).payments && HandledAll(w, costs, events).payments[id] == w.payments[id]
    decreases |events|
  {
    if events != [] { PaidRowStays(Handled(w, costs, events[0]), costs, events[1..], id); }
  }

  lemma MarkedRow(w: World, costs: Costs, ev: Event, pi: Intent)
    requires pi.id in w.payments && !w.payments[pi.id].credited && Own(ev, pi)
    ensures var w' := Handled(w, costs, ev);
      && pi.id in w'.payments && w'.payments[pi.id].org == w.payments[pi.id].org
      && (w'.payments[pi.id].credited ==>
            w'.payments[pi.id] == Payment(w.payments[pi.id].org, pi.cents, ParseMetadata(pi.base), ParseMetadata(pi.bonus), Succeeded, true))
  {
  }

  /** Once a payment is credited its row shows what its intent carries. */
  lemma {:induction false} CreditedRowShowsIntent(w: World, costs: Costs, events: seq<Event>, pi: Intent)
    requires pi.id in w.payments && !w.payments[pi.id].credited && forall ev :: ev in events ==> Own(ev, pi)
    ensures var w' := HandledAll(w, costs, events);
      && pi.id in w'.payments
      && (w'.payments[pi.id].credited ==>
            w'.payments[pi.id] == Payment(w.payments[pi.id].org, pi.cents, ParseMetadata(pi.base), ParseMetadata(pi.bonus), Succeeded, true))
    decreases |events|
  {
    if events != [] {
      var w1 := Handled(w, costs, events[0]);
      MarkedRow(w, costs, events[0], pi);
      if w1.payments[pi.id].credited {
        PaidRowStays(w1, costs, events[1..], pi.id);
      } else {
        CreditedRowShowsIntent(w1, costs, events[1..], pi);
      }
    }
  }

  /** So the row of a purchase that is paid shows what was bought: the amount, a thousand base credits and five hundred
      bonus credits for each whole dollar, succeeded and credited. */
  lemma PaidRowIsQuote(t: Payments, org: string, cents: Int64, id: string, b: Books, costs: Costs, events: seq<Event>)
    requires cents >= 1000 && cents / 100 * 1500 <= MAX64 && id != "" && id !in t && Paid(b.ledger, id) == []
    requires var pi := Purchased(t, org, cents, true, id, true).1;
      pi.Some? && forall ev :: ev in events ==> Fair(ev, pi.value)
    ensures var (t', pi) := Purchased(t, org, cents, true, id, true);
      EverPays(World(b, t'), costs, events, pi.value) ==>
        var payments := HandledAll(World(b, t'), costs, events).payments;
        id in payments && payments[id] == Payment(org, cents, cents / 100 * 1000, cents / 100 * 500, Succeeded, true)
  {
    var (t', pi) := Purchased(t, org, cents, true, id, true);
    PurchaseCarriesQuote(t, org, cents, id);
    PurchaseIff(t, org, cents, true, id, true);
    QuoteIsLinear(cents);
    CreditedOnce(World(b, t'), costs, events, pi.value);
    CreditedRowShowsIntent(World(b, t'), costs, events, pi.value);
  }

  /** A mark reaches the row exactly when the UPDATE is stored, the row exists and the columns keep their constraints; then
      the row is succeeded and credited with what the event carries, in its own organisation. */
  lemma MarkedIff(t: Payments, pi: Intent, stored: bool)
    requires !Recorded(t, pi.id)
    ensures var base, bonus := ParseMetadata(pi.base), ParseMetadata(pi.bonus);
      var t' := Marked(t, pi, stored);
      && (Recorded(t', pi.id) <==>
          stored && pi.id in t && pi.cents > 0 && base > 0 && bonus >= 0 && base + bonus <= 0x7fff_ffff_ffff_ffff)
      && (if Recorded(t', pi.id) then t' == t[pi.id := Payment(t[pi.id].org, pi.cents, base, bonus, Succeeded, true)] else t' == t)
  {
  }

  // ---- Payments that fail ----

  /** The status that the last stored failed or canceled event of the payment leaves. */
  function LastStatus(events: seq<Event>, id: string, status: PayStatus): PayStatus
    decreases |events|
  {
    if events == [] then status
    else
      match events[0]
      case FailedEvent(x, stored) => LastStatus(events[1..], id, if stored && x == id then PayStatus.Failed else status)
      case CanceledEvent(x, stored) => LastStatus(events[1..], id, if stored && x == id then PayStatus.Canceled else status)
      case _ => LastStatus(events[1..], id, status)
  }

  /** Until a payment is credited its row shows the last of its failed and canceled events, and nothing else of it
      changes. */
  lemma {:induction false} UnpaidRowShowsLast(w: World, costs: Costs, events: seq<Event>, id: string)
    requires id in w.payments && !w.payments[id].credited
    requires forall ev :: ev in events && ev.SucceededEvent? ==> ev.pi.id != id
    ensures var w' := HandledAll(w, costs, events);
      id in w'.payments && w'.payments[id] == w.payments[id].(status := LastStatus(events, id, w.payments[id].status))
    decreases |events|
  {
    if events != [] {
      assert events[0] in events;
      UnpaidRowShowsLast(Handled(w, costs, events[0]), costs, events[1..], id);
    }
  }

  // ---- When the guard fails ----

  /** A delivery of this payment that credits it unless it is marked. */
  predicate WouldPay(w: World, ev: Event, pi: Intent) {
    && ev.SucceededEvent? && ev.pi == pi
    && var c := Attempted(w, pi, ev.readOk, ev.credit); c.Some? && c.value.1.Posted?
  }

  /** Its credit is answered, and its mark reaches a row. */
  predicate MarkLands(w: World, ev: Event, pi: Intent) {
    ev.SucceededEvent? && ev.credit.Done? && ev.markOk && pi.id in w.payments && Markable(pi)
  }

  /** The deliveries that would pay, up to and including the first whose mark reaches a row. */
  function CreditsUntilMarked(w: World, costs: Costs, events: seq<Event>, pi: Intent): nat
    decreases |events|
  {
    if events == [] then 0
    else if !WouldPay(w, events[0], pi) then CreditsUntilMarked(Handled(w, costs, events[0]), costs, events[1..], pi)
    else if MarkLands(w, events[0], pi) then 1
    else 1 + CreditsUntilMarked(Handled(w, costs, events[0]), costs, events[1..], pi)
  }

  /** The rows after are the rows before and n more, each of which pays the organisation the payment's total. */
  predicate PaysMore(before: seq<LedgerRow>, after: seq<LedgerRow>, n: nat, pi: Intent) {
    && before <= after && |after| == |before| + n
    && forall k :: |before| <= k < |after| ==> after[k].amount == TotalCredits(pi) && after[k].org == pi.org
  }

  lemma PaysMoreTrans(a: seq<LedgerRow>, b: seq<LedgerRow>, c: seq<LedgerRow>, n: nat, m: nat, pi: Intent)
    requires PaysMore(a, b, n, pi) && PaysMore(b, c, m, pi)
    ensures PaysMore(a, c, n + m, pi)
  {
  }

  lemma EventMarks(w: World, costs: Costs, ev: Event, pi: Intent)
    requires Own(ev, pi)
    ensures Recorded(Handled(w, costs, ev).payments, pi.id)
        <==> (Recorded(w.payments, pi.id) || (WouldPay(w, ev, pi) && MarkLands(w, ev, pi)))
  {
  }

  /** One event, whatever it is, adds the payment's row or nothing. */
  lemma EventPays(w: World, costs: Costs, ev: Event, pi: Intent)
    requires pi.id != "" && Own(ev, pi)
    ensures var pays := WouldPay(w, ev, pi) && !Recorded(w.payments, pi.id);
      PaysMore(Paid(w.books.ledger, pi.id), Paid(Handled(w, costs, ev).books.ledger, pi.id), if pays then 1 else 0, pi)
  {
    if ev.Elsewhere? {
      ElsewhereKeepsPaid(w.books, costs, ev.call, pi);
    } else if Pays(w, ev) {
      PaymentPosts(w, ev, pi.id);
    }
  }

  lemma {:induction false} MarkedPaysNoMore(w: World, costs: Costs, events: seq<Event>, pi: Intent)
    requires pi.id != "" && (forall ev :: ev in events ==> Own(ev, pi)) && Recorded(w.payments, pi.id)
    ensures PaysMore(Paid(w.books.ledger, pi.id), Paid(HandledAll(w, costs, events).books.ledger, pi.id), 0, pi)
    decreases |events|
  {
    if events != [] {
      EventPays(w, costs, events[0], pi);
      EventMarks(w, costs, events[0], pi);
      MarkedPaysNoMore(Handled(w, costs, events[0]), costs, events[1..], pi);
    }
  }

  /** How often a payment is credited over any history of events, with credits that fail or go unanswered and marks that
      fail: once for each delivery that would pay, up to and including the first whose mark reaches a row. */
  lemma {:induction false} CreditsCounted(w: World, costs: Costs, events: seq<Event>, pi: Intent)
    requires pi.id != "" && (forall ev :: ev in events ==> Own(ev, pi)) && !Recorded(w.payments, pi.id)
    ensures var before, after := Paid(w.books.ledger, pi.id), Paid(HandledAll(w, costs, events).books.ledger, pi.id);
      PaysMore(before, after, CreditsUntilMarked(w, costs, events, pi), pi)
    decreases |events|
  {
    if events != [] {
      var w' := Handled(w, costs, events[0]);
      var n := if WouldPay(w, events[0], pi) then 1 else 0;
      EventPays(w, costs, events[0], pi);
      EventMarks(w, costs, events[0], pi);
      if Recorded(w'.payments, pi.id) {
        MarkedPaysNoMore(w', costs, events[1..], pi);
      } else {
        CreditsCounted(w', costs, events[1..], pi);
      }
      PaysMoreTrans(Paid(w.books.ledger, pi.id), Paid(w'.books.ledger, pi.id),
                    Paid(HandledAll(w, costs, events).books.ledger, pi.id),
                    n, CreditsUntilMarked(w, costs, events, pi) - n, pi);
    }
  }

  /** A delivery whose credit posts pays a second time on redelivery exactly when its mark did not reach a row. */
  lemma RedeliveryPaysAgainIff(w: World, costs: Costs, first: Event, second: Event)
    requires Pays(w, first) && second.SucceededEvent? && second.pi == first.pi && second.readOk && !second.credit.NotDone?
    requires Balance(w.books, first.pi.org) + 2 * TotalCredits(first.pi) <= MAX64
    ensures Pays(Handled(w, costs, first), second) <==> !MarkLands(w, first, first.pi)
  {
  }

  /** A payment whose row was never recorded can never be marked: each of n deliveries pays. */
  lemma {:induction false} UnrecordedPaysEveryTime(w: World, costs: Costs, pi: Intent, n: nat)
    requires pi.id != "" && pi.id !in w.payments && pi.org != "" && pi.org in w.books.orgs && TotalCredits(pi) > 0
    requires Balance(w.books, pi.org) + n * TotalCredits(pi) <= MAX64
    ensures var w' := HandledAll(w, costs, seq(n, _ => SucceededEvent(pi, true, Done, true)));
      |Paid(w'.books.ledger, pi.id)| == |Paid(w.books.ledger, pi.id)| + n
    decreases n
  {
    if n > 0 {
      var ev := SucceededEvent(pi, true, Done, true);
      var more := seq(n - 1, _ => ev);
      assert seq(n, _ => ev)[0] == ev && seq(n, _ => ev)[1..] == more;
      OneOfMany(Balance(w.books, pi.org), n, TotalCredits(pi));
      assert Pays(w, ev);
      PaymentPosts(w, ev, pi.id);
      UnrecordedPaysEveryTime(Handled(w, costs, ev), costs, pi, n - 1);
    }
  }

  lemma OneOfMany(balance: nat, n: nat, total: nat)
    requires n > 0 && balance + n * total <= MAX64
    ensures balance + total <= MAX64 && (balance + total) + (n - 1) * total <= MAX64
  {
    assert n * total == total + (n - 1) * total;
  }

  // ---- The handler object ----

  class PaymentHandler {
    const credits: Manager
    var payments: Payments

    ghost function State(): World reads this, credits {
      World(credits.State(), payments)
    }

    constructor (credits: Manager)
      ensures this.credits == credits && payments == map[]
    {
      this.credits := credits;
      payments := map[];
    }

    method CreatePaymentIntent(org: string, cents: Int64, stripeOk: bool, id: string, recorded: bool) returns (pi: Option<Intent>)
      modifies this
      ensures (payments, pi) == Purchased(old(payments), org, cents, stripeOk, id, recorded)
      ensures State().books == old(State().books)
    {
      if cents < MINIMUM_CENTS {
        return None;
      }
      var (base, bonus) := CreditsForAmount(cents);
      if !stripeOk {
        return None;
      }
      if recorded && id !in payments && RowAllowed(cents, base, bonus) {
        payments := payments[id := Payment(org, cents, base, bonus, Pending, false)];
      }
      return Some(Intent(id, org, cents, PrintInt(base), PrintInt(bonus)));
    }

    method MarkPaymentCredited(pi: Intent, base: Int64, bonus: Int64, stored: bool) returns (ok: bool)
      requires base == ParseMetadata(pi.base) && bonus == ParseMetadata(pi.bonus)
      modifies this
      ensures payments == Marked(old(payments), pi, stored)
      ensures State().books == old(State().books)
    {
      ok := stored && pi.id in payments && RowAllowed(pi.cents, base, bonus);
      if ok {
        payments := payments[pi.id := payments[pi.id].(
            cents := pi.cents, base := base, bonus := bonus, status := Succeeded, credited := true)];
      }
    }

    method UpdateStripePaymentStatus(id: string, status: PayStatus, stored: bool)
      modifies this
      ensures payments == StatusUpdated(old(payments), id, status, stored)
      ensures State().books == old(State().books)
    {
      if stored && id in payments && !payments[id].credited {
        payments := payments[id := payments[id].(status := status)];
      }
    }

    /** Returns the HTTP status. A 500 never marks the payment, but it may have credited it. */
    method HandlePaymentSucceeded(pi: Intent, readOk: bool, credit: Crediting, markOk: bool) returns (status: int)
      modifies this, credits
      ensures State() == Handled(old(State()), credits.costs, SucceededEvent(pi, readOk, credit, markOk))
      ensures status == 204 <==>
        (pi.org == "" || (readOk && (Recorded(old(payments), pi.id) || TotalCredits(pi) <= 0
          || (credit.Done? && Pays(old(State()), SucceededEvent(pi, readOk, credit, markOk))))))
      ensures status != 204 ==> status == 500 && payments == old(payments)
      ensures status != 204 && State() != old(State()) ==> credit.Unanswered?
    {
      if pi.org == "" {
        return 204;
      }
      if !readOk {
        return 500;
      }
      if pi.id in payments && payments[pi.id].credited {
        return 204;
      }
      var base, bonus := ParseMetadata(pi.base), ParseMetadata(pi.bonus);
      var sum: int := (base as int) + bonus;
      var total := Wrap64(sum);
      if total <= 0 {
        return 204;
      }
      var o := credits.Credit(pi.org, total, "purchase", pi.id, !credit.NotDone?);
      if !o.Posted? || credit.Unanswered? {
        return 500;
      }
      var _ := MarkPaymentCredited(pi, base, bonus, markOk);
      return 204;
    }

    method HandlePaymentFailed(id: string, stored: bool)
      modifies this
      ensures State() == Handled(old(State()), credits.costs, FailedEvent(id, stored))
    {
      UpdateStripePaymentStatus(id, PayStatus.Failed, stored);
    }

    method HandlePaymentCanceled(id: string, stored: bool)
      modifies this
      ensures State() == Handled(old(State()), credits.costs, CanceledEvent(id, stored))
    {
      UpdateStripePaymentStatus(id, Canceled, stored);
    }
  }
}
