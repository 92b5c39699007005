/** The three Redis lists behind the job queue (internal/queue/queue.go).

    A list is a sequence whose index 0 is the Redis head: RPUSH appends, LPUSH prepends,
    BRPOPLPUSH takes the last element and prepends it to the destination, and
    LREM with count 1 removes the first occurrence. */
module Queue {
  import opened Wrappers

  /** The envelope that is pushed onto the queue. */
  datatype Job = Job(id: string, projectID: string, walletID: string, operation: string)

  /** A raw list element: what Marshal prints for a job, other bytes that still unmarshal to a job,
      or bytes that do not unmarshal. */
  datatype Entry =
    | Canonical(job: Job)
    | Foreign(job: Job, raw: string)
    | Malformed(raw: string)

  predicate Decodable(e: Entry) {
    !e.Malformed?
  }

  /** A dead-letter element: a job with the reason it died, or the raw bytes of a malformed entry. */
  datatype DeadLetter = DeadJob(job: Job, reason: string) | DeadRaw(entry: Entry)

  datatype Lists = Lists(main: seq<Entry>, processing: seq<Entry>, dlq: seq<DeadLetter>)

  /** LREM key 1 e. */
  function RemoveFirst(es: seq<Entry>, e: Entry): seq<Entry> {
    if es == [] then []
    else if es[0] == e then es[1..]
    else [es[0]] + RemoveFirst(es[1..], e)
  }

  lemma {:induction false} RemoveFirstMultiset(es: seq<Entry>, x: Entry)
    ensures multiset(RemoveFirst(es, x)) == multiset(es) - multiset{x}
    decreases |es|
  {
    if es != [] {
      assert es == [es[0]] + es[1..];
      if es[0] != x { RemoveFirstMultiset(es[1..], x); }
    }
  }

  lemma RemoveFirstCount(es: seq<Entry>, x: Entry, e: Entry)
    ensures multiset(RemoveFirst(es, x))[e] == if e == x && multiset(es)[e] > 0 then multiset(es)[e] - 1 else multiset(es)[e]
  {
    RemoveFirstMultiset(es, x);
  }

  /** It takes out the one nearest the head and keeps the others in order. */
  lemma {:induction false} RemovesTheFirst(es: seq<Entry>, x: Entry, i: nat)
    requires i < |es| && es[i] == x && x !in es[..i]
    ensures RemoveFirst(es, x) == es[..i] + es[i + 1..]
    decreases |es|
  {
    if i > 0 {
      assert es[0] == es[..i][0] && es[1..][..i - 1] == es[..i][1..];
      RemovesTheFirst(es[1..], x, i - 1);
    }
  }

  function Enqueued(l: Lists, job: Job): Lists {
    l.(main := l.main + [Canonical(job)])
  }

  /** BRPOPLPUSH, then the decoding of what was popped: a malformed entry is copied to the
      dead-letter list, stays in processing, and yields no job. */
  function Dequeued(l: Lists): (Lists, Option<Job>) {
    if l.main == [] then (l, None)
    else
      var e := l.main[|l.main| - 1];
      var moved := l.(main := l.main[..|l.main| - 1], processing := [e] + l.processing);
      if Decodable(e) then (moved, Some(e.job)) else (moved.(dlq := [DeadRaw(e)] + l.dlq), None)
  }

  function Acknowledged(l: Lists, job: Job): Lists {
    l.(processing := RemoveFirst(l.processing, Canonical(job)))
  }

  function Buried(l: Lists, job: Job, reason: string): Lists {
    l.(dlq := [DeadJob(job, reason)] + l.dlq)
  }

  function Requeued(l: Lists, job: Job): Lists {
    Enqueued(Acknowledged(l, job), job)
  }

  /** How a Requeue ends: both commands take effect, the LREM does not and Requeue returns its error, or the
      LREM does and the RPUSH does not. */
  datatype Requeuing = Moved | Kept | Dropped

  function RequeuedAs(l: Lists, job: Job, o: Requeuing): Lists {
    match o
    case Moved => Requeued(l, job)
    case Kept => l
    case Dropped => Acknowledged(l, job)
  }

  /** The entries among `es` that decode, in order. */
  function DecodableOf(es: seq<Entry>): seq<Entry> {
    if es == [] then []
    else if Decodable(es[0]) then [es[0]] + DecodableOf(es[1..]) else DecodableOf(es[1..])
  }

  /** What pushing those entries back prints: each one re-encoded. */
  function Reencoded(es: seq<Entry>): seq<Entry> {
    if es == [] then []
    else if Decodable(es[0]) then [Canonical(es[0].job)] + Reencoded(es[1..]) else Reencoded(es[1..])
  }

  /** The entries that LREM of a re-encoded job can never match. */
  function Unmatched(es: seq<Entry>): seq<Entry> {
    if es == [] then []
    else if es[0].Canonical? then Unmatched(es[1..]) else [es[0]] + Unmatched(es[1..])
  }

  /** The state RecoverStalled reaches: every decodable entry is re-encoded onto main in list order,
      and only the entries that are not canonical encodings stay in processing. */
  function Recovered(l: Lists): Lists {
    l.(main := l.main + Reencoded(l.processing), processing := Unmatched(l.processing))
  }

  // ---- Recovery, one snapshot item at a time ----

  /** The outcome of the first item of a snapshot; items beyond the list are moved. */
  function First(outs: seq<Requeuing>): Requeuing {
    if outs == [] then Moved else outs[0]
  }

  function Rest(outs: seq<Requeuing>): seq<Requeuing> {
    if outs == [] then [] else outs[1..]
  }

  /** The loop of RecoverStalled over the rest of its snapshot, when its Requeue calls end as listed. */
  function RequeueEach(l: Lists, items: seq<Entry>, outs: seq<Requeuing>): Lists
    decreases |items|
  {
    if items == [] then l
    else if Decodable(items[0]) then RequeueEach(RequeuedAs(l, items[0].job, First(outs)), items[1..], Rest(outs))
    else RequeueEach(l, items[1..], Rest(outs))
  }

  /** How many of its Requeue calls succeed. */
  function MovedCount(items: seq<Entry>, outs: seq<Requeuing>): nat
    decreases |items|
  {
    if items == [] then 0
    else (if Decodable(items[0]) && First(outs).Moved? then 1 else 0) + MovedCount(items[1..], Rest(outs))
  }

  /** The entries it removes without putting them back. */
  function DroppedOf(items: seq<Entry>, outs: seq<Requeuing>): seq<Entry>
    decreases |items|
  {
    if items == [] then []
    else (if Decodable(items[0]) && First(outs).Dropped? then [items[0]] else []) + DroppedOf(items[1..], Rest(outs))
  }

  lemma {:induction false} RequeueEachMain(l: Lists, items: seq<Entry>)
    ensures RequeueEach(l, items, []).main == l.main + Reencoded(items)
    ensures RequeueEach(l, items, []).dlq == l.dlq
    decreases |items|
  {
    if items != [] {
      RequeueEachMain(if Decodable(items[0]) then Requeued(l, items[0].job) else l, items[1..]);
    }
  }

  lemma {:induction false} MovedAreDecodable(items: seq<Entry>)
    ensures MovedCount(items, []) == |DecodableOf(items)|
    decreases |items|
  {
    if items != [] { MovedAreDecodable(items[1..]); }
  }

  lemma {:induction false} UnmatchedRemove(es: seq<Entry>, job: Job)
    ensures Unmatched(RemoveFirst(es, Canonical(job))) == Unmatched(es)
    decreases |es|
  {
    if es != [] && es[0] != Canonical(job) {
      var rest := RemoveFirst(es[1..], Canonical(job));
      assert ([es[0]] + rest)[1..] == rest;
      UnmatchedRemove(es[1..], job);
    }
  }

  lemma {:induction false} UnmatchedOnly(es: seq<Entry>)
    requires forall e :: e in es ==> !e.Canonical?
    ensures Unmatched(es) == es
    decreases |es|
  {
    if es != [] {
      assert forall e :: e in es[1..] ==> e in es;
      UnmatchedOnly(es[1..]);
      assert es == [es[0]] + es[1..];
    }
  }

  /** If every canonical entry still in processing has a snapshot item left, none survives the loop. */
  lemma {:induction false} RequeueEachProcessing(l: Lists, items: seq<Entry>)
    requires forall e: Entry :: e.Canonical? ==> multiset(l.processing)[e] <= multiset(items)[e]
    ensures RequeueEach(l, items, []).processing == Unmatched(l.processing)
    decreases |items|
  {
    if items == [] {
      forall e | e in l.processing ensures !e.Canonical? {
        assert multiset(l.processing)[e] > 0;
      }
      UnmatchedOnly(l.processing);
    } else {
      var x := items[0];
      assert items == [x] + items[1..];
      var l' := if Decodable(x) then Requeued(l, x.job) else l;
      if Decodable(x) {
        UnmatchedRemove(l.processing, x.job);
        RemoveFirstMultiset(l.processing, Canonical(x.job));
      }
      RequeueEachProcessing(l', items[1..]);
    }
  }

  lemma RequeueSnapshotRecovers(l: Lists)
    ensures RequeueEach(l, l.processing, []) == Recovered(l)
    ensures MovedCount(l.processing, []) == |DecodableOf(l.processing)|
  {
    MovedAreDecodable(l.processing);
    RequeueEachMain(l, l.processing);
    RequeueEachProcessing(l, l.processing);
  }

  // ---- What recovery conserves ----

  function AllEntries(l: Lists): multiset<Entry> {
    multiset(l.main) + multiset(l.processing)
  }

  /** A dequeue moves one entry and drops none, malformed ones included. */
  lemma DequeueConserves(l: Lists)
    ensures var l' := Dequeued(l).0;
      AllEntries(l') == AllEntries(l) && |l'.processing| == |l.processing| + if l.main == [] then 0 else 1
  {
    if l.main != [] { assert l.main == l.main[..|l.main| - 1] + [l.main[|l.main| - 1]]; }
  }

  predicate WellEncoded(es: seq<Entry>) {
    forall e :: e in es ==> !e.Foreign?
  }

  lemma {:induction false} ReencodedCounts(es: seq<Entry>)
    ensures WellEncoded(es) ==> multiset(Reencoded(es)) + multiset(Unmatched(es)) == multiset(es)
    ensures |Reencoded(es)| + |Unmatched(es)| >= |es|
    ensures !WellEncoded(es) ==> |Reencoded(es)| + |Unmatched(es)| > |es|
    ensures |Reencoded(es)| == |DecodableOf(es)|
    decreases |es|
  {
    if es != [] {
      assert es == [es[0]] + es[1..];
      ReencodedCounts(es[1..]);
      if WellEncoded(es) {
        assert forall e :: e in es[1..] ==> e in es;
      } else if !es[0].Foreign? {
        assert forall e :: e in es ==> e == es[0] || e in es[1..];
        assert !WellEncoded(es[1..]);
      }
    }
  }

  /** Recovery neither loses nor duplicates an entry exactly when every decodable entry is the
      canonical print of its job; a foreign encoding stays behind and is pushed again. */
  lemma RecoveryConservesIff(l: Lists)
    ensures AllEntries(Recovered(l)) == AllEntries(l) <==> WellEncoded(l.processing)
  {
    ReencodedCounts(l.processing);
    if !WellEncoded(l.processing) {
      assert |AllEntries(Recovered(l))| > |AllEntries(l)|;
    }
  }

  /** One copy of an entry, wherever a Requeue leaves it. */
  lemma RequeueAccounts(l: Lists, x: Entry, o: Requeuing, e: Entry)
    requires x.Canonical? && multiset(l.processing)[x] > 0
    ensures AllEntries(RequeuedAs(l, x.job, o))[e] == AllEntries(l)[e] - (if o.Dropped? && e == x then 1 else 0)
    ensures multiset(RequeuedAs(l, x.job, o).processing)[e] >= multiset(l.processing)[e] - (if e == x then 1 else 0)
  {
    RemoveFirstCount(l.processing, x, e);
  }

  function CountIn(es: seq<Entry>, e: Entry): nat {
    multiset(es)[e]
  }

  lemma CountCons(x: Entry, es: seq<Entry>, e: Entry)
    ensures CountIn([x] + es, e) == CountIn(es, e) + if x == e then 1 else 0
  {
  }

  lemma WellEncodedRest(items: seq<Entry>)
    requires items != [] && WellEncoded(items)
    ensures WellEncoded(items[1..])
    ensures Decodable(items[0]) ==> items[0].Canonical?
  {
    assert items[0] in items;
    assert forall y :: y in items[1..] ==> y in items;
  }

  ghost predicate HasAll(es: seq<Entry>, items: seq<Entry>) {
    forall e :: CountIn(items, e) <= CountIn(es, e)
  }

  lemma RequeueKeepsRest(l: Lists, items: seq<Entry>, o: Requeuing)
    requires items != [] && WellEncoded(items) && HasAll(l.processing, items)
    ensures HasAll((if Decodable(items[0]) then RequeuedAs(l, items[0].job, o) else l).processing, items[1..])
    ensures CountIn(l.processing, items[0]) > 0
  {
    var x := items[0];
    assert items == [x] + items[1..];
    WellEncodedRest(items);
    CountCons(x, items[1..], x);
    forall e ensures CountIn(items[1..], e) + (if x == e then 1 else 0) <= CountIn(l.processing, e) {
      CountCons(x, items[1..], e);
    }
    if Decodable(x) {
      forall e ensures CountIn(RequeuedAs(l, x.job, o).processing, e) >= CountIn(l.processing, e) - (if e == x then 1 else 0) {
        RequeueAccounts(l, x, o, e);
      }
    }
  }

  /** Recovery in which Requeue calls fail: with canonical encodings it loses exactly the entries whose LREM took
      effect and whose RPUSH did not. */
  lemma {:induction false} RecoveryLosesDropped(l: Lists, items: seq<Entry>, outs: seq<Requeuing>, e: Entry)
    requires WellEncoded(items) && HasAll(l.processing, items)
    ensures AllEntries(RequeueEach(l, items, outs))[e] + CountIn(DroppedOf(items, outs), e) == AllEntries(l)[e]
    decreases |items|
  {
    if items != [] {
      var x, o := items[0], First(outs);
      WellEncodedRest(items);
      RequeueKeepsRest(l, items, o);
      if Decodable(x) {
        RequeueAccounts(l, x, o, e);
        RecoveryLosesDropped(RequeuedAs(l, x.job, o), items[1..], Rest(outs), e);
      } else {
        RecoveryLosesDropped(l, items[1..], Rest(outs), e);
      }
      CountCons(x, DroppedOf(items[1..], Rest(outs)), e);
      assert [] + DroppedOf(items[1..], Rest(outs)) == DroppedOf(items[1..], Rest(outs));
    }
  }

  /** With canonical encodings, what is left in processing is exactly what does not decode. */
  lemma {:induction false} RecoveryLeavesOnlyMalformed(es: seq<Entry>, e: Entry)
    requires WellEncoded(es)
    ensures e in Unmatched(es) <==> e in es && !Decodable(e)
    decreases |es|
  {
    if es != [] {
      assert forall x :: x in es[1..] ==> x in es;
      RecoveryLeavesOnlyMalformed(es[1..], e);
      assert es == [es[0]] + es[1..];
    }
  }

  // ---- Order ----

  function EnqueueAll(l: Lists, jobs: seq<Job>): Lists
    decreases |jobs|
  {
    if jobs == [] then l else EnqueueAll(Enqueued(l, jobs[0]), jobs[1..])
  }

  /** The jobs that n successive dequeues hand out. */
  function DequeueMany(l: Lists, n: nat): seq<Option<Job>>
    decreases n
  {
    if n == 0 then [] else [Dequeued(l).1] + DequeueMany(Dequeued(l).0, n - 1)
  }

  function Reversed<T>(s: seq<T>): (r: seq<T>)
    ensures |r| == |s|
    ensures forall i :: 0 <= i < |s| ==> r[i] == s[|s| - 1 - i]
  {
    if s == [] then [] else Reversed(s[1..]) + [s[0]]
  }

  lemma {:induction false} EnqueueAllMain(l: Lists, jobs: seq<Job>)
    ensures |EnqueueAll(l, jobs).main| == |l.main| + |jobs|
    ensures EnqueueAll(l, jobs).main[..|l.main|] == l.main
    ensures forall i :: 0 <= i < |jobs| ==> EnqueueAll(l, jobs).main[|l.main| + i] == Canonical(jobs[i])
    decreases |jobs|
  {
    if jobs != [] {
      var l1 := Enqueued(l, jobs[0]);
      EnqueueAllMain(l1, jobs[1..]);
      var m := EnqueueAll(l, jobs).main;
      assert m[..|l.main|] == m[..|l1.main|][..|l.main|];
      assert m[|l.main|] == m[..|l1.main|][|l.main|];
      forall i | 1 <= i < |jobs| ensures m[|l.main| + i] == Canonical(jobs[i]) {
        assert jobs[i] == jobs[1..][i - 1];
        assert m[|l1.main| + (i - 1)] == Canonical(jobs[1..][i - 1]);
      }
    }
  }

  lemma {:induction false} DequeueManyTakesTail(l: Lists, n: nat, i: nat)
    requires i < n <= |l.main|
    requires Decodable(l.main[|l.main| - 1 - i])
    ensures |DequeueMany(l, n)| == n && DequeueMany(l, n)[i] == Some(l.main[|l.main| - 1 - i].job)
    decreases n
  {
    if i > 0 {
      DequeueManyTakesTail(Dequeued(l).0, n - 1, i - 1);
    } else {
      DequeueManyLength(Dequeued(l).0, n - 1);
    }
  }

  lemma {:induction false} DequeueManyLength(l: Lists, n: nat)
    ensures |DequeueMany(l, n)| == n
    decreases n
  {
    if n > 0 { DequeueManyLength(Dequeued(l).0, n - 1); }
  }

  /** RPUSH with BRPOPLPUSH is a stack: dequeuing what was just enqueued yields the newest first. */
  lemma NewestFirst(l: Lists, jobs: seq<Job>)
    ensures var got := DequeueMany(EnqueueAll(l, jobs), |jobs|);
      |got| == |jobs| && forall i :: 0 <= i < |jobs| ==> got[i] == Some(jobs[|jobs| - 1 - i])
  {
    var l' := EnqueueAll(l, jobs);
    EnqueueAllMain(l, jobs);
    DequeueManyLength(l', |jobs|);
    forall i | 0 <= i < |jobs| ensures DequeueMany(l', |jobs|)[i] == Some(jobs[|jobs| - 1 - i]) {
      assert l'.main[|l'.main| - 1 - i] == Canonical(jobs[|jobs| - 1 - i]);
      DequeueManyTakesTail(l', |jobs|, i);
    }
  }

  /** The lists after n successive dequeues. */
  function DequeuedTimes(l: Lists, n: nat): Lists
    decreases n
  {
    if n == 0 then l else DequeuedTimes(Dequeued(l).0, n - 1)
  }

  lemma DequeuedOne(l: Lists)
    requires l.main != [] && forall e :: e in l.main ==> e.Canonical?
    ensures var last := |l.main| - 1; Dequeued(l).0 == Lists(l.main[..last], [l.main[last]] + l.processing, l.dlq)
    ensures forall e :: e in Dequeued(l).0.main ==> e.Canonical?
  {
    assert l.main[|l.main| - 1] in l.main;
    assert forall e :: e in l.main[..|l.main| - 1] ==> e in l.main;
  }

  lemma TailParts(es: seq<Entry>, n: nat)
    requires 0 < n <= |es|
    ensures var front := es[..|es| - 1];
      front[..|front| - (n - 1)] == es[..|es| - n] && front[|front| - (n - 1)..] + [es[|es| - 1]] == es[|es| - n..]
  {
  }

  lemma {:induction false} DequeuedTimesMoves(l: Lists, n: nat)
    requires n <= |l.main| && forall e :: e in l.main ==> e.Canonical?
    ensures var l' := DequeuedTimes(l, n);
      l'.main == l.main[..|l.main| - n] && l'.processing == l.main[|l.main| - n..] + l.processing && l'.dlq == l.dlq
    decreases n
  {
    if n > 0 {
      var l1 := Dequeued(l).0;
      DequeuedOne(l);
      DequeuedTimesMoves(l1, n - 1);
      TailParts(l.main, n);
      assert l.main[|l.main| - n..] + l.processing
          == l1.main[|l1.main| - (n - 1)..] + ([l.main[|l.main| - 1]] + l.processing);
    }
  }

  lemma {:induction false} CanonicalAsIs(es: seq<Entry>)
    requires forall e :: e in es ==> e.Canonical?
    ensures Reencoded(es) == es && Unmatched(es) == []
    decreases |es|
  {
    if es != [] {
      assert forall e :: e in es[1..] ==> e in es;
      CanonicalAsIs(es[1..]);
      assert es[0] in es && es == [es[0]] + es[1..];
    }
  }

  /** A crash costs the queue no order: whatever number of jobs was handed out, recovery restores the lists as they were
      before. */
  lemma RecoveryUndoesDequeues(l: Lists, n: nat)
    requires n <= |l.main| && l.processing == [] && forall e :: e in l.main ==> e.Canonical?
    ensures RequeueEach(DequeuedTimes(l, n), DequeuedTimes(l, n).processing, []) == l
  {
    var l' := DequeuedTimes(l, n);
    DequeuedTimesMoves(l, n);
    RequeueSnapshotRecovers(l');
    assert l'.processing == l.main[|l.main| - n..];
    assert forall e :: e in l'.processing ==> e in l.main;
    CanonicalAsIs(l'.processing);
    assert l.main[..|l.main| - n] + l.main[|l.main| - n..] == l.main;
  }

  /** So the FIFO order that the comment and the test promise holds only for a list of jobs that
      reads the same backwards. */
  lemma FifoIffPalindrome(l: Lists, jobs: seq<Job>)
    ensures (forall i :: 0 <= i < |jobs| ==>
        |DequeueMany(EnqueueAll(l, jobs), |jobs|)| == |jobs| &&
        DequeueMany(EnqueueAll(l, jobs), |jobs|)[i] == Some(jobs[i]))
      <==> Reversed(jobs) == jobs
  {
    NewestFirst(l, jobs);
    var got := DequeueMany(EnqueueAll(l, jobs), |jobs|);
    if forall i :: 0 <= i < |jobs| ==> |got| == |jobs| && got[i] == Some(jobs[i]) {
      forall i | 0 <= i < |jobs| ensures Reversed(jobs)[i] == jobs[i] {
        assert got[i] == Some(jobs[|jobs| - 1 - i]);
      }
    }
  }

  // ---- The queue object ----

  class JobQueue {
    var main: seq<Entry>
    var processing: seq<Entry>
    var dlq: seq<DeadLetter>

    ghost function State(): Lists reads this {
      Lists(main, processing, dlq)
    }

    constructor ()
      ensures State() == Lists([], [], [])
    {
      main, processing, dlq := [], [], [];
    }

    method Enqueue(job: Job)
      modifies this
      ensures State() == Enqueued(old(State()), job)
    {
      main := main + [Canonical(job)];
    }

    method Dequeue() returns (job: Option<Job>)
      modifies this
      ensures (State(), job) == Dequeued(old(State()))
    {
      if main == [] {
        return None;
      }
      var data := main[|main| - 1];
      main, processing := main[..|main| - 1], [data] + processing;
      if !Decodable(data) {
        dlq := [DeadRaw(data)] + dlq;
        return None;
      }
      return Some(data.job);
    }

    method Acknowledge(job: Job, ok: bool)
      modifies this
      ensures State() == if ok then Acknowledged(old(State()), job) else old(State())
    {
      if ok {
        processing := RemoveFirst(processing, Canonical(job));
      }
    }

    method MoveToDLQ(job: Job, reason: string, ok: bool)
      modifies this
      ensures State() == if ok then Buried(old(State()), job, reason) else old(State())
    {
      if ok {
        dlq := [DeadJob(job, reason)] + dlq;
      }
    }

    /** `removeOk` and `pushOk` say whether the LREM and the RPUSH take effect; false stands for the error returned. */
    method Requeue(job: Job, removeOk: bool, pushOk: bool) returns (ok: bool)
      modifies this
      ensures State() == RequeuedAs(old(State()), job, if !removeOk then Kept else if !pushOk then Dropped else Moved)
      ensures ok == (removeOk && pushOk)
    {
      if !removeOk {
        return false;
      }
      processing := RemoveFirst(processing, Canonical(job));
      if !pushOk {
        return false;
      }
      main := main + [Canonical(job)];
      return true;
    }

    /** `outs` lists how the Requeue calls of the snapshot's items end. */
    method RecoverStalled(outs: seq<Requeuing>) returns (recovered: nat)
      modifies this
      ensures State() == RequeueEach(old(State()), old(processing), outs)
      ensures recovered == MovedCount(old(processing), outs)
    {
      var items, left := processing, outs;
      ghost var start := State();
      recovered := 0;
      for i := 0 to |items|
        invariant RequeueEach(State(), items[i..], left) == RequeueEach(start, items, outs)
        invariant recovered + MovedCount(items[i..], left) == MovedCount(items, outs)
      {
        assert items[i..][0] == items[i] && items[i..][1..] == items[i + 1..];
        if Decodable(items[i]) {
          var ok := Requeue(items[i].job, !First(left).Kept?, !First(left).Dropped?);
          if ok {
            recovered := recovered + 1;
          }
        }
        left := Rest(left);
      }
      assert items[|items|..] == [];
    }
  }
}
