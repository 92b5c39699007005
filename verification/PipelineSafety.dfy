/** Safety of the job pipeline over every run: entries are conserved, no job is lost, a job enqueued once
    has a single holder, and its final row never changes. */
module PipelineSafety {
  import opened Wrappers
  import opened Queue
  import opened Store
  import opened Pipeline

  // ---- Rows that entries refer to ----

  predicate Known(rows: Table, job: Job) {
    job.id in rows && rows[job.id].projectID == job.projectID
  }

  predicate AllKnown(rows: Table, es: seq<Entry>) {
    forall e :: e in es ==> e.Canonical? && Known(rows, e.job)
  }

  predicate PoolKnown(rows: Table, ws: seq<Phase>) {
    forall i :: 0 <= i < |ws| && !ws[i].Idle? ==> Known(rows, ws[i].job)
  }

  predicate HistoryKnown(rows: Table, enqueued: multiset<Entry>) {
    forall e :: e in enqueued ==> e.Canonical? && Known(rows, e.job)
  }

  predicate Base(s: System) {
    && AllKnown(s.rows, s.q.main) && AllKnown(s.rows, s.q.processing)
    && PoolKnown(s.rows, s.ws) && HistoryKnown(s.rows, s.hist.enqueued)
  }

  /** What a row was created with. */
  predicate SameRequest(r: JobRow, r': JobRow) {
    && r'.projectID == r.projectID && r'.walletID == r.walletID && r'.operation == r.operation
    && r'.payload == r.payload && r'.key == r.key
  }

  /** Rows are never dropped, keep what they were created with, and never lose an attempt. */
  predicate RowsGrow(t: Table, t': Table) {
    forall id :: id in t ==> id in t' && SameRequest(t[id], t'[id]) && t'[id].attempts >= t[id].attempts
  }

  lemma StepGrowsRows(s: System, a: Action)
    requires Enabled(s, a)
    ensures RowsGrow(s.rows, RowsAfter(s, a))
  {
  }

  lemma RemoveFirstKnown(rows: Table, es: seq<Entry>, x: Entry)
    requires AllKnown(rows, es)
    ensures AllKnown(rows, RemoveFirst(es, x))
  {
    forall e | e in RemoveFirst(es, x) ensures e in es {
      RemoveFirstMultiset(es, x);
      assert e in multiset(RemoveFirst(es, x));
    }
  }

  lemma ListsStayKnown(s: System, a: Action)
    requires Base(s) && Enabled(s, a)
    ensures AllKnown(s.rows, ListsAfter(s, a).main) && AllKnown(s.rows, ListsAfter(s, a).processing)
  {
    if a.Fetch? {
      assert s.q.main[|s.q.main| - 1] in s.q.main;
    } else if a.RecoverTake? {
      RemoveFirstKnown(s.rows, s.q.processing, Canonical(a.job));
    } else if (a.Ack? && a.removed) || (a.Take? && a.removed) {
      RemoveFirstKnown(s.rows, s.q.processing, Canonical(s.ws[a.w].job));
    }
  }

  lemma PoolStaysKnown(s: System, a: Action)
    requires Base(s) && Enabled(s, a)
    ensures PoolKnown(s.rows, PoolAfter(s, a))
  {
    if a.Fetch? {
      assert s.q.main[|s.q.main| - 1] in s.q.main;
    } else if a.RecoverTake? {
      assert Canonical(a.job) in s.q.processing;
    }
  }

  lemma HistoryStaysKnown(s: System, a: Action)
    requires Base(s) && Enabled(s, a)
    ensures HistoryKnown(s.rows, HistoryAfter(s, a).enqueued)
  {
  }

  lemma ApplyKeepsBase(s: System, a: Action)
    requires Base(s)
    ensures Base(Apply(s, a))
  {
    if Enabled(s, a) {
      StepGrowsRows(s, a);
      ListsStayKnown(s, a);
      PoolStaysKnown(s, a);
      HistoryStaysKnown(s, a);
      KnownGrows(s.rows, RowsAfter(s, a), ListsAfter(s, a).main);
      KnownGrows(s.rows, RowsAfter(s, a), ListsAfter(s, a).processing);
    }
  }

  lemma KnownGrows(t: Table, t': Table, es: seq<Entry>)
    requires RowsGrow(t, t') && AllKnown(t, es)
    ensures AllKnown(t', es)
  {
  }

  // ---- Counting one entry ----

  function InMain(s: System, e: Entry): nat { multiset(s.q.main)[e] }

  function InProcessing(s: System, e: Entry): nat { multiset(s.q.processing)[e] }

  /** Processing covers what the workers hold there, and every Enqueue of the entry is accounted for. */
  predicate Balanced(s: System, e: Entry) {
    && Sum(Open, s.ws, e) + Sum(Committed, s.ws, e) <= InProcessing(s, e)
    && s.hist.enqueued[e] == InMain(s, e) + InProcessing(s, e) + Sum(Hand, s.ws, e) + s.hist.acked[e] + s.hist.lost[e]
  }

  /** What one worker's step does to the role counts of one entry. */
  lemma Sums(s: System, a: Action, e: Entry)
    requires OfWorker(a) && Enabled(s, a)
    ensures var (ws, p, p') := (PoolAfter(s, a), s.ws[a.w], PhaseAfter(s, a));
      && Sum(Open, ws, e) == Sum(Open, s.ws, e) - Weight(Open, p, e) + Weight(Open, p', e)
      && Sum(Committed, ws, e) == Sum(Committed, s.ws, e) - Weight(Committed, p, e) + Weight(Committed, p', e)
      && Sum(Hand, ws, e) == Sum(Hand, s.ws, e) - Weight(Hand, p, e) + Weight(Hand, p', e)
      && Weight(Open, p, e) <= Sum(Open, s.ws, e)
      && Weight(Committed, p, e) <= Sum(Committed, s.ws, e)
      && Weight(Hand, p, e) <= Sum(Hand, s.ws, e)
  {
    SumUpdate(Open, s.ws, a.w, PhaseAfter(s, a), e);
    SumUpdate(Committed, s.ws, a.w, PhaseAfter(s, a), e);
    SumUpdate(Hand, s.ws, a.w, PhaseAfter(s, a), e);
  }

  lemma PopCount(es: seq<Entry>, e: Entry)
    requires es != []
    ensures multiset(es)[e] == multiset(es[..|es| - 1])[e] + (if e == es[|es| - 1] then 1 else 0)
  {
    assert es == es[..|es| - 1] + [es[|es| - 1]];
  }

  lemma FetchCounts(s: System, a: Action, e: Entry)
    requires a.Fetch? && Enabled(s, a)
    ensures var last := s.q.main[|s.q.main| - 1];
      && InMain(Step(s, a), e) == InMain(s, e) - (if e == last then 1 else 0)
      && InProcessing(Step(s, a), e) == InProcessing(s, e) + (if e == last then 1 else 0)
  {
    PopCount(s.q.main, e);
  }

  lemma FetchKeepsBalanced(s: System, a: Action, e: Entry)
    requires Base(s) && Balanced(s, e) && a.Fetch? && Enabled(s, a)
    ensures Balanced(Step(s, a), e)
  {
    Sums(s, a, e);
    FetchCounts(s, a, e);
    assert s.q.main[|s.q.main| - 1] in s.q.main;
  }

  lemma RemovalCounts(s: System, a: Action, job: Job, e: Entry)
    requires Enabled(s, a) && ListsAfter(s, a) == Acknowledged(s.q, job)
    ensures InMain(Step(s, a), e) == InMain(s, e)
    ensures InProcessing(Step(s, a), e)
         == if e == Canonical(job) && InProcessing(s, e) > 0 then InProcessing(s, e) - 1 else InProcessing(s, e)
  {
    RemoveFirstCount(s.q.processing, Canonical(job), e);
  }

  lemma RecoveryKeepsBalanced(s: System, a: Action, e: Entry)
    requires Balanced(s, e) && a.RecoverTake? && Enabled(s, a)
    ensures Balanced(Step(s, a), e)
  {
    RemovalCounts(s, a, a.job, e);
    Sums(s, a, e);
    SumIdle(Open, s.ws, e);
    SumIdle(Committed, s.ws, e);
  }

  lemma TakeKeepsBalanced(s: System, a: Action, e: Entry)
    requires Balanced(s, e) && a.Take? && a.removed && Enabled(s, a)
    ensures Balanced(Step(s, a), e)
  {
    RemovalCounts(s, a, s.ws[a.w].job, e);
    Sums(s, a, e);
  }

  lemma AckKeepsBalanced(s: System, a: Action, e: Entry)
    requires Balanced(s, e) && a.Ack? && a.removed && Enabled(s, a)
    ensures Balanced(Step(s, a), e)
  {
    RemovalCounts(s, a, s.ws[a.w].job, e);
    Sums(s, a, e);
  }

  lemma PushCount(s: System, a: Action, e: Entry)
    requires a.PutBack? && Enabled(s, a)
    ensures InMain(Step(s, a), e) == InMain(s, e) + (if e == Canonical(s.ws[a.w].job) && a.pushed then 1 else 0)
    ensures InProcessing(Step(s, a), e) == InProcessing(s, e)
  {
  }

  lemma PutBackKeepsBalanced(s: System, a: Action, e: Entry)
    requires Balanced(s, e) && a.PutBack? && Enabled(s, a)
    ensures Balanced(Step(s, a), e)
  {
    Sums(s, a, e);
    PushCount(s, a, e);
  }

  lemma OtherKeepsBalanced(s: System, a: Action, e: Entry)
    requires Balanced(s, e) && Enabled(s, a)
    requires OfWorker(a) && !(a.Fetch? || a.RecoverTake? || a.PutBack? || ((a.Take? || a.Ack?) && a.removed))
    ensures Balanced(Step(s, a), e)
  {
    Sums(s, a, e);
  }

  lemma CrashKeepsBalanced(s: System, a: Action, e: Entry)
    requires Balanced(s, e) && a.Crash?
    ensures Balanced(Step(s, a), e)
  {
    SumIdle(Open, PoolAfter(s, a), e);
    SumIdle(Committed, PoolAfter(s, a), e);
    SumIdle(Hand, PoolAfter(s, a), e);
    EntriesCount(Hand, s.ws, e);
  }

  lemma OutsideKeepsBalanced(s: System, a: Action, e: Entry)
    requires Balanced(s, e) && Enabled(s, a) && !OfWorker(a) && !a.Crash?
    ensures Balanced(Step(s, a), e)
  {
  }

  lemma ApplyKeepsBalanced(s: System, a: Action, e: Entry)
    requires Base(s) && Balanced(s, e)
    ensures Balanced(Apply(s, a), e)
  {
    if Enabled(s, a) {
      if a.Crash? { CrashKeepsBalanced(s, a, e); }
      else if !OfWorker(a) { OutsideKeepsBalanced(s, a, e); }
      else if a.Fetch? { FetchKeepsBalanced(s, a, e); }
      else if a.RecoverTake? { RecoveryKeepsBalanced(s, a, e); }
      else if a.Take? && a.removed { TakeKeepsBalanced(s, a, e); }
      else if a.Ack? && a.removed { AckKeepsBalanced(s, a, e); }
      else if a.PutBack? { PutBackKeepsBalanced(s, a, e); }
      else { OtherKeepsBalanced(s, a, e); }
    }
  }

  /** The invariant of every reachable state. */
  ghost predicate Inv(s: System) {
    Base(s) && forall e :: Balanced(s, e)
  }

  lemma ApplyKeepsInv(s: System, a: Action)
    requires Inv(s)
    ensures Inv(Apply(s, a))
  {
    ApplyKeepsBase(s, a);
    forall e ensures Balanced(Apply(s, a), e) {
      ApplyKeepsBalanced(s, a, e);
    }
  }

  lemma {:induction false} ExecKeepsInv(s: System, run: seq<Action>)
    requires Inv(s)
    ensures Inv(Exec(s, run))
    decreases |run|
  {
    if run != [] {
      ApplyKeepsInv(s, run[0]);
      ExecKeepsInv(Apply(s, run[0]), run[1..]);
    }
  }

  lemma FreshInv(pool: nat, projects: map<string, int>)
    ensures Inv(Fresh(pool, projects))
  {
    var s := Fresh(pool, projects);
    forall e ensures Balanced(s, e) {
      SumIdle(Open, s.ws, e);
      SumIdle(Committed, s.ws, e);
      SumIdle(Hand, s.ws, e);
    }
  }

  /** Entry conservation in every reachable state: the Enqueue count of an entry equals its copies in main,
      in processing and in the hands of a worker between LREM and RPUSH, plus its acknowledged removals,
      plus what crashes and failing RPUSHes dropped from such hands. */
  lemma EntryConservation(pool: nat, projects: map<string, int>, run: seq<Action>, e: Entry)
    ensures var s := Exec(Fresh(pool, projects), run);
      s.hist.enqueued[e] == InMain(s, e) + InProcessing(s, e) + Sum(Hand, s.ws, e) + s.hist.acked[e] + s.hist.lost[e]
  {
    FreshInv(pool, projects);
    ExecKeepsInv(Fresh(pool, projects), run);
    assert Balanced(Exec(Fresh(pool, projects), run), e);
  }

  // ---- No job is lost ----

  /** Copies of the entry that still lead to an attempt: everywhere, less those a worker is committed to
      acknowledge. */
  function Live(s: System, e: Entry): int {
    InMain(s, e) + InProcessing(s, e) + Sum(Hand, s.ws, e) - Sum(Committed, s.ws, e)
  }

  predicate Of(e: Entry, id: string) {
    e.Canonical? && e.job.id == id
  }

  ghost predicate Covered(s: System, id: string) {
    exists e :: Of(e, id) && Live(s, e) > 0
  }

  ghost predicate WasEnqueued(s: System, id: string) {
    exists e :: Of(e, id) && e in s.hist.enqueued
  }

  ghost predicate NotLost(s: System, id: string) {
    id in s.rows && WasEnqueued(s, id) && !Ended(s.rows[id].status) ==> Covered(s, id)
  }

  /** The status write of an outcome succeeds. */
  predicate OutcomeWritten(s: System, a: Action) {
    match a
    case SignOk(_, _, written) => written
    case Fail(w, found, written) => written || (w < |s.ws| && s.ws[w].Failing? && s.ws[w].seen < Budget(s, s.ws[w].job, found))
    case _ => true
  }

  /** Besides, no crash and no failing RPUSH falls between LREM and RPUSH. */
  predicate Clean(s: System, a: Action) {
    && OutcomeWritten(s, a)
    && (a.Crash? ==> forall i :: 0 <= i < |s.ws| ==> !s.ws[i].InHand?)
    && (a.PutBack? ==> a.pushed)
  }

  ghost predicate CleanRun(s: System, run: seq<Action>)
    decreases |run|
  {
    run == [] || ((Enabled(s, run[0]) ==> Clean(s, run[0])) && CleanRun(Apply(s, run[0]), run[1..]))
  }

  /** A worker's own clean step adds nothing to the ledger of pushes and losses, and acknowledges at most the
      entry it was committed to. */
  lemma WorkerHistory(s: System, a: Action, e: Entry)
    requires OfWorker(a) && Enabled(s, a) && Clean(s, a)
    ensures var (h, h') := (s.hist, HistoryAfter(s, a));
      h'.enqueued == h.enqueued && h'.lost == h.lost
      && h'.acked[e] <= h.acked[e] + Weight(Committed, s.ws[a.w], e) && (h'.acked[e] != h.acked[e] ==> PhaseAfter(s, a).Idle?)
  {
  }

  lemma LiveChange(s: System, s': System, p: Phase, p': Phase, e: Entry)
    requires Balanced(s, e) && Balanced(s', e)
    requires s'.hist.enqueued == s.hist.enqueued && s'.hist.lost == s.hist.lost
    requires s'.hist.acked[e] <= s.hist.acked[e] + Weight(Committed, p, e)
    requires Sum(Committed, s'.ws, e) == Sum(Committed, s.ws, e) - Weight(Committed, p, e) + Weight(Committed, p', e)
    ensures Live(s', e) >= Live(s, e) - Weight(Committed, p', e)
  {
  }

  lemma OpenIsLive(s: System, w: nat)
    requires Inv(s) && w < |s.ws| && Plays(Open, s.ws[w])
    ensures Covered(s, s.ws[w].job.id)
  {
    var e := Canonical(s.ws[w].job);
    assert Balanced(s, e);
    SumUpdate(Open, s.ws, w, Idle, e);
    assert Of(e, s.ws[w].job.id) && Live(s, e) > 0;
  }

  /** Committing to acknowledge is only decided on a row that is ended. */
  lemma CommitMeansEnded(s: System, a: Action)
    requires Base(s) && OfWorker(a) && Enabled(s, a) && Clean(s, a)
    requires !Plays(Committed, s.ws[a.w]) && Plays(Committed, PhaseAfter(s, a))
    ensures var id := PhaseAfter(s, a).job.id; id in RowsAfter(s, a) && Ended(RowsAfter(s, a)[id].status)
  {
    if !a.Fetch? && !a.RecoverTake? {
      assert Known(s.rows, s.ws[a.w].job);
    }
  }

  /** A row that is not ended after a step was not ended before, or is new, or its job is held by the
      worker that wrote it. */
  lemma ReopenedRow(s: System, a: Action, id: string)
    requires Base(s) && Enabled(s, a)
    requires id in RowsAfter(s, a) && !Ended(RowsAfter(s, a)[id].status)
    ensures (id in s.rows && !Ended(s.rows[id].status)) || id !in s.rows
         || (OfWorker(a) && Plays(Open, PhaseAfter(s, a)) && PhaseAfter(s, a).job.id == id)
  {
  }

  lemma WorkerKeepsCover(s: System, a: Action, id: string)
    requires Inv(s) && OfWorker(a) && Enabled(s, a) && Clean(s, a)
    requires Covered(s, id) && id in RowsAfter(s, a) && !Ended(RowsAfter(s, a)[id].status)
    ensures Covered(Step(s, a), id)
  {
    var e :| Of(e, id) && Live(s, e) > 0;
    var s' := Step(s, a);
    ApplyKeepsInv(s, a);
    assert Balanced(s, e) && Balanced(s', e);
    Sums(s, a, e);
    WorkerHistory(s, a, e);
    LiveChange(s, s', s.ws[a.w], PhaseAfter(s, a), e);
    if Weight(Committed, PhaseAfter(s, a), e) == 1 {
      if Plays(Committed, s.ws[a.w]) {
        StillCommitted(s, a, e);
      } else {
        CommitMeansEnded(s, a);
      }
    }
    assert Of(e, id) && Live(s', e) > 0;
  }

  lemma StillCommitted(s: System, a: Action, e: Entry)
    requires Inv(s) && OfWorker(a) && Enabled(s, a)
    requires Plays(Committed, s.ws[a.w]) && Plays(Committed, PhaseAfter(s, a))
    ensures Live(Step(s, a), e) == Live(s, e)
  {
    Sums(s, a, e);
  }

  lemma OutsideKeepsCover(s: System, a: Action, id: string)
    requires Inv(s) && !OfWorker(a) && Enabled(s, a) && Clean(s, a)
    requires Covered(s, id)
    ensures Covered(Step(s, a), id)
  {
    var e :| Of(e, id) && Live(s, e) > 0;
    if a.Crash? {
      NoHands(s.ws, e);
      SumIdle(Hand, PoolAfter(s, a), e);
      SumIdle(Committed, PoolAfter(s, a), e);
    }
    assert Of(e, id) && Live(Step(s, a), e) > 0;
  }

  lemma {:induction false} NoHands(ws: seq<Phase>, e: Entry)
    requires forall i :: 0 <= i < |ws| ==> !ws[i].InHand?
    ensures Sum(Hand, ws, e) == 0
    decreases |ws|
  {
    if ws != [] { NoHands(ws[1..], e); }
  }

  lemma ApplyKeepsNotLost(s: System, a: Action, id: string)
    requires Inv(s) && (Enabled(s, a) ==> Clean(s, a)) && NotLost(s, id)
    ensures NotLost(Apply(s, a), id)
  {
    var s' := Apply(s, a);
    if Enabled(s, a) && id in s'.rows && WasEnqueued(s', id) && !Ended(s'.rows[id].status) {
      ApplyKeepsInv(s, a);
      var e :| Of(e, id) && e in s'.hist.enqueued;
      if a.Push? && a.job.id == id {
        PushIsLive(s, a);
      } else {
        PushedBefore(s, a, e);
        ReopenedRow(s, a, id);
        if OfWorker(a) && Plays(Open, PhaseAfter(s, a)) && PhaseAfter(s, a).job.id == id {
          OpenIsLive(s', a.w);
        } else if OfWorker(a) {
          WorkerKeepsCover(s, a, id);
        } else {
          OutsideKeepsCover(s, a, id);
        }
      }
    }
  }

  lemma PushedBefore(s: System, a: Action, e: Entry)
    requires Base(s) && Enabled(s, a) && e in HistoryAfter(s, a).enqueued && e.Canonical?
    requires !(a.Push? && a.job.id == e.job.id)
    ensures e in s.hist.enqueued && e.job.id in s.rows
  {
  }

  lemma PushIsLive(s: System, a: Action)
    requires a.Push? && Enabled(s, a) && Inv(s) && Inv(Step(s, a))
    ensures Covered(Step(s, a), a.job.id)
  {
    var e := Canonical(a.job);
    var s' := Step(s, a);
    assert Balanced(s', e);
    assert s'.q.main[|s.q.main|] == e;
    assert Of(e, a.job.id) && Live(s', e) > 0;
  }

  lemma {:induction false} ExecKeepsNotLost(s: System, run: seq<Action>, id: string)
    requires Inv(s) && NotLost(s, id) && CleanRun(s, run)
    ensures NotLost(Exec(s, run), id)
    decreases |run|
  {
    if run != [] {
      ApplyKeepsInv(s, run[0]);
      ApplyKeepsNotLost(s, run[0], id);
      ExecKeepsNotLost(Apply(s, run[0]), run[1..], id);
    }
  }

  /** No job is lost: in every clean run of a pool, with any number of workers, duplicate entries, lost
      replies, failed reads, failed acknowledgements and whole-pool crashes with recovery, an enqueued job
      whose row is not completed or dead still has an entry that leads to an attempt. */
  lemma NoJobIsLost(pool: nat, projects: map<string, int>, run: seq<Action>, id: string)
    requires CleanRun(Fresh(pool, projects), run)
    ensures var s := Exec(Fresh(pool, projects), run);
      id in s.rows && WasEnqueued(s, id) && !Ended(s.rows[id].status) ==> Covered(s, id)
  {
    FreshInv(pool, projects);
    ExecKeepsNotLost(Fresh(pool, projects), run, id);
  }

  /** A crash loses a job exactly when all that was left of it was in the hands of a requeue. */
  lemma CrashLosesIff(s: System, a: Action, id: string)
    requires a.Crash?
    ensures Covered(Step(s, a), id) <==> exists e :: Of(e, id) && (e in s.q.main || e in s.q.processing)
  {
    var s' := Step(s, a);
    forall e ensures Live(s', e) == InMain(s, e) + InProcessing(s, e) {
      SumIdle(Hand, s'.ws, e);
      SumIdle(Committed, s'.ws, e);
    }
    if Covered(s', id) {
      var e :| Of(e, id) && Live(s', e) > 0;
      assert Of(e, id) && (e in multiset(s.q.main) || e in multiset(s.q.processing));
    }
    if e :| Of(e, id) && (e in s.q.main || e in s.q.processing) {
      assert InMain(s, e) + InProcessing(s, e) > 0;
      assert Live(s', e) > 0;
    }
  }

  lemma PutBackLive(s: System, a: Action, e: Entry)
    requires Balanced(s, e) && a.PutBack? && Enabled(s, a)
    ensures Live(Step(s, a), e) == Live(s, e) - (if e == Canonical(s.ws[a.w].job) && !a.pushed then 1 else 0)
    ensures e == Canonical(s.ws[a.w].job) ==> Live(s, e) > 0
  {
    Sums(s, a, e);
    PushCount(s, a, e);
  }

  /** Another copy of the job than the one in worker w's hand leads to an attempt. */
  ghost predicate CoveredBesides(s: System, w: nat)
    requires w < |s.ws| && !s.ws[w].Idle?
  {
    exists e :: Of(e, s.ws[w].job.id) && Live(s, e) > if e == Canonical(s.ws[w].job) then 1 else 0
  }

  /** The same for the other half of a requeue: its job stays covered exactly when the RPUSH takes effect or
      another copy leads to an attempt. */
  lemma RequeueLosesIff(s: System, a: Action)
    requires Inv(s) && a.PutBack? && Enabled(s, a)
    ensures Covered(Step(s, a), s.ws[a.w].job.id) <==> a.pushed || CoveredBesides(s, a.w)
  {
    var s', e0, id := Step(s, a), Canonical(s.ws[a.w].job), s.ws[a.w].job.id;
    assert Balanced(s, e0);
    PutBackLive(s, a, e0);
    assert Of(e0, id);
    if Covered(s', id) {
      var e :| Of(e, id) && Live(s', e) > 0;
      assert Balanced(s, e);
      PutBackLive(s, a, e);
      assert !a.pushed ==> Of(e, id) && Live(s, e) > if e == e0 then 1 else 0;
    }
    if CoveredBesides(s, a.w) {
      var e :| Of(e, id) && Live(s, e) > if e == e0 then 1 else 0;
      assert Balanced(s, e);
      PutBackLive(s, a, e);
      assert Of(e, id) && Live(s', e) > 0;
    }
  }

  // ---- A job enqueued once ----

  /** The entry was pushed at most once, and it is the only entry ever pushed for its job. */
  ghost predicate EnqueuedOnce(s: System, e: Entry) {
    && e.Canonical? && s.hist.enqueued[e] <= 1
    && forall x :: Of(x, e.job.id) && x in s.hist.enqueued ==> x == e
  }

  function HeldWeight(p: Phase, e: Entry): nat {
    Weight(Open, p, e) + Weight(Committed, p, e) + Weight(Hand, p, e)
  }

  lemma HeldSum(ws: seq<Phase>, i: nat, e: Entry)
    requires i < |ws|
    ensures HeldWeight(ws[i], e) <= Sum(Open, ws, e) + Sum(Committed, ws, e) + Sum(Hand, ws, e)
    ensures Sum(Open, ws[i := Idle], e) + Sum(Committed, ws[i := Idle], e) + Sum(Hand, ws[i := Idle], e)
         == Sum(Open, ws, e) + Sum(Committed, ws, e) + Sum(Hand, ws, e) - HeldWeight(ws[i], e)
  {
    SumUpdate(Open, ws, i, Idle, e);
    SumUpdate(Committed, ws, i, Idle, e);
    SumUpdate(Hand, ws, i, Idle, e);
  }

  predicate Holds(p: Phase, e: Entry) {
    !p.Idle? && Canonical(p.job) == e
  }

  lemma TwoHoldersTwoPushes(s: System, i: nat, j: nat, e: Entry)
    requires Inv(s) && i < j < |s.ws| && Holds(s.ws[i], e) && Holds(s.ws[j], e)
    ensures s.hist.enqueued[e] >= 2
  {
    assert Balanced(s, e);
    HeldSum(s.ws, i, e);
    HeldSum(s.ws[i := Idle], j, e);
  }

  lemma HolderWasPushed(s: System, i: nat)
    requires Inv(s) && i < |s.ws| && !s.ws[i].Idle?
    ensures Canonical(s.ws[i].job) in s.hist.enqueued
  {
    assert Balanced(s, Canonical(s.ws[i].job));
    HeldSum(s.ws, i, Canonical(s.ws[i].job));
  }

  /** No two workers ever hold a job that was enqueued once, across crashes and recovery. */
  lemma SingleHolder(pool: nat, projects: map<string, int>, run: seq<Action>, e: Entry, i: nat, j: nat)
    requires var s := Exec(Fresh(pool, projects), run);
      EnqueuedOnce(s, e) && i < |s.ws| && j < |s.ws| && !s.ws[i].Idle? && !s.ws[j].Idle?
      && s.ws[i].job.id == e.job.id && s.ws[j].job.id == e.job.id
    ensures i == j
  {
    var s := Exec(Fresh(pool, projects), run);
    FreshInv(pool, projects);
    ExecKeepsInv(Fresh(pool, projects), run);
    OnlyHolder(s, e, i, j);
  }

  lemma OnlyHolder(s: System, e: Entry, i: nat, j: nat)
    requires Inv(s) && EnqueuedOnce(s, e) && i < |s.ws| && j < |s.ws|
    requires !s.ws[i].Idle? && !s.ws[j].Idle? && s.ws[i].job.id == e.job.id && s.ws[j].job.id == e.job.id
    ensures i == j && Holds(s.ws[i], e)
  {
    HolderWasPushed(s, i);
    HolderWasPushed(s, j);
    assert Of(Canonical(s.ws[i].job), e.job.id) && Of(Canonical(s.ws[j].job), e.job.id);
    if i < j { TwoHoldersTwoPushes(s, i, j, e); }
    if j < i { TwoHoldersTwoPushes(s, j, i, e); }
  }

  /** The phases from which a worker can still write the row. */
  predicate Writing(p: Phase) {
    p.Ready? || p.Marked? || p.Signing? || p.Failing?
  }

  /** Once the row is ended nobody is about to write it. */
  predicate Quiet(s: System, id: string) {
    id in s.rows && Ended(s.rows[id].status) ==>
      forall i :: 0 <= i < |s.ws| && Writing(s.ws[i]) ==> s.ws[i].job.id != id
  }

  /** A row only changes by the hand of a worker that holds its job. */
  lemma RowWriter(s: System, a: Action, id: string)
    requires Enabled(s, a) && id in s.rows && RowsAfter(s, a)[id] != s.rows[id]
    ensures (a.Mark? || a.SignOk? || a.Fail?) && Writing(s.ws[a.w]) && s.ws[a.w].job.id == id
  {
  }

  lemma NotWritingAnew(s: System, a: Action, id: string)
    requires Enabled(s, a) && OfWorker(a) && id in s.rows && id in RowsAfter(s, a) && Ended(RowsAfter(s, a)[id].status)
    requires Writing(PhaseAfter(s, a)) && PhaseAfter(s, a).job.id == id && Known(s.rows, PhaseAfter(s, a).job)
    ensures Ended(s.rows[id].status) && Writing(s.ws[a.w]) && s.ws[a.w].job.id == id
  {
  }

  lemma ApplyKeepsFinal(s: System, a: Action, e: Entry)
    requires Inv(s) && EnqueuedOnce(Apply(s, a), e) && Quiet(s, e.job.id)
    ensures Quiet(Apply(s, a), e.job.id)
    ensures e.job.id in s.rows && Ended(s.rows[e.job.id].status) ==> Apply(s, a).rows[e.job.id] == s.rows[e.job.id]
  {
    if Enabled(s, a) {
      var s', id := Step(s, a), e.job.id;
      ApplyKeepsInv(s, a);
      if id in s.rows && s'.rows[id] != s.rows[id] { RowWriter(s, a, id); }
      if id in s'.rows && Ended(s'.rows[id].status) {
        forall i | 0 <= i < |s'.ws| && Writing(s'.ws[i]) ensures s'.ws[i].job.id != id {
          FinalWriter(s, a, e, i);
        }
      }
    }
  }

  lemma FinalWriter(s: System, a: Action, e: Entry, i: nat)
    requires Enabled(s, a)
    requires Inv(s) && Inv(Step(s, a)) && EnqueuedOnce(Step(s, a), e) && Quiet(s, e.job.id)
    requires var s' := Step(s, a);
      e.job.id in s'.rows && Ended(s'.rows[e.job.id].status) && i < |s'.ws| && Writing(s'.ws[i])
    ensures Step(s, a).ws[i].job.id != e.job.id
  {
    var s', id := Step(s, a), e.job.id;
    PoolStaysKnown(s, a);
    assert Known(s.rows, s'.ws[i].job);
    if s'.ws[i].job.id == id {
      if OfWorker(a) && i == a.w {
        NotWritingAnew(s, a, id);
      } else if s'.rows[id] != s.rows[id] {
        RowWriter(s, a, id);
        OnlyHolder(s, e, i, a.w);
      }
    }
  }

  lemma {:induction false} PushesGrow(s: System, run: seq<Action>, e: Entry)
    requires EnqueuedOnce(Exec(s, run), e)
    ensures EnqueuedOnce(s, e)
    decreases |run|
  {
    if run != [] {
      PushesGrow(Apply(s, run[0]), run[1..], e);
      assert forall x :: x in s.hist.enqueued ==> x in Apply(s, run[0]).hist.enqueued;
      assert s.hist.enqueued[e] <= Apply(s, run[0]).hist.enqueued[e];
    }
  }

  lemma {:induction false} ExecKeepsFinal(s: System, run: seq<Action>, e: Entry)
    requires Inv(s) && EnqueuedOnce(Exec(s, run), e) && Quiet(s, e.job.id)
    ensures Quiet(Exec(s, run), e.job.id)
    ensures e.job.id in s.rows && Ended(s.rows[e.job.id].status) ==>
      e.job.id in Exec(s, run).rows && Exec(s, run).rows[e.job.id] == s.rows[e.job.id]
    decreases |run|
  {
    if run != [] {
      var s' := Apply(s, run[0]);
      PushesGrow(s', run[1..], e);
      ApplyKeepsInv(s, run[0]);
      ApplyKeepsFinal(s, run[0], e);
      if Enabled(s, run[0]) { StepGrowsRows(s, run[0]); }
      ExecKeepsFinal(s', run[1..], e);
    }
  }

  /** Completed and dead are absorbing for a job enqueued once: whatever happens after its row is ended,
      crashes and recovery included, the row (status, result, attempts) never changes again. */
  lemma EndsAreAbsorbing(pool: nat, projects: map<string, int>, before: seq<Action>, after: seq<Action>, e: Entry)
    requires var s := Exec(Fresh(pool, projects), before);
      EnqueuedOnce(Exec(s, after), e) && e.job.id in s.rows && Ended(s.rows[e.job.id].status)
    ensures var s := Exec(Fresh(pool, projects), before); var s' := Exec(s, after);
      e.job.id in s'.rows && s'.rows[e.job.id] == s.rows[e.job.id]
  {
    var s0 := Fresh(pool, projects);
    var s := Exec(s0, before);
    FreshInv(pool, projects);
    ExecKeepsInv(s0, before);
    PushesGrow(s, after, e);
    ExecKeepsFinal(s0, before, e);
    ExecKeepsFinal(s, after, e);
  }

  /** Attempts never decrease and rows are never dropped, in any run of any pool. */
  lemma {:induction false} AttemptsNeverDecrease(s: System, run: seq<Action>, id: string)
    requires id in s.rows
    ensures id in Exec(s, run).rows && Exec(s, run).rows[id].attempts >= s.rows[id].attempts
    decreases |run|
  {
    if run != [] {
      if Enabled(s, run[0]) { StepGrowsRows(s, run[0]); }
      AttemptsNeverDecrease(Apply(s, run[0]), run[1..], id);
    }
  }

  /** A worker that decides to let go of a job enqueued once lets go of all that was left of it. */
  lemma CommittedIsGone(s: System, a: Action, e: Entry)
    requires Inv(s) && EnqueuedOnce(s, e) && Enabled(s, a) && (a.SignOk? || a.Fail?)
    requires Canonical(s.ws[a.w].job) == e && Plays(Committed, PhaseAfter(s, a))
    ensures !Covered(Step(s, a), e.job.id)
  {
    var s', id := Step(s, a), e.job.id;
    ApplyKeepsInv(s, a);
    forall x | Of(x, id) ensures Live(s', x) <= 0 {
      assert Balanced(s', x);
      if x == e { SumUpdate(Committed, s'.ws, a.w, Idle, e); } else { assert x !in s.hist.enqueued; }
    }
  }

  /** Before the outcome the row of the worker's job is known, enqueued, and not ended. */
  lemma UndecidedBefore(s: System, a: Action, e: Entry)
    requires Inv(s) && Enabled(s, a) && (a.SignOk? || a.Fail?) && Canonical(s.ws[a.w].job) == e && Quiet(s, e.job.id)
    ensures WasEnqueued(Step(s, a), e.job.id) && e.job.id in s.rows && !Ended(s.rows[e.job.id].status)
  {
    assert Known(s.rows, s.ws[a.w].job);
    HolderWasPushed(s, a.w);
    assert Of(e, e.job.id) && e in Step(s, a).hist.enqueued;
  }

  /** Why the outcome has to be written: when signing of a job enqueued once succeeds, the entry is
      acknowledged either way, and the job stays accounted for exactly when MarkJobCompleted was written. */
  lemma OutcomeKeptIffWritten(s: System, a: Action, e: Entry)
    requires Inv(s) && EnqueuedOnce(s, e) && Quiet(s, e.job.id)
    requires a.SignOk? && Enabled(s, a) && Canonical(s.ws[a.w].job) == e
    ensures NotLost(Step(s, a), e.job.id) <==> a.written
  {
    UndecidedBefore(s, a, e);
    CommittedIsGone(s, a, e);
  }

  /** The same for a failure: out of budget the entry is acknowledged either way, so the job stays accounted for exactly
      when MarkJobDead was written or there is budget left and the entry goes back. */
  lemma FailureKeptIff(s: System, a: Action, e: Entry)
    requires Inv(s) && EnqueuedOnce(s, e) && Quiet(s, e.job.id)
    requires a.Fail? && Enabled(s, a) && Canonical(s.ws[a.w].job) == e
    ensures NotLost(Step(s, a), e.job.id) <==> (a.written || s.ws[a.w].seen < Budget(s, e.job, a.found))
  {
    UndecidedBefore(s, a, e);
    ApplyKeepsInv(s, a);
    if s.ws[a.w].seen < Budget(s, e.job, a.found) {
      OpenIsLive(Step(s, a), a.w);
    } else {
      CommittedIsGone(s, a, e);
    }
  }
}
