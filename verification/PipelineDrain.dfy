/** Draining: without crashes and errors a finite queue is worked off in a bounded number of steps, and then
    every enqueued job is completed or dead. A job whose wallet is missing is the exception. */
module PipelineDrain {
  import opened Wrappers
  import opened Queue
  import opened Store
  import opened Pipeline
  import opened PipelineSafety
  import opened PipelineBudget

  /** A worker's step in which everything it looks up is found and every command succeeds. */
  predicate Smooth(a: Action) {
    match a
    case Fetch(_, delivered) => delivered
    case Read(_, found) => found
    case Mark(_) => true
    case Sign(_) => true
    case SignOk(_, _, written) => written
    case SignErr(_) => true
    case Fail(_, found, written) => found && written
    case Bury(_, stored) => stored
    case Ack(_, removed) => removed
    case Take(_, removed) => removed
    case PutBack(_, pushed) => pushed
    case _ => false
  }

  // ---- The measure ----

  /** Attempts left in the budget of a job that was tried `tried` times. */
  function Left(s: System, job: Job, tried: int): nat {
    Max(0, Budget(s, job, true) - tried)
  }

  function Tried(s: System, job: Job): nat {
    if job.id in s.rows then s.rows[job.id].attempts else 0
  }

  function EntryCost(s: System, e: Entry): nat {
    if e.Canonical? then 11 * Left(s, e.job, Tried(s, e.job)) + 10 else 0
  }

  function PhaseCost(s: System, p: Phase): nat {
    match p
    case Idle => 0
    case Fetched(job) => 11 * Left(s, job, Tried(s, job)) + 9
    case Ready(job, seen) => 11 * Left(s, job, seen) + 8
    case Marked(job, seen) => 11 * Left(s, job, seen) + 7
    case Signing(job, seen) => 11 * Left(s, job, seen) + 6
    case Failing(job, seen, _) => 11 * Left(s, job, seen) + 5
    case Requeueing(job) => 11 * Left(s, job, Tried(s, job)) + 12
    case InHand(job) => 11 * Left(s, job, Tried(s, job)) + 11
    case DeadMarked(_) => 2
    case Acking(_) => 1
  }

  function ListCost(s: System, es: seq<Entry>): nat {
    if es == [] then 0 else EntryCost(s, es[0]) + ListCost(s, es[1..])
  }

  function PoolCost(s: System, ws: seq<Phase>): nat {
    if ws == [] then 0 else PhaseCost(s, ws[0]) + PoolCost(s, ws[1..])
  }

  function Work(s: System): nat {
    ListCost(s, s.q.main) + PoolCost(s, s.ws)
  }

  /** Rounds of processing the entries can still take: max(0, MaxRetries - attempts) + 1 each. */
  function Rounds(s: System, es: seq<Entry>): nat {
    if es == [] then 0
    else (if es[0].Canonical? then Left(s, es[0].job, Tried(s, es[0].job)) + 1 else 0) + Rounds(s, es[1..])
  }

  lemma {:induction false} CostBoundedByRounds(s: System, es: seq<Entry>)
    ensures ListCost(s, es) <= 11 * Rounds(s, es)
    decreases |es|
  {
    if es != [] { CostBoundedByRounds(s, es[1..]); }
  }

  // ---- Costs never grow as attempts are counted ----

  predicate Later(s: System, s': System) {
    s'.projects == s.projects && RowsGrow(s.rows, s'.rows)
  }

  lemma LaterIsCheaper(s: System, s': System, job: Job, p: Phase)
    requires Later(s, s')
    ensures Left(s', job, Tried(s', job)) <= Left(s, job, Tried(s, job))
    ensures PhaseCost(s', p) <= PhaseCost(s, p)
  {
  }

  lemma {:induction false} ListCostLater(s: System, s': System, es: seq<Entry>)
    requires Later(s, s')
    ensures ListCost(s', es) <= ListCost(s, es)
    decreases |es|
  {
    if es != [] {
      if es[0].Canonical? { LaterIsCheaper(s, s', es[0].job, Idle); }
      ListCostLater(s, s', es[1..]);
    }
  }

  lemma {:induction false} ListCostAppend(s: System, es: seq<Entry>, e: Entry)
    ensures ListCost(s, es + [e]) == ListCost(s, es) + EntryCost(s, e)
    decreases |es|
  {
    if es == [] {
      assert [] + [e] == [e];
    } else {
      assert (es + [e])[1..] == es[1..] + [e];
      ListCostAppend(s, es[1..], e);
    }
  }

  lemma {:induction false} PoolCostLater(s: System, s': System, ws: seq<Phase>)
    requires Later(s, s')
    ensures PoolCost(s', ws) <= PoolCost(s, ws)
    decreases |ws|
  {
    if ws != [] {
      if !ws[0].Idle? { LaterIsCheaper(s, s', ws[0].job, ws[0]); }
      PoolCostLater(s, s', ws[1..]);
    }
  }

  lemma {:induction false} PoolCostStep(s: System, s': System, ws: seq<Phase>, i: nat, p: Phase)
    requires Later(s, s') && i < |ws|
    ensures PoolCost(s', ws[i := p]) + PhaseCost(s, ws[i]) <= PoolCost(s, ws) + PhaseCost(s', p)
    decreases |ws|
  {
    if i == 0 {
      assert ws[0 := p][1..] == ws[1..];
      PoolCostLater(s, s', ws[1..]);
    } else {
      if !ws[0].Idle? { LaterIsCheaper(s, s', ws[0].job, ws[0]); }
      assert ws[i := p][1..] == ws[1..][i - 1 := p];
      PoolCostStep(s, s', ws[1..], i - 1, p);
    }
  }

  // ---- What a worker remembers never exceeds the column ----

  predicate NotAhead(p: Phase, attempts: nat) {
    && (p.Ready? ==> p.seen <= attempts)
    && (p.Marked? || p.Signing? ==> p.seen < attempts)
    && (p.Failing? ==> p.signed && p.seen < attempts)
    && !p.Idle?
  }

  predicate Remembered(s: System) {
    forall i :: 0 <= i < |s.ws| && !s.ws[i].Idle? ==> s.ws[i].job.id in s.rows && NotAhead(s.ws[i], s.rows[s.ws[i].job.id].attempts)
  }

  lemma SmoothKeepsRemembered(s: System, a: Action)
    requires Base(s) && Smooth(a) && Enabled(s, a) && Remembered(s)
    ensures Remembered(Step(s, a))
  {
    StepGrowsRows(s, a);
    PoolStaysKnown(s, a);
    forall i | 0 <= i < |PoolAfter(s, a)| && !PoolAfter(s, a)[i].Idle?
      ensures NotAhead(PoolAfter(s, a)[i], RowsAfter(s, a)[PoolAfter(s, a)[i].job.id].attempts)
    {
      assert Known(s.rows, PoolAfter(s, a)[i].job);
    }
  }

  /** The acting worker's cost drops by more than what its step adds to main. */
  lemma FetchCost(s: System, a: Action)
    requires Base(s) && Smooth(a) && Enabled(s, a) && a.Fetch?
    ensures PhaseCost(Step(s, a), PhaseAfter(s, a)) < EntryCost(s, s.q.main[|s.q.main| - 1])
  {
    assert s.q.main[|s.q.main| - 1] in s.q.main;
  }

  lemma PutBackCost(s: System, a: Action)
    requires Base(s) && Smooth(a) && Enabled(s, a) && Remembered(s) && a.PutBack?
    ensures PhaseCost(Step(s, a), PhaseAfter(s, a)) + EntryCost(Step(s, a), Canonical(s.ws[a.w].job)) < PhaseCost(s, s.ws[a.w])
  {
    assert NotAhead(s.ws[a.w], s.rows[s.ws[a.w].job.id].attempts);
  }

  lemma OtherCost(s: System, a: Action)
    requires Base(s) && Smooth(a) && Enabled(s, a) && Remembered(s) && !a.Fetch? && !a.PutBack?
    ensures PhaseCost(Step(s, a), PhaseAfter(s, a)) < PhaseCost(s, s.ws[a.w])
  {
    assert NotAhead(s.ws[a.w], s.rows[s.ws[a.w].job.id].attempts);
  }

  lemma WorkDrops(s: System, a: Action)
    requires Base(s) && Smooth(a) && Enabled(s, a) && Remembered(s)
    ensures Work(Step(s, a)) < Work(s)
  {
    var s', p' := Step(s, a), PhaseAfter(s, a);
    StepGrowsRows(s, a);
    if a.Fetch? { FetchCost(s, a); } else if a.PutBack? { PutBackCost(s, a); } else { OtherCost(s, a); }
    PoolCostStep(s, s', s.ws, a.w, p');
    ListCostLater(s, s', s.q.main);
    if a.Fetch? {
      var n := |s.q.main| - 1;
      assert s.q.main == s.q.main[..n] + [s.q.main[n]];
      ListCostAppend(s, s.q.main[..n], s.q.main[n]);
      ListCostLater(s, s', s.q.main[..n]);
    } else if a.PutBack? {
      ListCostAppend(s', s.q.main, Canonical(s.ws[a.w].job));
    }
  }

  ghost predicate SmoothRun(s: System, run: seq<Action>)
    decreases |run|
  {
    run == [] || (Smooth(run[0]) && Enabled(s, run[0]) && SmoothRun(Step(s, run[0]), run[1..]))
  }

  lemma {:induction false} SmoothRunBound(s: System, run: seq<Action>)
    requires Inv(s) && Remembered(s) && SmoothRun(s, run)
    ensures |run| + Work(Exec(s, run)) <= Work(s)
    ensures Inv(Exec(s, run)) && Remembered(Exec(s, run))
    decreases |run|
  {
    if run != [] {
      ApplyKeepsInv(s, run[0]);
      SmoothKeepsRemembered(s, run[0]);
      WorkDrops(s, run[0]);
      SmoothRunBound(Step(s, run[0]), run[1..]);
    }
  }

  // ---- Where a smooth run ends ----

  /** Everything in processing is held by a worker. */
  ghost predicate NoOrphans(s: System) {
    forall e :: Claimed(s, e)
  }

  predicate Claimed(s: System, e: Entry) {
    InProcessing(s, e) == Sum(Open, s.ws, e) + Sum(Committed, s.ws, e)
  }

  lemma FetchKeepsClaimed(s: System, a: Action, e: Entry)
    requires Inv(s) && Smooth(a) && a.Fetch? && Enabled(s, a) && Claimed(s, e)
    ensures Claimed(Step(s, a), e)
  {
    Sums(s, a, e);
    assert s.q.main[|s.q.main| - 1] in s.q.main;
  }

  lemma RemovalKeepsClaimed(s: System, a: Action, e: Entry)
    requires Inv(s) && Smooth(a) && (a.Take? || a.Ack?) && Enabled(s, a) && Claimed(s, e)
    ensures Claimed(Step(s, a), e)
  {
    Sums(s, a, e);
    RemovalCounts(s, a, s.ws[a.w].job, e);
  }

  lemma OtherKeepsClaimed(s: System, a: Action, e: Entry)
    requires Smooth(a) && !(a.Fetch? || a.Take? || a.Ack?) && Enabled(s, a) && Claimed(s, e)
    ensures Claimed(Step(s, a), e)
  {
    Sums(s, a, e);
  }

  lemma SmoothKeepsNoOrphans(s: System, a: Action)
    requires Inv(s) && Smooth(a) && Enabled(s, a) && NoOrphans(s)
    ensures NoOrphans(Step(s, a))
  {
    forall e ensures Claimed(Step(s, a), e) {
      assert Claimed(s, e);
      if a.Fetch? { FetchKeepsClaimed(s, a, e); }
      else if a.Take? || a.Ack? { RemovalKeepsClaimed(s, a, e); }
      else { OtherKeepsClaimed(s, a, e); }
    }
  }

  ghost predicate Stuck(s: System) {
    forall a :: Smooth(a) ==> !Enabled(s, a)
  }

  /** The next smooth step of a worker that is not idle. */
  function NextAction(w: nat, p: Phase): Action
    requires !p.Idle?
  {
    match p
    case Fetched(_) => Read(w, true)
    case Ready(_, _) => Mark(w)
    case Marked(_, _) => Sign(w)
    case Signing(_, _) => SignErr(w)
    case Failing(_, _, _) => Fail(w, true, true)
    case DeadMarked(_) => Bury(w, true)
    case Acking(_) => Ack(w, true)
    case Requeueing(_) => Take(w, true)
    case InHand(_) => PutBack(w, true)
  }

  lemma StuckIsIdle(s: System)
    requires Base(s) && s.started && |s.ws| > 0 && Stuck(s)
    ensures AllIdle(s.ws) && s.q.main == []
  {
    forall i | 0 <= i < |s.ws| ensures s.ws[i].Idle? {
      if !s.ws[i].Idle? {
        var a := NextAction(i, s.ws[i]);
        assert Smooth(a) && Enabled(s, a);
      }
    }
    if s.q.main != [] {
      assert s.q.main[|s.q.main| - 1] in s.q.main;
      assert Smooth(Fetch(0, true)) && Enabled(s, Fetch(0, true));
    }
  }

  lemma SmoothIsClean(s: System, a: Action)
    requires Smooth(a)
    ensures Clean(s, a)
  {
  }

  lemma SmoothStepKeeps(s: System, a: Action)
    requires Smooth(a) && Enabled(s, a)
    ensures var s' := Step(s, a);
      s'.started == s.started && |s'.ws| == |s.ws| && s'.hist.enqueued == s.hist.enqueued
  {
  }

  lemma {:induction false} SmoothRunKeeps(s: System, run: seq<Action>, id: string)
    requires Inv(s) && NoOrphans(s) && NotLost(s, id) && SmoothRun(s, run)
    ensures NoOrphans(Exec(s, run)) && NotLost(Exec(s, run), id)
    ensures Exec(s, run).started == s.started && |Exec(s, run).ws| == |s.ws|
    ensures Exec(s, run).hist.enqueued == s.hist.enqueued
    decreases |run|
  {
    if run != [] {
      ApplyKeepsInv(s, run[0]);
      SmoothKeepsNoOrphans(s, run[0]);
      SmoothIsClean(s, run[0]);
      ApplyKeepsNotLost(s, run[0], id);
      SmoothStepKeeps(s, run[0]);
      SmoothRunKeeps(Step(s, run[0]), run[1..], id);
    }
  }

  lemma HeadCounts(s: System)
    requires s.q.processing != []
    ensures InProcessing(s, s.q.processing[0]) > 0
  {
    assert s.q.processing[0] in s.q.processing;
  }

  lemma NothingLeftNothingCovered(s: System, id: string)
    requires AllIdle(s.ws) && s.q.main == [] && NoOrphans(s)
    ensures !Covered(s, id) && s.q.processing == []
  {
    forall e ensures InProcessing(s, e) == 0 && Live(s, e) == 0 {
      SumIdle(Open, s.ws, e);
      SumIdle(Committed, s.ws, e);
      SumIdle(Hand, s.ws, e);
      assert Claimed(s, e);
    }
    if s.q.processing != [] { HeadCounts(s); }
  }

  /** A finite queue drains. From any state that a clean run (crashes and recoveries included) leads to,
      once the workers are launched and recovery has emptied processing, every run without further crashes
      and errors takes at most 11 steps for each round that the queued entries have left, and where it can
      go no further both lists are empty and every enqueued job is completed or dead. */
  lemma QueueDrains(pool: nat, projects: map<string, int>, before: seq<Action>, run: seq<Action>, id: string)
    requires CleanRun(Fresh(pool, projects), before)
    requires var s := Exec(Fresh(pool, projects), before);
      s.started && |s.ws| > 0 && AllIdle(s.ws) && s.q.processing == [] && SmoothRun(s, run)
    ensures var s := Exec(Fresh(pool, projects), before);
      |run| <= 11 * Rounds(s, s.q.main)
    ensures var s := Exec(Fresh(pool, projects), before); var s' := Exec(s, run);
      Stuck(s') ==>
        && s'.q.main == [] && s'.q.processing == []
        && (id in s'.rows && WasEnqueued(s', id) ==> Ended(s'.rows[id].status))
  {
    var s := Exec(Fresh(pool, projects), before);
    var s' := Exec(s, run);
    FreshInv(pool, projects);
    ExecKeepsInv(Fresh(pool, projects), before);
    ExecKeepsNotLost(Fresh(pool, projects), before, id);
    forall e ensures Claimed(s, e) {
      SumIdle(Open, s.ws, e);
      SumIdle(Committed, s.ws, e);
    }
    SmoothRunBound(s, run);
    IdleCostsNothing(s, s.ws);
    CostBoundedByRounds(s, s.q.main);
    SmoothRunKeeps(s, run, id);
    if Stuck(s') {
      StuckIsIdle(s');
      NothingLeftNothingCovered(s', id);
    }
  }

  lemma {:induction false} IdleCostsNothing(s: System, ws: seq<Phase>)
    requires AllIdle(ws)
    ensures PoolCost(s, ws) == 0
    decreases |ws|
  {
    if ws != [] { IdleCostsNothing(s, ws[1..]); }
  }

  // ---- A missing wallet ----

  /** The worker is idle and the entry at the tail of main belongs to a job that is not ended. */
  predicate AtTail(s: System, w: nat, e: Entry) {
    && s.started && w < |s.ws| && s.ws[w].Idle?
    && s.q.main != [] && s.q.main[|s.q.main| - 1] == e && e.Canonical?
    && Known(s.rows, e.job) && !Ended(s.rows[e.job.id].status)
  }

  /** handleJobFailure's test, on the attempts in the row. */
  predicate UsedUp(s: System, e: Entry)
    requires e.Canonical? && e.job.id in s.rows
  {
    s.rows[e.job.id].attempts >= Budget(s, e.job, true)
  }

  /** A worker's round on a job whose wallet is not found: it ends in the dead-letter list or back in the queue. */
  function WalletlessRound(w: nat, dies: bool): seq<Action> {
    [Fetch(w, true), Read(w, false), Fail(w, true, true)] + if dies then [Bury(w, true), Ack(w, true)] else [Take(w, true), PutBack(w, true)]
  }

  function RepeatedRound(w: nat, n: nat): seq<Action> {
    if n == 0 then [] else WalletlessRound(w, false) + RepeatedRound(w, n - 1)
  }

  /** The same system with the entry taken off main and the worker in phase p. */
  predicate OffMain(s: System, s': System, w: nat, e: Entry, p: Phase) {
    && s'.started && w < |s'.ws| && s'.ws[w] == p && s'.projects == s.projects
    && s.q.main == s'.q.main + [e]
    && e.Canonical? && Known(s'.rows, e.job) && e.job.id in s.rows
    && s'.rows[e.job.id].attempts == s.rows[e.job.id].attempts
  }

  lemma RoundFetch(s: System, w: nat, e: Entry)
    requires AtTail(s, w, e)
    ensures OffMain(s, Apply(s, Fetch(w, true)), w, e, Fetched(e.job)) && Apply(s, Fetch(w, true)).rows == s.rows
  {
    var n := |s.q.main| - 1;
    assert s.q.main == s.q.main[..n] + [s.q.main[n]];
  }

  lemma RoundRead(s: System, s': System, w: nat, e: Entry)
    requires AtTail(s, w, e) && OffMain(s, s', w, e, Fetched(e.job)) && s'.rows == s.rows
    ensures OffMain(s, Apply(s', Read(w, false)), w, e, Failing(e.job, s.rows[e.job.id].attempts, false))
  {
  }

  lemma RoundFail(s: System, s': System, w: nat, e: Entry)
    requires AtTail(s, w, e) && OffMain(s, s', w, e, Failing(e.job, s.rows[e.job.id].attempts, false))
    ensures var s'' := Apply(s', Fail(w, true, true));
      && OffMain(s, s'', w, e, if UsedUp(s, e) then DeadMarked(e.job) else Requeueing(e.job))
      && s''.rows[e.job.id].status == if UsedUp(s, e) then Dead else Failed
  {
  }

  lemma RoundRequeue(s: System, s': System, w: nat, e: Entry)
    requires AtTail(s, w, e) && OffMain(s, s', w, e, Requeueing(e.job)) && s'.rows[e.job.id].status == Failed
    ensures var s'' := Apply(Apply(s', Take(w, true)), PutBack(w, true));
      AtTail(s'', w, e) && s''.q.main == s.q.main && s''.rows == s'.rows && s''.projects == s.projects
  {
    var s1 := Apply(s', Take(w, true));
    assert OffMain(s, s1, w, e, InHand(e.job)) && s1.rows == s'.rows;
  }

  lemma RoundBury(s: System, s': System, w: nat, e: Entry)
    requires e.Canonical? && OffMain(s, s', w, e, DeadMarked(e.job))
    ensures OffMain(s, Apply(Apply(s', Bury(w, true)), Ack(w, true)), w, e, Idle)
    ensures Apply(Apply(s', Bury(w, true)), Ack(w, true)).rows == s'.rows
  {
    var s1 := Apply(s', Bury(w, true));
    assert OffMain(s, s1, w, e, Acking(e.job)) && s1.rows == s'.rows;
  }

  /** The state a round comes back to: at the tail again, failed, and no attempt used. */
  predicate BackAgain(s: System, s': System, w: nat, e: Entry) {
    && AtTail(s', w, e) && s'.q.main == s.q.main && s'.projects == s.projects
    && e.job.id in s.rows && s'.rows[e.job.id].attempts == s.rows[e.job.id].attempts
  }

  /** The state a last round ends in: off main, dead, no attempt used, the worker idle. */
  predicate DiedUntried(s: System, s': System, w: nat, e: Entry) {
    OffMain(s, s', w, e, Idle) && s'.rows[e.job.id].status == Dead
  }

  lemma OneRound(s: System, w: nat, e: Entry)
    requires AtTail(s, w, e)
    ensures var s' := Exec(s, WalletlessRound(w, UsedUp(s, e)));
      if UsedUp(s, e) then DiedUntried(s, s', w, e) else BackAgain(s, s', w, e) && s'.rows[e.job.id].status == Failed
  {
    RoundFetch(s, w, e);
    var s1 := Apply(s, Fetch(w, true));
    RoundRead(s, s1, w, e);
    var s2 := Apply(s1, Read(w, false));
    RoundFail(s, s2, w, e);
    var s3 := Apply(s2, Fail(w, true, true));
    if UsedUp(s, e) {
      RoundBury(s, s3, w, e);
      FiveSteps(s, Fetch(w, true), Read(w, false), Fail(w, true, true), Bury(w, true), Ack(w, true));
      assert WalletlessRound(w, true) == [Fetch(w, true), Read(w, false), Fail(w, true, true), Bury(w, true), Ack(w, true)];
    } else {
      RoundRequeue(s, s3, w, e);
      FiveSteps(s, Fetch(w, true), Read(w, false), Fail(w, true, true), Take(w, true), PutBack(w, true));
      assert WalletlessRound(w, false) == [Fetch(w, true), Read(w, false), Fail(w, true, true), Take(w, true), PutBack(w, true)];
    }
  }

  lemma FiveSteps(s: System, a: Action, b: Action, c: Action, d: Action, e: Action)
    ensures Exec(s, [a, b, c, d, e]) == Apply(Apply(Apply(Apply(Apply(s, a), b), c), d), e)
  {
    assert [a, b, c, d, e][1..] == [b, c, d, e];
    assert [b, c, d, e][1..] == [c, d, e];
    assert [c, d, e][1..] == [d, e];
    assert [d, e][1..] == [e];
    assert [e][1..] == [];
    var s1 := Apply(s, a);
    var s2 := Apply(s1, b);
    var s3 := Apply(s2, c);
    assert Exec(s3, [d, e]) == Exec(Apply(s3, d), [e]);
    assert Exec(s2, [c, d, e]) == Exec(s3, [d, e]);
    assert Exec(s1, [b, c, d, e]) == Exec(s2, [c, d, e]);
  }

  lemma {:induction false} RoundsComeBack(s: System, w: nat, e: Entry, n: nat)
    requires AtTail(s, w, e) && !UsedUp(s, e)
    ensures BackAgain(s, Exec(s, RepeatedRound(w, n)), w, e)
    decreases n
  {
    if n > 0 {
      var round := WalletlessRound(w, false);
      OneRound(s, w, e);
      var s' := Exec(s, round);
      RoundsComeBack(s', w, e, n - 1);
      ExecAppend(s, round, RepeatedRound(w, n - 1));
    }
  }

  /** A job whose wallet is missing is failed or requeued without using an attempt. It dies if and only if its
      attempts had reached the budget before, and then in its first round; otherwise any number of rounds leaves it at
      the tail of main with the same attempts. The retry budget bounds signing, not rounds. */
  lemma MissingWalletDiesIff(s: System, w: nat, e: Entry, n: nat)
    requires AtTail(s, w, e)
    ensures var s' := Exec(s, WalletlessRound(w, UsedUp(s, e)));
      && e.job.id in s'.rows && s'.rows[e.job.id].attempts == s.rows[e.job.id].attempts
      && (s'.rows[e.job.id].status == Dead <==> UsedUp(s, e))
      && (UsedUp(s, e) ==> DiedUntried(s, s', w, e))
    ensures !UsedUp(s, e) ==> BackAgain(s, Exec(s, RepeatedRound(w, n)), w, e)
  {
    OneRound(s, w, e);
    if !UsedUp(s, e) { RoundsComeBack(s, w, e, n); }
  }
}
