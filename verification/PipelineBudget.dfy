/** How often a job is tried: the retry budget of a job enqueued once, and the draining of a finite queue. */
module PipelineBudget {
  import opened Wrappers
  import opened Queue
  import opened Store
  import opened Pipeline
  import opened PipelineSafety

  function Max(a: int, b: int): int { if a >= b then a else b }

  // ---- Attempts and sign starts ----

  lemma AttemptsChange(s: System, a: Action, id: string)
    requires Enabled(s, a) && id in s.rows
    ensures id in RowsAfter(s, a)
    ensures RowsAfter(s, a)[id].attempts == s.rows[id].attempts + (if a.Mark? && s.ws[a.w].job.id == id then 1 else 0)
  {
  }

  /** The workers that counted an attempt of the job and have not called sign yet. */
  function AboutToSign(ws: seq<Phase>, id: string): nat {
    if ws == [] then 0 else (if ws[0].Marked? && ws[0].job.id == id then 1 else 0) + AboutToSign(ws[1..], id)
  }

  lemma {:induction false} AboutToSignUpdate(ws: seq<Phase>, i: nat, p: Phase, id: string)
    requires i < |ws|
    ensures AboutToSign(ws[i := p], id) == AboutToSign(ws, id)
      - (if ws[i].Marked? && ws[i].job.id == id then 1 else 0) + (if p.Marked? && p.job.id == id then 1 else 0)
    decreases |ws|
  {
    if i == 0 {
      assert ws[0 := p][1..] == ws[1..];
    } else {
      AboutToSignUpdate(ws[1..], i - 1, p, id);
      assert ws[i := p][1..] == ws[1..][i - 1 := p];
    }
  }

  lemma {:induction false} IdleNotAboutToSign(ws: seq<Phase>, id: string)
    requires AllIdle(ws)
    ensures AboutToSign(ws, id) == 0
    decreases |ws|
  {
    if ws != [] { IdleNotAboutToSign(ws[1..], id); }
  }

  /** Every sign start was counted before, and so were the attempts about to start. */
  predicate SignsCounted(s: System, id: string) {
    s.hist.signs[id] + AboutToSign(s.ws, id) <= if id in s.rows then s.rows[id].attempts else 0
  }

  lemma SignsChange(s: System, a: Action, id: string)
    requires Enabled(s, a)
    ensures HistoryAfter(s, a).signs[id] == s.hist.signs[id] + (if a.Sign? && s.ws[a.w].job.id == id then 1 else 0)
    ensures AboutToSign(PoolAfter(s, a), id) <= AboutToSign(s.ws, id)
      + (if a.Mark? && s.ws[a.w].job.id == id then 1 else 0) - (if a.Sign? && s.ws[a.w].job.id == id then 1 else 0)
  {
    if a.Crash? {
      IdleNotAboutToSign(PoolAfter(s, a), id);
    } else if OfWorker(a) {
      AboutToSignUpdate(s.ws, a.w, PhaseAfter(s, a), id);
    }
  }

  lemma NewRowIsUntried(s: System, a: Action, id: string)
    requires Enabled(s, a) && id !in s.rows
    ensures id in RowsAfter(s, a) ==> a.Create? && RowsAfter(s, a)[id].attempts == 0
  {
  }

  lemma ApplyKeepsSignsCounted(s: System, a: Action, id: string)
    requires Base(s) && SignsCounted(s, id)
    ensures SignsCounted(Apply(s, a), id)
  {
    if Enabled(s, a) {
      SignsChange(s, a, id);
      if id in s.rows {
        AttemptsChange(s, a, id);
      } else {
        NewRowIsUntried(s, a, id);
        if a.Mark? { assert Known(s.rows, s.ws[a.w].job); }
      }
    }
  }

  /** The attempts column, which is written before sign is called, bounds the sign starts in every run; the
      difference is the workers between the two and the attempts cut short there. */
  lemma {:induction false} SignStartsAreAttempts(s: System, run: seq<Action>, id: string)
    requires Inv(s) && SignsCounted(s, id)
    ensures SignsCounted(Exec(s, run), id)
    decreases |run|
  {
    if run != [] {
      ApplyKeepsInv(s, run[0]);
      ApplyKeepsSignsCounted(s, run[0], id);
      SignStartsAreAttempts(Apply(s, run[0]), run[1..], id);
    }
  }

  // ---- The retry budget ----

  /** What a worker remembers of the attempts column, compared with the column now. */
  predicate SeenExactly(p: Phase, attempts: nat) {
    && (p.Ready? ==> p.seen == attempts)
    && (p.Failing? && !p.signed ==> p.seen == attempts)
    && (Plays(Midway, p) ==> p.seen + 1 == attempts)
  }

  function MaxRetries(s: System, e: Entry): int
    requires e.Canonical?
  {
    Max(0, Budget(s, e.job, true))
  }

  predicate Over(s: System, e: Entry)
    requires e.Canonical? && e.job.id in s.rows
  {
    Ended(s.rows[e.job.id].status) || Sum(Midway, s.ws, e) > 0
  }

  predicate SeenBy(s: System, e: Entry)
    requires e.Canonical?
  {
    e.job.id in s.rows ==>
      forall i :: 0 <= i < |s.ws| && !s.ws[i].Idle? && s.ws[i].job.id == e.job.id ==> SeenExactly(s.ws[i], s.rows[e.job.id].attempts)
  }

  predicate WithinBudget(s: System, e: Entry)
    requires e.Canonical?
  {
    e.job.id in s.rows ==>
      s.rows[e.job.id].attempts <= MaxRetries(s, e) + s.hist.cut[e] + (if Over(s, e) then 1 else 0)
  }

  /** Outcomes are written, and handleJobFailure finds the project. Crashes and failing queue commands are free. */
  predicate Orderly(s: System, a: Action) {
    OutcomeWritten(s, a) && (a.Fail? ==> a.found)
  }

  lemma {:induction false} SumPositive(k: Role, ws: seq<Phase>, e: Entry) returns (i: nat)
    requires Sum(k, ws, e) > 0
    ensures i < |ws| && Plays(k, ws[i]) && Holds(ws[i], e)
    decreases |ws|
  {
    if Weight(k, ws[0], e) > 0 { i := 0; } else {
      i := SumPositive(k, ws[1..], e);
      i := i + 1;
    }
  }

  lemma SeenAfterOwnStep(s: System, a: Action, e: Entry)
    requires e.Canonical? && Inv(s) && Enabled(s, a) && OfWorker(a) && SeenBy(s, e)
    requires !PhaseAfter(s, a).Idle? && PhaseAfter(s, a).job.id == e.job.id && e.job.id in s.rows
    ensures SeenExactly(PhaseAfter(s, a), RowsAfter(s, a)[e.job.id].attempts)
  {
    PoolStaysKnown(s, a);
    assert Known(s.rows, PoolAfter(s, a)[a.w].job);
  }

  lemma ApplyKeepsSeen(s: System, a: Action, e: Entry)
    requires e.Canonical? && Inv(s) && Enabled(s, a) && EnqueuedOnce(Step(s, a), e) && SeenBy(s, e)
    ensures SeenBy(Step(s, a), e)
  {
    var s', id := Step(s, a), e.job.id;
    ApplyKeepsInv(s, a);
    if id in s'.rows {
      forall i | 0 <= i < |s'.ws| && !s'.ws[i].Idle? && s'.ws[i].job.id == id
        ensures SeenExactly(s'.ws[i], s'.rows[id].attempts)
      {
        PoolStaysKnown(s, a);
        assert Known(s.rows, s'.ws[i].job);
        if OfWorker(a) && i == a.w {
          SeenAfterOwnStep(s, a, e);
        } else if s'.rows[id].attempts != s.rows[id].attempts {
          AttemptsChange(s, a, id);
          PushesGrow(s, [a], e);
          OnlyHolder(s, e, i, a.w);
        }
      }
    }
  }

  /** The midway count of the entry after the step, and the cuts charged to it. */
  lemma MidwayChange(s: System, a: Action, e: Entry)
    requires Enabled(s, a)
    ensures a.Crash? ==> Sum(Midway, PoolAfter(s, a), e) == 0
    ensures a.Crash? ==> HistoryAfter(s, a).cut[e] == s.hist.cut[e] + Sum(Midway, s.ws, e)
    ensures !a.Crash? && !a.Abandon? ==> HistoryAfter(s, a).cut == s.hist.cut
    ensures a.Abandon? ==> HistoryAfter(s, a).cut[e] == s.hist.cut[e] + Weight(Midway, s.ws[a.w], e)
    ensures OfWorker(a) ==> Weight(Midway, s.ws[a.w], e) <= Sum(Midway, s.ws, e)
    ensures OfWorker(a) ==>
      Sum(Midway, PoolAfter(s, a), e) == Sum(Midway, s.ws, e) - Weight(Midway, s.ws[a.w], e) + Weight(Midway, PhaseAfter(s, a), e)
    ensures !a.Crash? && !OfWorker(a) ==> PoolAfter(s, a) == s.ws
  {
    if a.Crash? {
      SumIdle(Midway, PoolAfter(s, a), e);
      EntriesCount(Midway, s.ws, e);
    } else if OfWorker(a) {
      SumUpdate(Midway, s.ws, a.w, PhaseAfter(s, a), e);
    }
  }

  /** Counting an attempt: nobody else was midway and the row was not ended. */
  lemma MarkWithinBudget(s: System, a: Action, e: Entry)
    requires e.Canonical? && Inv(s) && a.Mark? && Enabled(s, a) && EnqueuedOnce(Step(s, a), e)
    requires Quiet(s, e.job.id) && WithinBudget(s, e) && s.ws[a.w].job.id == e.job.id
    ensures WithinBudget(Step(s, a), e)
  {
    PushesGrow(s, [a], e);
    OnlyHolder(s, e, a.w, a.w);
    assert Known(s.rows, s.ws[a.w].job);
    AttemptsChange(s, a, e.job.id);
    MidwayChange(s, a, e);
    if Sum(Midway, s.ws, e) > 0 {
      var i := SumPositive(Midway, s.ws, e);
      OnlyHolder(s, e, i, a.w);
    }
  }

  /** Deciding after a failed attempt: dead ends the row, and a requeue means the budget was not used up. */
  lemma FailWithinBudget(s: System, a: Action, e: Entry)
    requires e.Canonical? && Inv(s) && a.Fail? && Enabled(s, a) && Orderly(s, a) && EnqueuedOnce(Step(s, a), e)
    requires SeenBy(s, e) && WithinBudget(s, e) && s.ws[a.w].job.id == e.job.id
    ensures WithinBudget(Step(s, a), e)
  {
    PushesGrow(s, [a], e);
    OnlyHolder(s, e, a.w, a.w);
    assert Known(s.rows, s.ws[a.w].job);
    assert SeenExactly(s.ws[a.w], s.rows[e.job.id].attempts);
    AttemptsChange(s, a, e.job.id);
    MidwayChange(s, a, e);
  }

  /** A signed job is ended. */
  lemma SignWithinBudget(s: System, a: Action, e: Entry)
    requires e.Canonical? && Inv(s) && a.SignOk? && Enabled(s, a) && a.written && WithinBudget(s, e)
    requires s.ws[a.w].job.id == e.job.id
    ensures WithinBudget(Step(s, a), e)
  {
    assert Known(s.rows, s.ws[a.w].job);
    AttemptsChange(s, a, e.job.id);
    MidwayChange(s, a, e);
  }

  /** Every other step leaves the row of the job alone and ends a midway attempt only by cutting it short. */
  lemma OtherWithinBudget(s: System, a: Action, e: Entry)
    requires e.Canonical? && Inv(s) && Enabled(s, a) && WithinBudget(s, e)
    requires !((a.Mark? || a.Fail? || a.SignOk?) && s.ws[a.w].job.id == e.job.id)
    ensures WithinBudget(Step(s, a), e)
  {
    if e.job.id in s.rows {
      OtherKeepsRow(s, a, e.job.id);
      OtherMidway(s, a, e);
    } else {
      NewRowIsUntried(s, a, e.job.id);
    }
  }

  lemma OtherKeepsRow(s: System, a: Action, id: string)
    requires Enabled(s, a) && id in s.rows && !((a.Mark? || a.Fail? || a.SignOk?) && s.ws[a.w].job.id == id)
    ensures id in RowsAfter(s, a) && RowsAfter(s, a)[id] == s.rows[id]
  {
    StepGrowsRows(s, a);
    if RowsAfter(s, a)[id] != s.rows[id] { RowWriter(s, a, id); }
  }

  /** Such a step ends a midway attempt only by cutting it short, which is charged. */
  lemma OtherMidway(s: System, a: Action, e: Entry)
    requires e.Canonical? && Enabled(s, a) && !((a.Mark? || a.Fail? || a.SignOk?) && s.ws[a.w].job.id == e.job.id)
    ensures Sum(Midway, s.ws, e) + s.hist.cut[e] <= Sum(Midway, PoolAfter(s, a), e) + HistoryAfter(s, a).cut[e]
    ensures s.hist.cut[e] <= HistoryAfter(s, a).cut[e]
  {
    MidwayChange(s, a, e);
  }

  lemma ApplyKeepsBudget(s: System, a: Action, e: Entry)
    requires e.Canonical? && Inv(s) && EnqueuedOnce(Apply(s, a), e)
    requires Enabled(s, a) ==> Orderly(s, a)
    requires Quiet(s, e.job.id) && SeenBy(s, e) && WithinBudget(s, e)
    ensures Quiet(Apply(s, a), e.job.id) && SeenBy(Apply(s, a), e) && WithinBudget(Apply(s, a), e)
  {
    ApplyKeepsFinal(s, a, e);
    if Enabled(s, a) {
      ApplyKeepsSeen(s, a, e);
      if a.Mark? && s.ws[a.w].job.id == e.job.id { MarkWithinBudget(s, a, e); }
      else if a.Fail? && s.ws[a.w].job.id == e.job.id { FailWithinBudget(s, a, e); }
      else if a.SignOk? && s.ws[a.w].job.id == e.job.id { SignWithinBudget(s, a, e); }
      else { OtherWithinBudget(s, a, e); }
    }
  }

  ghost predicate OrderlyRun(s: System, run: seq<Action>)
    decreases |run|
  {
    run == [] || ((Enabled(s, run[0]) ==> Orderly(s, run[0])) && OrderlyRun(Apply(s, run[0]), run[1..]))
  }

  lemma {:induction false} ExecKeepsBudget(s: System, run: seq<Action>, e: Entry)
    requires e.Canonical? && Inv(s) && OrderlyRun(s, run) && EnqueuedOnce(Exec(s, run), e)
    requires Quiet(s, e.job.id) && SeenBy(s, e) && WithinBudget(s, e)
    ensures WithinBudget(Exec(s, run), e) && Exec(s, run).projects == s.projects
    decreases |run|
  {
    if run != [] {
      var s' := Apply(s, run[0]);
      PushesGrow(s', run[1..], e);
      ApplyKeepsInv(s, run[0]);
      ApplyKeepsBudget(s, run[0], e);
      ExecKeepsBudget(s', run[1..], e);
    }
  }

  /** The retry budget: a job enqueued once starts signing at most MaxRetries + 1 times, plus once for
      every attempt that a crash or the lost reply to MarkJobProcessing cut short. */
  lemma RetryBudget(pool: nat, projects: map<string, int>, run: seq<Action>, e: Entry)
    requires OrderlyRun(Fresh(pool, projects), run) && EnqueuedOnce(Exec(Fresh(pool, projects), run), e)
    requires e.job.projectID in projects
    ensures var s := Exec(Fresh(pool, projects), run);
      s.hist.signs[e.job.id] <= Max(0, projects[e.job.projectID]) + 1 + s.hist.cut[e]
  {
    var s0 := Fresh(pool, projects);
    FreshInv(pool, projects);
    ExecKeepsBudget(s0, run, e);
    IdleNotAboutToSign(s0.ws, e.job.id);
    SignStartsAreAttempts(s0, run, e.job.id);
  }
}
