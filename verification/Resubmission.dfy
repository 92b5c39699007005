/** What becomes of a job that is submitted more than once: what its row keeps, when an ended row stays ended, and
    when an accepted resubmission can run. */
module Resubmission {
  import opened Wrappers
  import opened Queue
  import opened Store
  import opened Pipeline
  import opened PipelineSafety
  import opened PipelineBudget
  import opened Submission
  import opened Worker

  // ---- The first row stays ----

  /** No run drops a row or changes what it was created with. */
  lemma {:induction false} RowKeepsRequest(s: System, run: seq<Action>, id: string)
    requires id in s.rows
    ensures id in Exec(s, run).rows && SameRequest(s.rows[id], Exec(s, run).rows[id])
    decreases |run|
  {
    if run != [] {
      if Enabled(s, run[0]) { StepGrowsRows(s, run[0]); }
      RowKeepsRequest(Apply(s, run[0]), run[1..], id);
    }
  }

  /** The row of the request and its id, once it was created or found. */
  ghost function RowOf(rows: Table, r: Request, freshID: string): (Table, string) {
    Created(rows, r.projectID, r.walletID, r.operation, r.payload, KeyOf(r.key), freshID)
  }

  ghost predicate KeyIsNew(rows: Table, r: Request) {
    forall id :: id in rows ==> !Conflicts(rows[id], r.projectID, KeyOf(r.key))
  }

  /** After a keyed request, whatever runs, another request of the project with that key finds the same job and adds no
      row, however it differs otherwise; and if the key was new, the row still holds the first request's payload, wallet
      and operation. */
  lemma ResubmissionFindsFirst(s: System, r1: Request, freshID: string, run: seq<Action>, r2: Request, freshID': string)
    requires UniqueKeys(s.rows) && freshID !in s.rows
    requires r1.key != "" && r2.key == r1.key && r2.projectID == r1.projectID
    ensures var id := RowOf(s.rows, r1, freshID).1;
      var create := Create(r1.projectID, r1.walletID, r1.operation, r1.payload, KeyOf(r1.key), freshID);
      var s' := Exec(s, [create] + run);
      && RowOf(s'.rows, r2, freshID') == (s'.rows, id)
      && id in s'.rows
      && (KeyIsNew(s.rows, r1) ==>
            id == freshID && s'.rows[id].payload == r1.payload
            && s'.rows[id].walletID == r1.walletID && s'.rows[id].operation == r1.operation)
  {
    var (rows1, id) := RowOf(s.rows, r1, freshID);
    var create := Create(r1.projectID, r1.walletID, r1.operation, r1.payload, KeyOf(r1.key), freshID);
    var s1 := Apply(s, create);
    OneStep(s, create);
    ExecAppend(s, [create], run);
    RowKeepsRequest(s1, run, id);
    StepKeepsUniqueKeys(s, create);
    KeysStayUnique(s1, run);
    KeyedReturnsFirst(Exec(s1, run).rows, r2, id, freshID');
  }

  // ---- Retrying a job in process ----

  predicate InProcess(status: Status) {
    status == Completed || status == Processing
  }

  /** The key of the request hits this row. */
  predicate Hits(rows: Table, r: Request, id: string) {
    r.payload != "" && r.key != "" && id in rows && Conflicts(rows[id], r.projectID, Some(r.key))
  }

  lemma HistoryOfRetry(s: System, r: Request, id: string, freshID: string)
    requires UniqueKeys(s.rows) && freshID !in s.rows && Hits(s.rows, r, id)
    ensures var s' := Exec(s, SubmitScript(s, r, true, freshID, true, true));
      s'.hist.enqueued == s.hist.enqueued
        + if InProcess(s.rows[id].status) then multiset{} else multiset{Canonical(Job(id, r.projectID, r.walletID, r.operation))}
  {
    var create := Create(r.projectID, r.walletID, r.operation, r.payload, KeyOf(r.key), freshID);
    ReplayIsAnsweredIff(s.q, s.rows, r, id, freshID, true);
    KeyedReturnsFirst(s.rows, r, id, freshID);
    if InProcess(s.rows[id].status) {
      OneStep(s, create);
    } else {
      TwoSteps(s, create, Push(Job(id, r.projectID, r.walletID, r.operation)));
    }
  }

  /** Retrying a keyed request leaves its job enqueued once if and only if the job is completed or being processed. */
  lemma RetryKeepsOnceIff(s: System, r: Request, id: string, freshID: string, e: Entry)
    requires UniqueKeys(s.rows) && freshID !in s.rows && Hits(s.rows, r, id)
    requires EnqueuedOnce(s, e) && e in s.hist.enqueued && e.job.id == id
    ensures EnqueuedOnce(Exec(s, SubmitScript(s, r, true, freshID, true, true)), e) <==> InProcess(s.rows[id].status)
  {
    HistoryOfRetry(s, r, id, freshID);
    var x := Canonical(Job(id, r.projectID, r.walletID, r.operation));
    assert Of(x, id);
  }

  /** The pipeline runs, or a client repeats its request. */
  datatype Turn = Runs(actions: seq<Action>) | Retries(r: Request, freshID: string)

  ghost function ActionsOf(s: System, t: Turn): seq<Action> {
    match t
    case Runs(actions) => actions
    case Retries(r, freshID) => SubmitScript(s, r, true, freshID, true, true)
  }

  ghost function AllActions(s: System, turns: seq<Turn>): seq<Action>
    decreases |turns|
  {
    if turns == [] then [] else
      var actions := ActionsOf(s, turns[0]);
      actions + AllActions(Exec(s, actions), turns[1..])
  }

  predicate InProcessTurn(s: System, t: Turn, id: string) {
    match t
    case Runs(actions) => forall a :: a in actions && a.Push? ==> a.job.id != id
    case Retries(r, freshID) => freshID !in s.rows && Hits(s.rows, r, id) && InProcess(s.rows[id].status)
  }

  /** Each retry finds the job completed or being processed at that moment, and nobody else pushes it. */
  ghost predicate RetriedInProcess(s: System, turns: seq<Turn>, id: string)
    decreases |turns|
  {
    turns != [] ==>
      InProcessTurn(s, turns[0], id) && RetriedInProcess(Exec(s, ActionsOf(s, turns[0])), turns[1..], id)
  }

  lemma {:induction false} WithoutPushOnce(s: System, run: seq<Action>, e: Entry)
    requires EnqueuedOnce(s, e) && forall a :: a in run && a.Push? ==> a.job.id != e.job.id
    ensures EnqueuedOnce(Exec(s, run), e)
    decreases |run|
  {
    if run != [] {
      assert run[0] in run && forall a :: a in run[1..] ==> a in run;
      WithoutPushOnce(Apply(s, run[0]), run[1..], e);
    }
  }

  lemma TurnKeepsOnce(s: System, t: Turn, e: Entry)
    requires UniqueKeys(s.rows) && EnqueuedOnce(s, e) && InProcessTurn(s, t, e.job.id)
    ensures EnqueuedOnce(Exec(s, ActionsOf(s, t)), e)
  {
    match t
    case Runs(actions) => WithoutPushOnce(s, actions, e);
    case Retries(r, freshID) => HistoryOfRetry(s, r, e.job.id, freshID);
  }

  lemma {:induction false} TurnsKeepOnce(s: System, turns: seq<Turn>, e: Entry)
    requires UniqueKeys(s.rows) && EnqueuedOnce(s, e) && RetriedInProcess(s, turns, e.job.id)
    ensures EnqueuedOnce(Exec(s, AllActions(s, turns)), e)
    decreases |turns|
  {
    if turns != [] {
      var actions := ActionsOf(s, turns[0]);
      KeysStayUnique(s, actions);
      ExecAppend(s, actions, AllActions(Exec(s, actions), turns[1..]));
      TurnKeepsOnce(s, turns[0], e);
      TurnsKeepOnce(Exec(s, actions), turns[1..], e);
    }
  }

  predicate Handles(s: System, i: nat, id: string) {
    i < |s.ws| && !s.ws[i].Idle? && s.ws[i].job.id == id
  }

  /** However often a job in process is retried, and whatever the pool does in between, the job has one holder, and a row
      that is ended stays as it is. */
  lemma RetriesInProcessAreHarmless(pool: nat, projects: map<string, int>, before: seq<Action>, turns: seq<Turn>, e: Entry,
                                    i: nat, j: nat)
    requires var s := Exec(Fresh(pool, projects), before);
      EnqueuedOnce(s, e) && RetriedInProcess(s, turns, e.job.id)
    ensures var s := Exec(Fresh(pool, projects), before);
      var s' := Exec(s, AllActions(s, turns));
      && (e.job.id in s.rows && Ended(s.rows[e.job.id].status) ==>
            e.job.id in s'.rows && s'.rows[e.job.id] == s.rows[e.job.id])
      && (Handles(s', i, e.job.id) && Handles(s', j, e.job.id) ==> i == j)
  {
    var s0 := Fresh(pool, projects);
    var s := Exec(s0, before);
    var run := AllActions(s, turns);
    KeysStayUnique(s0, before);
    TurnsKeepOnce(s, turns, e);
    ExecAppend(s0, before, run);
    if e.job.id in s.rows && Ended(s.rows[e.job.id].status) { EndsAreAbsorbing(pool, projects, before, run, e); }
    var s' := Exec(s, run);
    if Handles(s', i, e.job.id) && Handles(s', j, e.job.id) {
      SingleHolder(pool, projects, before + run, e, i, j);
    }
  }

  // ---- When an ended row stays ended ----

  /** The largest budget that handleJobFailure can use for the job: its project's, or the default if the project is
      not read. */
  function LargestBudget(s: System, job: Job): int {
    Max(Budget(s, job, true), Budget(s, job, false))
  }

  /** Workers that can still take the row out of completed or dead: those that have yet to mark it processing, and those
      that may fail with budget left. */
  predicate Reopens(s: System, p: Phase, id: string) {
    && Writing(p) && p.job.id == id
    && (p.Ready? || p.seen < LargestBudget(s, p.job))
  }

  ghost predicate Settled(s: System, id: string) {
    && id in s.rows && Ended(s.rows[id].status)
    && forall i :: 0 <= i < |s.ws| ==> !Reopens(s, s.ws[i], id)
  }

  lemma SettledRow(s: System, a: Action, id: string)
    requires Settled(s, id) && Enabled(s, a)
    ensures id in RowsAfter(s, a) && Ended(RowsAfter(s, a)[id].status)
  {
    StepGrowsRows(s, a);
    if RowsAfter(s, a)[id] != s.rows[id] {
      RowWriter(s, a, id);
      assert !Reopens(s, s.ws[a.w], id);
    }
  }

  lemma SettledPool(s: System, a: Action, id: string, i: nat)
    requires Settled(s, id) && Enabled(s, a) && i < |PoolAfter(s, a)|
    ensures !Reopens(s, PoolAfter(s, a)[i], id)
  {
    if OfWorker(a) && i == a.w {
      assert !Reopens(s, s.ws[i], id);
    }
  }

  lemma SettledStep(s: System, a: Action, id: string)
    requires Settled(s, id)
    ensures Settled(Apply(s, a), id)
  {
    if Enabled(s, a) {
      SettledRow(s, a, id);
      forall i | 0 <= i < |PoolAfter(s, a)| ensures !Reopens(Step(s, a), PoolAfter(s, a)[i], id) {
        SettledPool(s, a, id, i);
      }
    }
  }

  lemma {:induction false} SettledRun(s: System, run: seq<Action>, id: string)
    requires Settled(s, id)
    ensures Settled(Exec(s, run), id)
    decreases |run|
  {
    if run != [] {
      SettledStep(s, run[0], id);
      SettledRun(Apply(s, run[0]), run[1..], id);
    }
  }

  /** From the phase in which the outcome is open to the failure of signing. */
  function ToFailing(w: nat, p: Phase): seq<Action> {
    match p
    case Marked(_, _) => [Sign(w), SignErr(w)]
    case Signing(_, _) => [SignErr(w)]
    case _ => []
  }

  lemma ToFailingRuns(s: System, w: nat)
    requires w < |s.ws| && (s.ws[w].Marked? || s.ws[w].Signing? || s.ws[w].Failing?)
    ensures var s' := Exec(s, ToFailing(w, s.ws[w]));
      && |s'.ws| == |s.ws| && s'.ws[w].Failing? && s'.ws[w].job == s.ws[w].job && s'.ws[w].seen == s.ws[w].seen
      && s'.rows == s.rows && s'.projects == s.projects
  {
    if s.ws[w].Marked? {
      TwoSteps(s, Sign(w), SignErr(w));
      assert Apply(s, Sign(w)).ws == s.ws[w := Signing(s.ws[w].job, s.ws[w].seen)];
    } else if s.ws[w].Signing? {
      OneStep(s, SignErr(w));
    }
  }

  lemma FailReopens(s: System, w: nat)
    requires w < |s.ws| && s.ws[w].Failing? && s.ws[w].seen < LargestBudget(s, s.ws[w].job) && s.ws[w].job.id in s.rows
    ensures var found := s.ws[w].seen < Budget(s, s.ws[w].job, true);
      var rows := Exec(s, [Fail(w, found, true)]).rows;
      s.ws[w].job.id in rows && rows[s.ws[w].job.id].status == Failed
  {
    OneStep(s, Fail(w, s.ws[w].seen < Budget(s, s.ws[w].job, true), true));
  }

  /** A run that reopens the row. */
  lemma ReopeningRun(s: System, w: nat, id: string) returns (run: seq<Action>)
    requires w < |s.ws| && Reopens(s, s.ws[w], id) && id in s.rows
    ensures !EndedAfter(s, run, id)
  {
    if s.ws[w].Ready? {
      run := [Mark(w)];
      OneStep(s, Mark(w));
    } else {
      var s1 := Exec(s, ToFailing(w, s.ws[w]));
      ToFailingRuns(s, w);
      var fail := Fail(w, s.ws[w].seen < Budget(s, s.ws[w].job, true), true);
      FailReopens(s1, w);
      run := ToFailing(w, s.ws[w]) + [fail];
      ExecAppend(s, ToFailing(w, s.ws[w]), [fail]);
    }
  }

  ghost predicate EndedAfter(s: System, run: seq<Action>, id: string) {
    id in Exec(s, run).rows && Ended(Exec(s, run).rows[id].status)
  }

  /** An ended row stays completed or dead in every run if and only if no worker has yet to mark it processing and none
      that may still fail has budget left. */
  lemma EndedStaysEndedIff(s: System, id: string)
    requires id in s.rows && Ended(s.rows[id].status)
    ensures (forall run :: EndedAfter(s, run, id)) <==> (forall i :: 0 <= i < |s.ws| ==> !Reopens(s, s.ws[i], id))
  {
    if Settled(s, id) {
      forall run ensures EndedAfter(s, run, id) { SettledRun(s, run, id); }
    } else {
      var i :| 0 <= i < |s.ws| && Reopens(s, s.ws[i], id);
      var run := ReopeningRun(s, i, id);
    }
  }

  ghost predicate SameRowAfter(s: System, run: seq<Action>, id: string)
    requires id in s.rows
  {
    id in Exec(s, run).rows && Exec(s, run).rows[id] == s.rows[id]
  }

  /** From the phase in which the outcome is open to a successful outcome with this result. */
  function ToSigned(w: nat, p: Phase, result: string): seq<Action> {
    if p.Marked? then [Sign(w), SignOk(w, result, true)] else [SignOk(w, result, true)]
  }

  lemma ToSignedRuns(s: System, w: nat, result: string)
    requires w < |s.ws| && (s.ws[w].Marked? || s.ws[w].Signing?) && s.ws[w].job.id in s.rows
    ensures var rows := Exec(s, ToSigned(w, s.ws[w], result)).rows; var id := s.ws[w].job.id;
      id in rows && rows[id].status == Completed && rows[id].result == Some(result)
  {
    if s.ws[w].Marked? {
      TwoSteps(s, Sign(w), SignOk(w, result, true));
      assert Apply(s, Sign(w)).ws == s.ws[w := Signing(s.ws[w].job, s.ws[w].seen)];
    } else {
      OneStep(s, SignOk(w, result, true));
    }
  }

  function OtherResult(r: JobRow): string {
    if r.result == Some("") then "x" else ""
  }

  lemma FailEndsCompleted(s: System, w: nat)
    requires w < |s.ws| && s.ws[w].Failing? && s.ws[w].job.id in s.rows
    ensures var rows := Exec(s, [Fail(w, true, true)]).rows; var id := s.ws[w].job.id;
      id in rows && !rows[id].status.Completed?
  {
    OneStep(s, Fail(w, true, true));
  }

  lemma OverwritingRun(s: System, w: nat, id: string) returns (run: seq<Action>)
    requires id in s.rows && s.rows[id].status.Completed? && w < |s.ws| && Writing(s.ws[w]) && s.ws[w].job.id == id
    ensures !SameRowAfter(s, run, id)
  {
    if s.ws[w].Ready? {
      run := [Mark(w)];
      OneStep(s, Mark(w));
    } else if s.ws[w].Failing? {
      run := [Fail(w, true, true)];
      FailEndsCompleted(s, w);
    } else {
      run := ToSigned(w, s.ws[w], OtherResult(s.rows[id]));
      ToSignedRuns(s, w, OtherResult(s.rows[id]));
    }
  }

  /** A completed row, its result included, is final if and only if no worker on the job stands between reading the row
      and deciding its outcome: one that signs overwrites the result, one that fails turns completed into failed or
      dead. */
  lemma CompletedIsFinalIff(s: System, id: string)
    requires id in s.rows && s.rows[id].status.Completed?
    ensures (forall run :: SameRowAfter(s, run, id)) <==> Quiet(s, id)
  {
    if Quiet(s, id) {
      forall run ensures SameRowAfter(s, run, id) { EndedStaysEnded(s, run, id); }
    } else {
      var i :| 0 <= i < |s.ws| && Writing(s.ws[i]) && s.ws[i].job.id == id;
      var run := OverwritingRun(s, i, id);
    }
  }

  ghost predicate DeadAfter(s: System, run: seq<Action>, id: string) {
    id in Exec(s, run).rows && Exec(s, run).rows[id].status.Dead?
  }

  /** Workers that can still take the row out of dead: besides those that reopen it, those that may complete it. */
  predicate Revives(s: System, p: Phase, id: string) {
    Writing(p) && p.job.id == id && (!p.Failing? || p.seen < LargestBudget(s, p.job))
  }

  ghost predicate StaysDead(s: System, id: string) {
    && id in s.rows && s.rows[id].status.Dead?
    && forall i :: 0 <= i < |s.ws| ==> !Revives(s, s.ws[i], id)
  }

  lemma DeadStep(s: System, a: Action, id: string)
    requires StaysDead(s, id)
    ensures StaysDead(Apply(s, a), id)
  {
    if Enabled(s, a) {
      StepGrowsRows(s, a);
      if RowsAfter(s, a)[id] != s.rows[id] {
        RowWriter(s, a, id);
        assert !Revives(s, s.ws[a.w], id);
      }
      forall i | 0 <= i < |PoolAfter(s, a)| ensures !Revives(Step(s, a), PoolAfter(s, a)[i], id) {
        DeadPool(s, a, id, i);
      }
    }
  }

  lemma DeadPool(s: System, a: Action, id: string, i: nat)
    requires StaysDead(s, id) && Enabled(s, a) && i < |PoolAfter(s, a)|
    ensures !Revives(s, PoolAfter(s, a)[i], id)
  {
    if OfWorker(a) && i == a.w {
      assert !Revives(s, s.ws[i], id);
    }
  }

  lemma {:induction false} DeadRun(s: System, run: seq<Action>, id: string)
    requires StaysDead(s, id)
    ensures StaysDead(Exec(s, run), id)
    decreases |run|
  {
    if run != [] {
      DeadStep(s, run[0], id);
      DeadRun(Apply(s, run[0]), run[1..], id);
    }
  }

  /** A dead row stays dead in every run if and only if no worker on the job has yet to mark or sign it and none that is
      failing has budget left. */
  lemma DeadStaysDeadIff(s: System, id: string)
    requires id in s.rows && s.rows[id].status.Dead?
    ensures (forall run :: DeadAfter(s, run, id)) <==> (forall i :: 0 <= i < |s.ws| ==> !Revives(s, s.ws[i], id))
  {
    if StaysDead(s, id) {
      forall run ensures DeadAfter(s, run, id) { DeadRun(s, run, id); }
    } else {
      var i :| 0 <= i < |s.ws| && Revives(s, s.ws[i], id);
      if Reopens(s, s.ws[i], id) {
        var run := ReopeningRun(s, i, id);
        assert !DeadAfter(s, run, id);
      } else {
        ToSignedRuns(s, i, "");
        assert !DeadAfter(s, ToSigned(i, s.ws[i], ""), id);
      }
    }
  }

  // ---- A completed row that is reopened ----

  lemma FourSteps(s: System, a: Action, b: Action, c: Action, d: Action)
    ensures Exec(s, [a, b, c, d]) == Apply(Apply(Apply(Apply(s, a), b), c), d)
  {
    assert [a, b, c, d][1..] == [b, c, d];
    ThreeSteps(Apply(s, a), b, c, d);
  }

  /** One row, two entries of it, two workers launched. */
  lemma TwoEntries(projects: map<string, int>, r: Request, id: string)
    ensures var job := Job(id, r.projectID, r.walletID, r.operation);
      var create := Create(r.projectID, r.walletID, r.operation, r.payload, KeyOf(r.key), id);
      var s := Exec(Fresh(2, projects), [create, Push(job), Push(job), Start]);
      && s.q.main == [Canonical(job), Canonical(job)] && s.ws == [Idle, Idle] && s.started
      && s.rows == map[id := NewRow(r.projectID, r.walletID, r.operation, r.payload, KeyOf(r.key))]
  {
    var job := Job(id, r.projectID, r.walletID, r.operation);
    var create := Create(r.projectID, r.walletID, r.operation, r.payload, KeyOf(r.key), id);
    var s0 := Fresh(2, projects);
    assert s0.ws == [Idle, Idle];
    FourSteps(s0, create, Push(job), Push(job), Start);
    var s1 := Apply(s0, create);
    assert s1.rows == map[id := NewRow(r.projectID, r.walletID, r.operation, r.payload, KeyOf(r.key))];
    var s2 := Apply(s1, Push(job));
    assert s2.q.main == [Canonical(job)];
    var s3 := Apply(s2, Push(job));
    assert s3.q.main == [Canonical(job), Canonical(job)];
  }

  lemma FetchStep(s: System, w: nat, job: Job)
    requires s.started && w < |s.ws| && s.ws[w].Idle? && s.q.main != [] && s.q.main[|s.q.main| - 1] == Canonical(job)
    ensures var s' := Apply(s, Fetch(w, true));
      && s'.ws == s.ws[w := Fetched(job)] && s'.rows == s.rows && s'.started && s'.hist.signs == s.hist.signs
      && s'.q.main == s.q.main[..|s.q.main| - 1]
  {
  }

  /** Both workers read the row before either marks it. */
  lemma BothReady(s: System, job: Job)
    requires s.q.main == [Canonical(job), Canonical(job)] && s.ws == [Idle, Idle] && s.started && Unended(s, job)
    ensures var s' := Exec(s, [Fetch(0, true), Fetch(1, true), Read(0, true), Read(1, true)]);
      var ready := Ready(job, s.rows[job.id].attempts);
      s'.ws == [ready, ready] && s'.rows == s.rows
  {
    FourSteps(s, Fetch(0, true), Fetch(1, true), Read(0, true), Read(1, true));
    FetchStep(s, 0, job);
    var s1 := Apply(s, Fetch(0, true));
    assert s1.q.main == [Canonical(job)];
    FetchStep(s1, 1, job);
    var s2 := Apply(s1, Fetch(1, true));
    assert s2.ws == [Fetched(job), Fetched(job)];
    ReadStep(s2, 0, job, true);
    ReadStep(Apply(s2, Read(0, true)), 1, job, true);
  }

  /** The first completes the job while the second waits. */
  lemma FirstCompletes(s: System, job: Job, result: string)
    requires |s.ws| == 2 && s.ws[0].Ready? && s.ws[0].job == job && s.ws[1].Ready? && job.id in s.rows
    ensures var s' := Exec(s, [Mark(0), Sign(0), SignOk(0, result, true)]);
      && s'.ws == [Acking(job), s.ws[1]] && job.id in s'.rows
      && s'.rows[job.id].status == Completed && s'.rows[job.id].result == Some(result)
  {
    ThreeSteps(s, Mark(0), Sign(0), SignOk(0, result, true));
    MarkStep(s, 0, job, s.ws[0].seen);
    var s1 := Apply(s, Mark(0));
    SignStep(s1, 0, job, s.ws[0].seen);
    SignOkStep(Apply(s1, Sign(0)), 0, job, s.ws[0].seen, result, true);
  }

  /** The run from a fresh deployment after which any submission, pushed twice, is completed. */
  function CompletingRun(r: Request, id: string, result: string): seq<Action> {
    var job := Job(id, r.projectID, r.walletID, r.operation);
    var create := Create(r.projectID, r.walletID, r.operation, r.payload, KeyOf(r.key), id);
    [create, Push(job), Push(job), Start]
      + ([Fetch(0, true), Fetch(1, true), Read(0, true), Read(1, true)] + [Mark(0), Sign(0), SignOk(0, result, true)])
  }

  lemma CompletedIsReached(projects: map<string, int>, r: Request, id: string, result: string)
    ensures var s := Exec(Fresh(2, projects), CompletingRun(r, id, result));
      && |s.ws| == 2 && s.ws[1].Ready? && s.ws[1].job.id == id
      && id in s.rows && s.rows[id].status == Completed && s.rows[id].result == Some(result)
  {
    var job := Job(id, r.projectID, r.walletID, r.operation);
    var create := Create(r.projectID, r.walletID, r.operation, r.payload, KeyOf(r.key), id);
    var start := [create, Push(job), Push(job), Start];
    var read := [Fetch(0, true), Fetch(1, true), Read(0, true), Read(1, true)];
    var sign := [Mark(0), Sign(0), SignOk(0, result, true)];
    var s0 := Fresh(2, projects);
    ExecAppend(s0, start, read + sign);
    TwoEntries(projects, r, id);
    var s1 := Exec(s0, start);
    ExecAppend(s1, read, sign);
    BothReady(s1, job);
    FirstCompletes(Exec(s1, read), job, result);
  }

  /** That a job has one entry is needed for its ends to be absorbing: with two, for every request, a reachable completed
      row goes back to processing. */
  lemma CompletedIsReopened(projects: map<string, int>, r: Request, id: string, result: string)
    ensures var s := Exec(Fresh(2, projects), CompletingRun(r, id, result));
      var s' := Exec(s, [Mark(1)]);
      && id in s.rows && s.rows[id].status == Completed && s.rows[id].result == Some(result)
      && id in s'.rows && s'.rows[id].status == Processing
  {
    CompletedIsReached(projects, r, id, result);
    OneStep(Exec(Fresh(2, projects), CompletingRun(r, id, result)), Mark(1));
  }

  // ---- When an accepted resubmission can run ----

  /** The restart of the pool and one worker's steps up to sign. */
  const RESTART: seq<Action> := [Crash(1), Start, Fetch(0, true)]
  const FIRST_SIGN: seq<Action> := [Read(0, true), Mark(0), Sign(0)]

  lemma CrashThenStart(s: System)
    ensures var s' := Apply(Apply(s, Crash(1)), Start);
      s'.ws == [Idle] && s'.started && s'.rows == s.rows && s'.q == s.q && s'.hist.signs == s.hist.signs
  {
    var s1 := Apply(s, Crash(1));
    assert s1.ws == [Idle] && !s1.started && s1.rows == s.rows && s1.q == s.q && s1.hist.signs == s.hist.signs;
  }

  lemma RestartFetches(s: System, job: Job)
    requires s.q.main != [] && s.q.main[|s.q.main| - 1] == Canonical(job)
    ensures var s' := Exec(s, RESTART);
      s'.ws == [Fetched(job)] && s'.rows == s.rows && s'.hist.signs == s.hist.signs
  {
    ThreeSteps(s, Crash(1), Start, Fetch(0, true));
    CrashThenStart(s);
    var s2 := Apply(Apply(s, Crash(1)), Start);
    FetchStep(s2, 0, job);
    assert s2.ws[0 := Fetched(job)] == [Fetched(job)];
  }

  lemma SignsAfter(s: System, a: Action, id: string)
    requires Enabled(s, a)
    ensures Apply(s, a).hist.signs[id] == s.hist.signs[id] + if a.Sign? && s.ws[a.w].job.id == id then 1 else 0
  {
    SignsChange(s, a, id);
  }

  lemma FetchedSigns(s: System, job: Job)
    requires s.ws == [Fetched(job)] && Unended(s, job)
    ensures Exec(s, FIRST_SIGN).hist.signs[job.id] == s.hist.signs[job.id] + 1
  {
    ThreeSteps(s, Read(0, true), Mark(0), Sign(0));
    ReadStep(s, 0, job, true);
    var s1 := Apply(s, Read(0, true));
    MarkStep(s1, 0, job, s.rows[job.id].attempts);
    var s2 := Apply(s1, Mark(0));
    SignsAfter(s, Read(0, true), job.id);
    SignsAfter(s1, Mark(0), job.id);
    SignsAfter(s2, Sign(0), job.id);
  }

  ghost predicate SignedAfter(s: System, run: seq<Action>, id: string) {
    Exec(s, run).hist.signs[id] > s.hist.signs[id]
  }

  lemma TailCanSign(s: System, job: Job)
    requires s.q.main != [] && s.q.main[|s.q.main| - 1] == Canonical(job) && Unended(s, job)
    ensures SignedAfter(s, RESTART + FIRST_SIGN, job.id)
  {
    RestartFetches(s, job);
    FetchedSigns(Exec(s, RESTART), job);
    ExecAppend(s, RESTART, FIRST_SIGN);
  }

  lemma AcceptedEntryIsLast(s: System, r: Request, freshID: string)
    requires freshID !in s.rows && Submitted(s.q, s.rows, r, true, freshID, true, true).2.Accepted?
    ensures var id := Submitted(s.q, s.rows, r, true, freshID, true, true).2.id;
      var s' := Exec(s, SubmitScript(s, r, true, freshID, true, true));
      var job := Job(id, r.projectID, r.walletID, r.operation);
      && s'.q.main != [] && s'.q.main[|s'.q.main| - 1] == Canonical(job)
      && (Unended(s', job) <==> !(id in s.rows && s.rows[id].status.Dead?))
  {
    SubmissionIsARun(s, r, true, freshID, true, true);
    CreatedIsKnown(s.rows, r, freshID);
  }

  /** Workers through which an ended row can still be signed: those that reopen it, and one that has marked it and not
      called sign yet. */
  predicate StillSigns(s: System, p: Phase, id: string) {
    Reopens(s, p, id) || (p.Marked? && p.job.id == id)
  }

  ghost predicate Unsignable(s: System, id: string) {
    && id in s.rows && Ended(s.rows[id].status)
    && forall i :: 0 <= i < |s.ws| ==> !StillSigns(s, s.ws[i], id)
  }

  lemma UnsignablePool(s: System, a: Action, id: string, i: nat)
    requires Unsignable(s, id) && Enabled(s, a) && i < |PoolAfter(s, a)|
    ensures !StillSigns(s, PoolAfter(s, a)[i], id)
  {
    if OfWorker(a) && i == a.w {
      assert !StillSigns(s, s.ws[i], id);
    }
  }

  lemma UnsignableStep(s: System, a: Action, id: string)
    requires Unsignable(s, id)
    ensures Unsignable(Apply(s, a), id) && Apply(s, a).hist.signs[id] == s.hist.signs[id]
  {
    if Enabled(s, a) {
      assert Settled(s, id);
      SettledRow(s, a, id);
      SignsAfter(s, a, id);
      forall i | 0 <= i < |PoolAfter(s, a)| ensures !StillSigns(Step(s, a), PoolAfter(s, a)[i], id) {
        UnsignablePool(s, a, id, i);
      }
      if a.Sign? { assert !StillSigns(s, s.ws[a.w], id); }
    }
  }

  lemma {:induction false} UnsignableRun(s: System, run: seq<Action>, id: string)
    requires Unsignable(s, id)
    ensures Exec(s, run).hist.signs[id] == s.hist.signs[id]
    decreases |run|
  {
    if run != [] {
      UnsignableStep(s, run[0], id);
      UnsignableRun(Apply(s, run[0]), run[1..], id);
    }
  }

  lemma ReadySigns(s: System, w: nat)
    requires w < |s.ws| && (s.ws[w].Ready? || s.ws[w].Marked?)
    ensures SignedAfter(s, if s.ws[w].Ready? then [Mark(w), Sign(w)] else [Sign(w)], s.ws[w].job.id)
  {
    var id := s.ws[w].job.id;
    if s.ws[w].Ready? {
      TwoSteps(s, Mark(w), Sign(w));
      MarkStep(s, w, s.ws[w].job, s.ws[w].seen);
      SignsAfter(s, Mark(w), id);
      SignsAfter(Apply(s, Mark(w)), Sign(w), id);
    } else {
      OneStep(s, Sign(w));
      SignsAfter(s, Sign(w), id);
    }
  }

  /** The failure that reopens a row leaves the entry at the tail where it was. */
  lemma FailingThenTail(s: System, w: nat, job: Job) returns (run: seq<Action>)
    requires w < |s.ws| && (s.ws[w].Signing? || s.ws[w].Failing?) && s.ws[w].job.id == job.id && Known(s.rows, job)
    requires s.ws[w].seen < LargestBudget(s, s.ws[w].job)
    requires s.q.main != [] && s.q.main[|s.q.main| - 1] == Canonical(job)
    ensures SignedAfter(s, run, job.id)
  {
    var p := s.ws[w];
    var fail := Fail(w, p.seen < Budget(s, p.job, true), true);
    var first := ToFailing(w, p) + [fail];
    run := first + (RESTART + FIRST_SIGN);
    FailedInPlace(s, w, job);
    TailCanSign(Exec(s, first), job);
    ExecAppend(s, first, RESTART + FIRST_SIGN);
  }

  lemma FailedInPlace(s: System, w: nat, job: Job)
    requires w < |s.ws| && (s.ws[w].Signing? || s.ws[w].Failing?) && s.ws[w].job.id == job.id && Known(s.rows, job)
    requires s.ws[w].seen < LargestBudget(s, s.ws[w].job)
    ensures var s' := Exec(s, ToFailing(w, s.ws[w]) + [Fail(w, s.ws[w].seen < Budget(s, s.ws[w].job, true), true)]);
      s'.q == s.q && Unended(s', job) && s'.hist.signs == s.hist.signs
  {
    var p := s.ws[w];
    var fail := Fail(w, p.seen < Budget(s, p.job, true), true);
    var s1 := Exec(s, ToFailing(w, p));
    ExecAppend(s, ToFailing(w, p), [fail]);
    ToFailingRuns(s, w);
    OneStep(s, SignErr(w));
    OneStep(s1, fail);
  }

  /** Whatever it finds, the submission pushes an entry and leaves the workers and an existing row alone. */
  lemma AcceptedBesides(s: System, r: Request, freshID: string)
    requires freshID !in s.rows && Submitted(s.q, s.rows, r, true, freshID, true, true).2.Accepted?
    ensures var id := Submitted(s.q, s.rows, r, true, freshID, true, true).2.id;
      var s' := Exec(s, SubmitScript(s, r, true, freshID, true, true));
      && s'.ws == s.ws && s'.projects == s.projects && Known(s'.rows, Job(id, r.projectID, r.walletID, r.operation))
      && (id in s.rows ==> s'.rows[id] == s.rows[id])
  {
    SubmissionIsARun(s, r, true, freshID, true, true);
    CreatedIsKnown(s.rows, r, freshID);
  }

  lemma StillSignsThenSigned(s: System, w: nat, job: Job) returns (run: seq<Action>)
    requires w < |s.ws| && StillSigns(s, s.ws[w], job.id) && Known(s.rows, job)
    requires s.q.main != [] && s.q.main[|s.q.main| - 1] == Canonical(job)
    ensures SignedAfter(s, run, job.id)
  {
    if s.ws[w].Ready? || s.ws[w].Marked? {
      run := if s.ws[w].Ready? then [Mark(w), Sign(w)] else [Sign(w)];
      ReadySigns(s, w);
    } else {
      run := FailingThenTail(s, w, job);
    }
  }

  /** An accepted submission, first or repeated, can be signed in some later run if and only if the row it found is not
      dead, or some worker on the job has yet to mark it processing or to call sign, or may still fail with budget left.
      The handler accepts it all the same and answers "pending". */
  lemma AcceptedCanRunIff(s: System, r: Request, freshID: string)
    requires freshID !in s.rows && Submitted(s.q, s.rows, r, true, freshID, true, true).2.Accepted?
    ensures var id := Submitted(s.q, s.rows, r, true, freshID, true, true).2.id;
      var s' := Exec(s, SubmitScript(s, r, true, freshID, true, true));
      (exists run :: SignedAfter(s', run, id))
        <==> (!(id in s.rows && s.rows[id].status.Dead?) || exists i :: 0 <= i < |s.ws| && StillSigns(s, s.ws[i], id))
  {
    var id := Submitted(s.q, s.rows, r, true, freshID, true, true).2.id;
    var s' := Exec(s, SubmitScript(s, r, true, freshID, true, true));
    var job := Job(id, r.projectID, r.walletID, r.operation);
    AcceptedEntryIsLast(s, r, freshID);
    AcceptedBesides(s, r, freshID);
    if !(id in s.rows && s.rows[id].status.Dead?) {
      TailCanSign(s', job);
    } else if i :| 0 <= i < |s.ws| && StillSigns(s, s.ws[i], id) {
      assert StillSigns(s', s'.ws[i], id);
      var run := StillSignsThenSigned(s', i, job);
    } else {
      assert Unsignable(s', id);
      forall run ensures !SignedAfter(s', run, id) { UnsignableRun(s', run, id); }
    }
  }

  /** Retrying a dead job: the acceptance and its emptiness in one statement. */
  lemma DeadJobIsNeverRetried(s: System, r: Request, id: string, freshID: string, run: seq<Action>)
    requires UniqueKeys(s.rows) && freshID !in s.rows && r.payload != "" && r.key != ""
    requires id in s.rows && Conflicts(s.rows[id], r.projectID, Some(r.key)) && s.rows[id].status.Dead? && Quiet(s, id)
    ensures Submitted(s.q, s.rows, r, true, freshID, true, true).2 == Accepted(id)
    ensures var s' := Exec(s, SubmitScript(s, r, true, freshID, true, true) + run);
      id in s'.rows && s'.rows[id] == s.rows[id] && s'.hist.signs[id] == s.hist.signs[id]
  {
    KeyedReturnsFirst(s.rows, r, id, freshID);
    EndedStaysEnded(s, SubmitScript(s, r, true, freshID, true, true) + run, id);
  }
}
