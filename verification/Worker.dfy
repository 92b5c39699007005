/** One worker as the code runs it (internal/worker/worker.go), and the proof that each of its runs is a run
    of the pipeline's transition system. */
module Worker {
  import opened Wrappers
  import opened Queue
  import opened Store
  import opened Pipeline
  import opened PipelineSafety

  datatype Outcome = Signed(result: string) | Refused

  /** MarkJobProcessing succeeds, fails, or takes effect while its reply is lost. */
  datatype Marking = Done | NotDone | Unanswered

  /** What the world answers while one job is processed: does GetSigningJob answer; are the wallet and the project
      read; how does MarkJobProcessing end; does signing succeed; is the project read again by handleJobFailure; is
      the status of the outcome written; do the LPUSH of MoveToDLQ and the LREM of Acknowledge take effect; how does
      Requeue end. */
  datatype Weather = Weather(
    readOk: bool, walletFound: bool, projectRead: bool, marking: Marking, outcome: Outcome,
    projectAgain: bool, written: bool, stored: bool, removed: bool, requeue: Requeuing)

  predicate Dies(projects: map<string, int>, job: Job, seen: nat, wx: Weather) {
    seen >= (if wx.projectAgain && job.projectID in projects then projects[job.projectID] else DEFAULT_RETRIES)
  }

  function Acked(q: Lists, job: Job, wx: Weather): Lists {
    if wx.removed then Acknowledged(q, job) else q
  }

  /** The lists and the table after handleJobFailure. */
  function FailureHandled(q: Lists, rows: Table, projects: map<string, int>, job: Job, seen: nat, wx: Weather): (Lists, Table) {
    if Dies(projects, job, seen, wx) then
      (Acked(if wx.stored then Buried(q, job, REASON) else q, job, wx), if wx.written then MarkedDead(rows, job.id, REASON) else rows)
    else
      (RequeuedAs(q, job, wx.requeue), if wx.written then MarkedFailed(rows, job.id, REASON) else rows)
  }

  /** Does the worker get past its look-ups? */
  predicate AllFound(projects: map<string, int>, job: Job, wx: Weather) {
    wx.walletFound && wx.projectRead && job.projectID in projects
  }

  /** The lists and the table after processJob. */
  function Processed(q: Lists, rows: Table, projects: map<string, int>, job: Job, wx: Weather): (Lists, Table) {
    if !wx.readOk then (q, rows)
    else
      var row := Found(rows, job.id, job.projectID);
      if row.None? || Ended(row.value.status) then (Acked(q, job, wx), rows)
      else if !AllFound(projects, job, wx) then FailureHandled(q, rows, projects, job, row.value.attempts, wx)
      else if wx.marking.NotDone? then (q, rows)
      else
        var marked := MarkedProcessing(rows, job.id);
        if wx.marking.Unanswered? then (q, marked)
        else
          match wx.outcome
          case Refused => FailureHandled(q, marked, projects, job, row.value.attempts, wx)
          case Signed(result) =>
            (Acked(q, job, wx), if wx.written then MarkedCompleted(marked, job.id, result) else marked)
  }

  // ---- The same as actions of the protocol ----

  function RequeueScript(w: nat, o: Requeuing): seq<Action> {
    match o
    case Moved => [Take(w, true), PutBack(w, true)]
    case Kept => [Take(w, false)]
    case Dropped => [Take(w, true), PutBack(w, false)]
  }

  function FailScript(w: nat, dies: bool, wx: Weather): seq<Action> {
    [Fail(w, wx.projectAgain, wx.written)]
      + if dies then [Bury(w, wx.stored), Ack(w, wx.removed)] else RequeueScript(w, wx.requeue)
  }

  function Script(w: nat, rows: Table, projects: map<string, int>, job: Job, wx: Weather): seq<Action> {
    if !wx.readOk then [Abandon(w)]
    else
      var row := Found(rows, job.id, job.projectID);
      var found := AllFound(projects, job, wx);
      if row.None? || Ended(row.value.status) then [Read(w, found), Ack(w, wx.removed)]
      else if !found then [Read(w, false)] + FailScript(w, Dies(projects, job, row.value.attempts, wx), wx)
      else if wx.marking.NotDone? then [Read(w, true), Abandon(w)]
      else if wx.marking.Unanswered? then [Read(w, true), Mark(w), Abandon(w)]
      else
        match wx.outcome
        case Refused =>
          [Read(w, true), Mark(w)] + ([Sign(w), SignErr(w)] + FailScript(w, Dies(projects, job, row.value.attempts, wx), wx))
        case Signed(result) =>
          [Read(w, true), Mark(w)] + [Sign(w), SignOk(w, result, wx.written), Ack(w, wx.removed)]
  }

  /** The system differs from s only in the given lists and rows and in worker w's phase. */
  predicate Reaches(s: System, s': System, w: nat, q: Lists, rows: Table, p: Phase) {
    && w < |s.ws| && s'.q == q && s'.rows == rows && s'.ws == s.ws[w := p]
    && s'.started == s.started && s'.projects == s.projects
  }

  lemma ThreeSteps(s: System, a: Action, b: Action, c: Action)
    ensures Exec(s, [a, b, c]) == Apply(Apply(Apply(s, a), b), c)
  {
    assert [a, b, c][1..] == [b, c] && [b, c][1..] == [c] && [c][1..] == [];
    assert Exec(Apply(s, a), [b, c]) == Exec(Apply(Apply(s, a), b), [c]);
  }

  lemma TwoSteps(s: System, a: Action, b: Action)
    ensures Exec(s, [a, b]) == Apply(Apply(s, a), b)
  {
    assert [a, b][1..] == [b] && [b][1..] == [];
    assert Exec(s, [a, b]) == Exec(Apply(s, a), [b]);
  }

  lemma OneStep(s: System, a: Action)
    ensures Exec(s, [a]) == Apply(s, a)
  {
    assert [a][1..] == [];
  }

  // ---- Single steps ----

  lemma FailStep(s: System, w: nat, job: Job, seen: nat, signed: bool, wx: Weather)
    requires w < |s.ws| && s.ws[w] == Failing(job, seen, signed)
    ensures var rows := FailureHandled(s.q, s.rows, s.projects, job, seen, wx).1;
      Reaches(s, Apply(s, Fail(w, wx.projectAgain, wx.written)), w, s.q, rows,
              if Dies(s.projects, job, seen, wx) then DeadMarked(job) else Requeueing(job))
  {
  }

  lemma BuryStep(s: System, w: nat, job: Job, stored: bool)
    requires w < |s.ws| && s.ws[w] == DeadMarked(job)
    ensures Reaches(s, Apply(s, Bury(w, stored)), w, if stored then Buried(s.q, job, REASON) else s.q, s.rows, Acking(job))
  {
  }

  lemma AckStep(s: System, w: nat, job: Job, wx: Weather)
    requires w < |s.ws| && s.ws[w] == Acking(job)
    ensures Reaches(s, Apply(s, Ack(w, wx.removed)), w, Acked(s.q, job, wx), s.rows, Idle)
  {
  }

  lemma TakeStep(s: System, w: nat, job: Job, removed: bool)
    requires w < |s.ws| && s.ws[w] == Requeueing(job)
    ensures Reaches(s, Apply(s, Take(w, removed)), w, if removed then Acknowledged(s.q, job) else s.q, s.rows,
                    if removed then InHand(job) else Idle)
  {
  }

  lemma PutBackStep(s: System, w: nat, job: Job, pushed: bool)
    requires w < |s.ws| && s.ws[w] == InHand(job)
    ensures Reaches(s, Apply(s, PutBack(w, pushed)), w, if pushed then Enqueued(s.q, job) else s.q, s.rows, Idle)
  {
  }

  lemma MarkStep(s: System, w: nat, job: Job, seen: nat)
    requires w < |s.ws| && s.ws[w] == Ready(job, seen)
    ensures Reaches(s, Apply(s, Mark(w)), w, s.q, MarkedProcessing(s.rows, job.id), Marked(job, seen))
  {
  }

  lemma AbandonStep(s: System, w: nat)
    requires w < |s.ws| && (s.ws[w].Fetched? || s.ws[w].Ready? || s.ws[w].Marked?)
    ensures Reaches(s, Apply(s, Abandon(w)), w, s.q, s.rows, Idle)
  {
  }

  lemma SignStep(s: System, w: nat, job: Job, seen: nat)
    requires w < |s.ws| && s.ws[w] == Marked(job, seen)
    ensures Reaches(s, Apply(s, Sign(w)), w, s.q, s.rows, Signing(job, seen))
  {
  }

  lemma SignErrStep(s: System, w: nat, job: Job, seen: nat)
    requires w < |s.ws| && s.ws[w] == Signing(job, seen)
    ensures Reaches(s, Apply(s, SignErr(w)), w, s.q, s.rows, Failing(job, seen, true))
  {
  }

  lemma SignOkStep(s: System, w: nat, job: Job, seen: nat, result: string, written: bool)
    requires w < |s.ws| && s.ws[w] == Signing(job, seen)
    ensures Reaches(s, Apply(s, SignOk(w, result, written)), w, s.q,
                    if written then MarkedCompleted(s.rows, job.id, result) else s.rows, Acking(job))
  {
  }

  lemma ReadStep(s: System, w: nat, job: Job, found: bool)
    requires w < |s.ws| && s.ws[w] == Fetched(job)
    ensures Reaches(s, Apply(s, Read(w, found)), w, s.q, s.rows, PhaseAfterRead(s, job, found))
  {
  }

  // ---- Their composition ----

  lemma DeathRuns(s: System, w: nat, job: Job, wx: Weather)
    requires w < |s.ws| && s.ws[w] == DeadMarked(job)
    ensures Reaches(s, Exec(s, [Bury(w, wx.stored), Ack(w, wx.removed)]), w,
                    Acked(if wx.stored then Buried(s.q, job, REASON) else s.q, job, wx), s.rows, Idle)
  {
    BuryStep(s, w, job, wx.stored);
    AckStep(Apply(s, Bury(w, wx.stored)), w, job, wx);
    TwoSteps(s, Bury(w, wx.stored), Ack(w, wx.removed));
  }

  lemma RequeueRuns(s: System, w: nat, job: Job, o: Requeuing)
    requires w < |s.ws| && s.ws[w] == Requeueing(job)
    ensures Reaches(s, Exec(s, RequeueScript(w, o)), w, RequeuedAs(s.q, job, o), s.rows, Idle)
  {
    TakeStep(s, w, job, !o.Kept?);
    if o.Kept? {
      OneStep(s, Take(w, false));
    } else {
      PutBackStep(Apply(s, Take(w, true)), w, job, o.Moved?);
      TwoSteps(s, Take(w, true), PutBack(w, o.Moved?));
    }
  }

  lemma FailScriptRuns(s: System, w: nat, job: Job, seen: nat, signed: bool, wx: Weather)
    requires w < |s.ws| && s.ws[w] == Failing(job, seen, signed)
    ensures var (q, rows) := FailureHandled(s.q, s.rows, s.projects, job, seen, wx);
      Reaches(s, Exec(s, FailScript(w, Dies(s.projects, job, seen, wx), wx)), w, q, rows, Idle)
  {
    var dies, fail := Dies(s.projects, job, seen, wx), Fail(w, wx.projectAgain, wx.written);
    var tail := if dies then [Bury(w, wx.stored), Ack(w, wx.removed)] else RequeueScript(w, wx.requeue);
    FailStep(s, w, job, seen, signed, wx);
    OneStep(s, fail);
    ExecAppend(s, [fail], tail);
    var s1 := Apply(s, fail);
    if dies { DeathRuns(s1, w, job, wx); } else { RequeueRuns(s1, w, job, wx.requeue); }
  }

  /** Reading the row and counting the attempt. */
  lemma ReadMark(s: System, w: nat, job: Job)
    requires w < |s.ws| && s.ws[w] == Fetched(job) && Unended(s, job)
    ensures var seen := s.rows[job.id].attempts;
      Reaches(s, Exec(s, [Read(w, true), Mark(w)]), w, s.q, MarkedProcessing(s.rows, job.id), Marked(job, seen))
  {
    ReadStep(s, w, job, true);
    MarkStep(Apply(s, Read(w, true)), w, job, s.rows[job.id].attempts);
    TwoSteps(s, Read(w, true), Mark(w));
  }

  lemma SignedTail(s: System, w: nat, job: Job, seen: nat, result: string, wx: Weather)
    requires w < |s.ws| && s.ws[w] == Marked(job, seen)
    ensures Reaches(s, Exec(s, [Sign(w), SignOk(w, result, wx.written), Ack(w, wx.removed)]), w, Acked(s.q, job, wx),
                    if wx.written then MarkedCompleted(s.rows, job.id, result) else s.rows, Idle)
  {
    SignStep(s, w, job, seen);
    var s1 := Apply(s, Sign(w));
    SignOkStep(s1, w, job, seen, result, wx.written);
    AckStep(Apply(s1, SignOk(w, result, wx.written)), w, job, wx);
    ThreeSteps(s, Sign(w), SignOk(w, result, wx.written), Ack(w, wx.removed));
  }

  lemma RefusedTail(s: System, w: nat, job: Job, seen: nat, wx: Weather)
    requires w < |s.ws| && s.ws[w] == Marked(job, seen)
    ensures var (q, rows) := FailureHandled(s.q, s.rows, s.projects, job, seen, wx);
      Reaches(s, Exec(s, [Sign(w), SignErr(w)] + FailScript(w, Dies(s.projects, job, seen, wx), wx)), w, q, rows, Idle)
  {
    SignStep(s, w, job, seen);
    SignErrStep(Apply(s, Sign(w)), w, job, seen);
    TwoSteps(s, Sign(w), SignErr(w));
    FailScriptRuns(Exec(s, [Sign(w), SignErr(w)]), w, job, seen, true, wx);
    ExecAppend(s, [Sign(w), SignErr(w)], FailScript(w, Dies(s.projects, job, seen, wx), wx));
  }

  predicate Unended(s: System, job: Job) {
    var row := Found(s.rows, job.id, job.projectID);
    row.Some? && !Ended(row.value.status)
  }

  lemma SignedScriptRuns(s: System, w: nat, job: Job, wx: Weather)
    requires w < |s.ws| && s.ws[w] == Fetched(job) && Unended(s, job)
    requires wx.readOk && wx.marking.Done? && wx.outcome.Signed? && AllFound(s.projects, job, wx)
    ensures var (q, rows) := Processed(s.q, s.rows, s.projects, job, wx);
      Reaches(s, Exec(s, Script(w, s.rows, s.projects, job, wx)), w, q, rows, Idle)
  {
    var head := [Read(w, true), Mark(w)];
    ReadMark(s, w, job);
    SignedTail(Exec(s, head), w, job, s.rows[job.id].attempts, wx.outcome.result, wx);
    ExecAppend(s, head, [Sign(w), SignOk(w, wx.outcome.result, wx.written), Ack(w, wx.removed)]);
  }

  lemma RefusedScriptRuns(s: System, w: nat, job: Job, wx: Weather)
    requires w < |s.ws| && s.ws[w] == Fetched(job) && Unended(s, job)
    requires wx.readOk && wx.marking.Done? && wx.outcome.Refused? && AllFound(s.projects, job, wx)
    ensures var (q, rows) := Processed(s.q, s.rows, s.projects, job, wx);
      Reaches(s, Exec(s, Script(w, s.rows, s.projects, job, wx)), w, q, rows, Idle)
  {
    var head, seen := [Read(w, true), Mark(w)], s.rows[job.id].attempts;
    ReadMark(s, w, job);
    RefusedTail(Exec(s, head), w, job, seen, wx);
    ExecAppend(s, head, [Sign(w), SignErr(w)] + FailScript(w, Dies(s.projects, job, seen, wx), wx));
  }

  /** The row is not read, is missing, or is ended already. */
  lemma EarlyScriptRuns(s: System, w: nat, job: Job, wx: Weather)
    requires w < |s.ws| && s.ws[w] == Fetched(job)
    requires wx.readOk ==> !Unended(s, job)
    ensures var (q, rows) := Processed(s.q, s.rows, s.projects, job, wx);
      Reaches(s, Exec(s, Script(w, s.rows, s.projects, job, wx)), w, q, rows, Idle)
  {
    if !wx.readOk {
      AbandonStep(s, w);
      OneStep(s, Abandon(w));
    } else {
      var found := AllFound(s.projects, job, wx);
      ReadStep(s, w, job, found);
      AckStep(Apply(s, Read(w, found)), w, job, wx);
      TwoSteps(s, Read(w, found), Ack(w, wx.removed));
    }
  }

  /** The wallet or the project is missing or not read. */
  lemma MissingScriptRuns(s: System, w: nat, job: Job, wx: Weather)
    requires w < |s.ws| && s.ws[w] == Fetched(job) && wx.readOk && Unended(s, job) && !AllFound(s.projects, job, wx)
    ensures var (q, rows) := Processed(s.q, s.rows, s.projects, job, wx);
      Reaches(s, Exec(s, Script(w, s.rows, s.projects, job, wx)), w, q, rows, Idle)
  {
    var seen := s.rows[job.id].attempts;
    ReadStep(s, w, job, false);
    OneStep(s, Read(w, false));
    FailScriptRuns(Apply(s, Read(w, false)), w, job, seen, false, wx);
    ExecAppend(s, [Read(w, false)], FailScript(w, Dies(s.projects, job, seen, wx), wx));
  }

  /** MarkJobProcessing fails, or its reply is lost. */
  lemma UnmarkedScriptRuns(s: System, w: nat, job: Job, wx: Weather)
    requires w < |s.ws| && s.ws[w] == Fetched(job) && wx.readOk && !wx.marking.Done? && Unended(s, job)
    requires AllFound(s.projects, job, wx)
    ensures var (q, rows) := Processed(s.q, s.rows, s.projects, job, wx);
      Reaches(s, Exec(s, Script(w, s.rows, s.projects, job, wx)), w, q, rows, Idle)
  {
    ReadStep(s, w, job, true);
    var s1 := Apply(s, Read(w, true));
    if wx.marking.NotDone? {
      AbandonStep(s1, w);
      TwoSteps(s, Read(w, true), Abandon(w));
    } else {
      MarkStep(s1, w, job, s.rows[job.id].attempts);
      AbandonStep(Apply(s1, Mark(w)), w);
      ThreeSteps(s, Read(w, true), Mark(w), Abandon(w));
    }
  }

  /** processJob run without interference is the protocol run of its script, whatever fails on the way: same lists,
      same table, the worker idle again, nobody else touched. */
  lemma ProcessJobIsARun(s: System, w: nat, job: Job, wx: Weather)
    requires w < |s.ws| && s.ws[w] == Fetched(job)
    ensures var (q, rows) := Processed(s.q, s.rows, s.projects, job, wx);
      Reaches(s, Exec(s, Script(w, s.rows, s.projects, job, wx)), w, q, rows, Idle)
  {
    if !wx.readOk || !Unended(s, job) {
      EarlyScriptRuns(s, w, job, wx);
    } else if !AllFound(s.projects, job, wx) {
      MissingScriptRuns(s, w, job, wx);
    } else if !wx.marking.Done? {
      UnmarkedScriptRuns(s, w, job, wx);
    } else if wx.outcome.Signed? {
      SignedScriptRuns(s, w, job, wx);
    } else {
      RefusedScriptRuns(s, w, job, wx);
    }
  }

  // ---- Recovery at start ----

  /** A Requeue of recovery; one whose LREM fails does nothing. */
  function RecoverOneScript(job: Job, o: Requeuing): seq<Action> {
    if o.Kept? then [] else [RecoverTake(0, job), PutBack(0, o.Moved?)]
  }

  function RecoveryScript(items: seq<Entry>, outs: seq<Requeuing>): seq<Action>
    decreases |items|
  {
    if items == [] then []
    else if Decodable(items[0]) then RecoverOneScript(items[0].job, First(outs)) + RecoveryScript(items[1..], Rest(outs))
    else RecoveryScript(items[1..], Rest(outs))
  }

  /** The system differs from s only in its lists and its history. */
  predicate SameBut(s: System, s': System, q: Lists) {
    s'.q == q && s'.rows == s.rows && s'.ws == s.ws && s'.started == s.started && s'.projects == s.projects
  }

  lemma RecoverOne(s: System, job: Job, o: Requeuing)
    requires !s.started && |s.ws| > 0 && AllIdle(s.ws) && Canonical(job) in s.q.processing
    ensures SameBut(s, Exec(s, RecoverOneScript(job, o)), RequeuedAs(s.q, job, o))
  {
    if !o.Kept? {
      var s1 := Apply(s, RecoverTake(0, job));
      assert s1 == s.(q := Acknowledged(s.q, job), ws := s.ws[0 := InHand(job)]);
      assert s1.ws[0 := Idle] == s.ws;
      TwoSteps(s, RecoverTake(0, job), PutBack(0, o.Moved?));
    }
  }

  lemma {:induction false} RecoveryIsARunFrom(s: System, items: seq<Entry>, outs: seq<Requeuing>)
    requires !s.started && |s.ws| > 0 && AllIdle(s.ws)
    requires forall e :: e in items ==> e.Canonical?
    requires HasAll(s.q.processing, items)
    ensures SameBut(s, Exec(s, RecoveryScript(items, outs)), RequeueEach(s.q, items, outs))
    decreases |items|
  {
    if items != [] {
      var job, o := items[0].job, First(outs);
      RequeueKeepsRest(s.q, items, o);
      RecoverOne(s, job, o);
      RecoveryIsARunFrom(Exec(s, RecoverOneScript(job, o)), items[1..], Rest(outs));
      ExecAppend(s, RecoverOneScript(job, o), RecoveryScript(items[1..], Rest(outs)));
    }
  }

  /** RecoverStalled on a pool that has not been launched is the protocol run of its script, however its Requeue
      calls end; if none fails it empties processing: the state from which QueueDrains starts. */
  lemma RecoveryIsARun(s: System, outs: seq<Requeuing>)
    requires Inv(s) && !s.started && |s.ws| > 0 && AllIdle(s.ws)
    ensures SameBut(s, Exec(s, RecoveryScript(s.q.processing, outs)), RequeueEach(s.q, s.q.processing, outs))
    ensures RequeueEach(s.q, s.q.processing, []) == Recovered(s.q) && Recovered(s.q).processing == []
  {
    RecoveryIsARunFrom(s, s.q.processing, outs);
    RequeueSnapshotRecovers(s.q);
    AllCanonicalRecovered(s.q.processing);
  }

  lemma {:induction false} AllCanonicalRecovered(es: seq<Entry>)
    requires forall e :: e in es ==> e.Canonical?
    ensures Unmatched(es) == []
    decreases |es|
  {
    if es != [] { AllCanonicalRecovered(es[1..]); }
  }

  // ---- The worker object ----

  class JobWorker {
    const store: JobStore
    const queue: JobQueue
    const projects: map<string, int>

    constructor (store: JobStore, queue: JobQueue, projects: map<string, int>)
      ensures this.store == store && this.queue == queue && this.projects == projects
    {
      this.store, this.queue, this.projects := store, queue, projects;
    }

    method HandleJobFailure(qJob: Job, attempts: nat, wx: Weather)
      modifies store, queue
      ensures (queue.State(), store.jobs)
           == FailureHandled(old(queue.State()), old(store.jobs), projects, qJob, attempts, wx)
    {
      var maxRetries := DEFAULT_RETRIES;
      if wx.projectAgain && qJob.projectID in projects {
        maxRetries := projects[qJob.projectID];
      }
      if attempts >= maxRetries {
        if wx.written { store.MarkJobDead(qJob.id, REASON); }
        queue.MoveToDLQ(qJob, REASON, wx.stored);
        queue.Acknowledge(qJob, wx.removed);
      } else {
        if wx.written { store.MarkJobFailed(qJob.id, REASON); }
        var _ := queue.Requeue(qJob, !wx.requeue.Kept?, !wx.requeue.Dropped?);
      }
    }

    method ProcessJob(qJob: Job, wx: Weather)
      modifies store, queue
      ensures (queue.State(), store.jobs) == Processed(old(queue.State()), old(store.jobs), projects, qJob, wx)
    {
      if !wx.readOk {
        return;
      }
      var dbJob := store.GetSigningJob(qJob.id, qJob.projectID);
      if dbJob.None? {
        queue.Acknowledge(qJob, wx.removed);
        return;
      }
      if dbJob.value.status == Completed || dbJob.value.status == Dead {
        queue.Acknowledge(qJob, wx.removed);
        return;
      }
      if !wx.walletFound {
        HandleJobFailure(qJob, dbJob.value.attempts, wx);
        return;
      }
      if !wx.projectRead || qJob.projectID !in projects {
        HandleJobFailure(qJob, dbJob.value.attempts, wx);
        return;
      }
      if wx.marking.NotDone? {
        return;
      }
      store.MarkJobProcessing(qJob.id);
      if wx.marking.Unanswered? {
        return;
      }
      match wx.outcome {
        case Refused =>
          HandleJobFailure(qJob, dbJob.value.attempts, wx);
        case Signed(result) =>
          if wx.written { store.MarkJobCompleted(qJob.id, result); }
          queue.Acknowledge(qJob, wx.removed);
      }
    }

    /** One turn of the worker loop. */
    method Poll(wx: Weather) returns (job: Option<Job>)
      modifies store, queue
      ensures job == Dequeued(old(queue.State())).1
      ensures (queue.State(), store.jobs)
           == var q := Dequeued(old(queue.State())).0;
              if job.None? then (q, old(store.jobs)) else Processed(q, old(store.jobs), projects, job.value, wx)
    {
      job := queue.Dequeue();
      if job.Some? {
        ProcessJob(job.value, wx);
      }
    }
  }
}
