/** Whole rounds of one worker on one job: how many refused attempts kill it, and what a signed one leaves behind
    (internal/worker/worker.go). */
module Rounds {
  import opened Wrappers
  import opened Queue
  import opened Store
  import opened Pipeline
  import opened Worker

  /** One turn of the worker loop on values. */
  function Polled(q: Lists, rows: Table, projects: map<string, int>, wx: Weather): (Lists, Table) {
    var (q', job) := Dequeued(q);
    if job.None? then (q', rows) else Processed(q', rows, projects, job.value, wx)
  }

  function PolledTimes(q: Lists, rows: Table, projects: map<string, int>, wx: Weather, n: nat): (Lists, Table)
    decreases n
  {
    if n == 0 then (q, rows)
    else
      var (q', rows') := PolledTimes(q, rows, projects, wx, n - 1);
      Polled(q', rows', projects, wx)
  }

  /** Everything is read and written, and signing ends as given; the project may be missed by handleJobFailure. */
  predicate Fair(projects: map<string, int>, job: Job, wx: Weather, outcome: Outcome) {
    && wx.readOk && AllFound(projects, job, wx) && wx.marking.Done? && wx.outcome == outcome
    && wx.written && wx.stored && wx.removed && wx.requeue.Moved?
  }

  /** The queue holds one entry, of this job, and nobody works on it. */
  predicate Alone(q: Lists, job: Job) {
    q.main == [Canonical(job)] && q.processing == []
  }

  /** The retries the job is given: its project's, or three when handleJobFailure does not read the project. */
  function Retries(projects: map<string, int>, job: Job, wx: Weather): int
    requires job.projectID in projects
  {
    if wx.projectAgain then projects[job.projectID] else 3
  }

  /** After n refusals: back in the queue while retries are left, and otherwise dead and buried. */
  predicate Refusals(n: nat, projects: map<string, int>, job: Job, wx: Weather, q: Lists, q': Lists, rows': Table)
    requires job.projectID in projects
  {
    && job.id in rows' && rows'[job.id].projectID == job.projectID && rows'[job.id].attempts == n
    && if n <= Retries(projects, job, wx) then
         Alone(q', job) && q'.dlq == q.dlq && rows'[job.id].status == Failed
       else
         q'.main == [] && q'.processing == [] && q'.dlq == [DeadJob(job, REASON)] + q.dlq
         && rows'[job.id].status == Dead && rows'[job.id].error == Some(REASON)
  }

  lemma RefusedRound(q: Lists, rows: Table, projects: map<string, int>, job: Job, wx: Weather)
    requires Alone(q, job) && Fair(projects, job, wx, Refused)
    requires job.id in rows && rows[job.id].projectID == job.projectID && !Ended(rows[job.id].status)
    ensures var (q', rows') := Polled(q, rows, projects, wx);
      Refusals(rows[job.id].attempts + 1, projects, job, wx, q, q', rows')
  {
    assert q.main[..0] == [];
    assert [Canonical(job)][1..] == [] && [] + [Canonical(job)] == [Canonical(job)];
    assert Dequeued(q).0.processing == [Canonical(job)];
  }

  /** How often a job that is refused every time is tried: with R retries it fails R times, coming back to the queue each
      time, and the next refusal kills it: the row is dead after R + 1 attempts, the lists are empty, and the job is the
      newest dead letter. R is three if the project cannot be read again. */
  lemma {:induction false} RefusedJobDies(q: Lists, rows: Table, projects: map<string, int>, job: Job, wx: Weather, n: nat)
    requires Alone(q, job) && Fair(projects, job, wx, Refused)
    requires job.id in rows && rows[job.id].projectID == job.projectID && rows[job.id].status == Pending && rows[job.id].attempts == 0
    requires n > 0 && (n == 1 || n <= Retries(projects, job, wx) + 1)
    ensures var (q', rows') := PolledTimes(q, rows, projects, wx, n);
      Refusals(n, projects, job, wx, q, q', rows')
    decreases n
  {
    if n == 1 {
      assert PolledTimes(q, rows, projects, wx, 0) == (q, rows);
      RefusedRound(q, rows, projects, job, wx);
    } else {
      RefusedJobDies(q, rows, projects, job, wx, n - 1);
      var (q1, rows1) := PolledTimes(q, rows, projects, wx, n - 1);
      RefusedRound(q1, rows1, projects, job, wx);
    }
  }

  /** A job that is signed is completed with the result, counted, and gone from the lists in one round. */
  lemma SignedJobCompletes(q: Lists, rows: Table, projects: map<string, int>, job: Job, wx: Weather, result: string)
    requires Alone(q, job) && Fair(projects, job, wx, Signed(result))
    requires job.id in rows && rows[job.id].projectID == job.projectID && !Ended(rows[job.id].status)
    ensures var (q', rows') := Polled(q, rows, projects, wx);
      && q' == Lists([], [], q.dlq)
      && rows' == rows[job.id := rows[job.id].(status := Completed, attempts := rows[job.id].attempts + 1, result := Some(result))]
  {
    assert q.main[..0] == [];
    assert [Canonical(job)][1..] == [];
    assert Dequeued(q).0.processing == [Canonical(job)];
  }

  /** An envelope whose id belongs to another project, or to no row, or to one that is completed or dead, is acknowledged
      and touches no row; nothing else is dropped like that. */
  lemma DroppedUnreadIff(q: Lists, rows: Table, projects: map<string, int>, job: Job, wx: Weather)
    requires Alone(q, job) && wx.readOk && wx.removed
    requires wx.written && wx.stored && wx.requeue.Moved? && !wx.marking.NotDone?
    ensures var (q', rows') := Polled(q, rows, projects, wx);
      (q' == Lists([], [], q.dlq) && rows' == rows)
        <==> (job.id !in rows || rows[job.id].projectID != job.projectID
              || rows[job.id].status == Completed || rows[job.id].status == Dead)
  {
    assert q.main[..0] == [];
    assert [Canonical(job)][1..] == [] && [] + [Canonical(job)] == [Canonical(job)];
    assert Dequeued(q).0.processing == [Canonical(job)];
    if job.id in rows && rows[job.id].projectID == job.projectID && !Ended(rows[job.id].status) && AllFound(projects, job, wx) {
      assert Polled(q, rows, projects, wx).1[job.id].attempts == rows[job.id].attempts + 1;
    }
  }
}
