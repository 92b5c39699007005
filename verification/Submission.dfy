/** How a job enters the pipeline: the row is created or found by its idempotency key, then the envelope is
    pushed (submitJob in internal/api/handlers/handlers.go; Transfer ends in the same way). */
module Submission {
  import opened Wrappers
  import opened Queue
  import opened Store
  import opened Pipeline
  import opened PipelineSafety
  import Worker

  datatype Reply =
    | WalletNotFound
    | PayloadRequired
    | CreateFailed
    | EnqueueFailed
    | Existing(id: string, status: Status)
    | Accepted(id: string)

  datatype Request = Request(projectID: string, walletID: string, operation: string, payload: string, key: string)

  /** An empty idempotency key is stored as NULL. */
  function KeyOf(key: string): Option<string> {
    if key == "" then None else Some(key)
  }

  /** Create the row, answer at once if it was found completed or processing, else push the envelope of
      the request (not of the row that was found). */
  ghost function Entered(q: Lists, rows: Table, projectID: string, walletID: string, operation: string, payload: string,
                         key: Option<string>, freshID: string, createOk: bool, pushOk: bool): (Lists, Table, Reply)
  {
    if !createOk then (q, rows, CreateFailed)
    else
      var (rows', id) := Created(rows, projectID, walletID, operation, payload, key, freshID);
      if rows'[id].status.Completed? || rows'[id].status.Processing? then (q, rows', Existing(id, rows'[id].status))
      else if !pushOk then (q, rows', EnqueueFailed)
      else (Enqueued(q, Job(id, projectID, walletID, operation)), rows', Accepted(id))
  }

  ghost function Submitted(q: Lists, rows: Table, r: Request, walletFound: bool, freshID: string, createOk: bool, pushOk: bool)
    : (Lists, Table, Reply)
  {
    if !walletFound then (q, rows, WalletNotFound)
    else if r.payload == "" then (q, rows, PayloadRequired)
    else Entered(q, rows, r.projectID, r.walletID, r.operation, r.payload, KeyOf(r.key), freshID, createOk, pushOk)
  }

  // ---- A submission is a run of the pipeline ----

  ghost function SubmitScript(s: System, r: Request, walletFound: bool, freshID: string, createOk: bool, pushOk: bool): seq<Action> {
    var create := Create(r.projectID, r.walletID, r.operation, r.payload, KeyOf(r.key), freshID);
    match Submitted(s.q, s.rows, r, walletFound, freshID, createOk, pushOk).2
    case Accepted(id) => [create, Push(Job(id, r.projectID, r.walletID, r.operation))]
    case Existing(_, _) => [create]
    case EnqueueFailed => [create]
    case _ => []
  }

  lemma CreateThenPush(s: System, create: Action, job: Job)
    requires create.Create? && Enabled(s, create)
    requires Known(RowsAfter(s, create), job)
    ensures var s' := Exec(s, [create, Push(job)]);
      && s'.q == Enqueued(s.q, job) && s'.rows == RowsAfter(s, create)
      && s'.ws == s.ws && s'.started == s.started && s'.projects == s.projects
  {
    Worker.TwoSteps(s, create, Push(job));
  }

  lemma CreateAlone(s: System, create: Action)
    requires create.Create? && Enabled(s, create)
    ensures var s' := Exec(s, [create]);
      && s'.q == s.q && s'.rows == RowsAfter(s, create)
      && s'.ws == s.ws && s'.started == s.started && s'.projects == s.projects
  {
    Worker.OneStep(s, create);
  }

  lemma CreatedIsKnown(rows: Table, r: Request, freshID: string)
    ensures var (rows', id) := Created(rows, r.projectID, r.walletID, r.operation, r.payload, KeyOf(r.key), freshID);
      rows'[id].projectID == r.projectID
  {
  }

  /** The system differs from s only in its lists, its table and its history. */
  predicate SameWorkers(s: System, s': System, q: Lists, rows: Table) {
    s'.q == q && s'.rows == rows && s'.ws == s.ws && s'.started == s.started && s'.projects == s.projects
  }

  lemma AcceptanceIsARun(s: System, r: Request, walletFound: bool, freshID: string, createOk: bool, pushOk: bool)
    requires freshID !in s.rows && Submitted(s.q, s.rows, r, walletFound, freshID, createOk, pushOk).2.Accepted?
    ensures var (q, rows, _) := Submitted(s.q, s.rows, r, walletFound, freshID, createOk, pushOk);
      SameWorkers(s, Exec(s, SubmitScript(s, r, walletFound, freshID, createOk, pushOk)), q, rows)
  {
    var create := Create(r.projectID, r.walletID, r.operation, r.payload, KeyOf(r.key), freshID);
    var id := Submitted(s.q, s.rows, r, walletFound, freshID, createOk, pushOk).2.id;
    CreatedIsKnown(s.rows, r, freshID);
    CreateThenPush(s, create, Job(id, r.projectID, r.walletID, r.operation));
  }

  /** submitJob, whatever fails, is a run: nothing when it is refused, a lone Create when it answers with an existing
      job or the push fails, and when it accepts also the Push the protocol allows: the id it pushes names a row of the
      request's project. */
  lemma SubmissionIsARun(s: System, r: Request, walletFound: bool, freshID: string, createOk: bool, pushOk: bool)
    requires freshID !in s.rows
    ensures var (q, rows, _) := Submitted(s.q, s.rows, r, walletFound, freshID, createOk, pushOk);
      SameWorkers(s, Exec(s, SubmitScript(s, r, walletFound, freshID, createOk, pushOk)), q, rows)
  {
    var create := Create(r.projectID, r.walletID, r.operation, r.payload, KeyOf(r.key), freshID);
    var reply := Submitted(s.q, s.rows, r, walletFound, freshID, createOk, pushOk).2;
    if reply.Accepted? {
      AcceptanceIsARun(s, r, walletFound, freshID, createOk, pushOk);
    } else if reply.Existing? || reply.EnqueueFailed? {
      CreateAlone(s, create);
    }
  }

  lemma {:induction false} EnqueuedStays(s: System, run: seq<Action>, e: Entry)
    requires e in s.hist.enqueued
    ensures e in Exec(s, run).hist.enqueued
    decreases |run|
  {
    if run != [] { EnqueuedStays(Apply(s, run[0]), run[1..], e); }
  }

  lemma AcceptedIsEnqueued(s: System, r: Request, freshID: string)
    requires freshID !in s.rows && Submitted(s.q, s.rows, r, true, freshID, true, true).2.Accepted?
    ensures var id := Submitted(s.q, s.rows, r, true, freshID, true, true).2.id;
      var s' := Exec(s, SubmitScript(s, r, true, freshID, true, true));
      id in s'.rows && Canonical(Job(id, r.projectID, r.walletID, r.operation)) in s'.hist.enqueued
  {
    var create := Create(r.projectID, r.walletID, r.operation, r.payload, KeyOf(r.key), freshID);
    var id := Submitted(s.q, s.rows, r, true, freshID, true, true).2.id;
    CreatedIsKnown(s.rows, r, freshID);
    Worker.TwoSteps(s, create, Push(Job(id, r.projectID, r.walletID, r.operation)));
  }

  /** What an accepted submission may rely on: in every clean run around it, crashes and recoveries included, its job
      is completed or dead, or an entry that leads to an attempt is still there. */
  lemma AcceptedIsNeverLost(pool: nat, projects: map<string, int>, before: seq<Action>, r: Request, freshID: string, after: seq<Action>)
    requires var s := Exec(Fresh(pool, projects), before);
      && freshID !in s.rows && Submitted(s.q, s.rows, r, true, freshID, true, true).2.Accepted?
      && CleanRun(Fresh(pool, projects), before + (SubmitScript(s, r, true, freshID, true, true) + after))
    ensures var s := Exec(Fresh(pool, projects), before);
      var id := Submitted(s.q, s.rows, r, true, freshID, true, true).2.id;
      var s' := Exec(Fresh(pool, projects), before + (SubmitScript(s, r, true, freshID, true, true) + after));
      id in s'.rows && (Ended(s'.rows[id].status) || Covered(s', id))
  {
    var s0 := Fresh(pool, projects);
    var s := Exec(s0, before);
    var script := SubmitScript(s, r, true, freshID, true, true);
    var id := Submitted(s.q, s.rows, r, true, freshID, true, true).2.id;
    var e := Canonical(Job(id, r.projectID, r.walletID, r.operation));
    ExecAppend(s0, before, script + after);
    ExecAppend(s, script, after);
    AcceptedIsEnqueued(s, r, freshID);
    var s1 := Exec(s, script);
    AttemptsNeverDecrease(s1, after, id);
    EnqueuedStays(s1, after, e);
    assert Of(e, id);
    NoJobIsLost(pool, projects, before + (script + after), id);
  }

  /** No run of the pipeline ever gives two rows of a project the same idempotency key. */
  lemma {:induction false} KeysStayUnique(s: System, run: seq<Action>)
    requires UniqueKeys(s.rows)
    ensures UniqueKeys(Exec(s, run).rows)
    decreases |run|
  {
    if run != [] {
      if Enabled(s, run[0]) { StepKeepsUniqueKeys(s, run[0]); }
      KeysStayUnique(Apply(s, run[0]), run[1..]);
    }
  }

  lemma StepKeepsUniqueKeys(s: System, a: Action)
    requires Enabled(s, a) && UniqueKeys(s.rows)
    ensures UniqueKeys(RowsAfter(s, a))
  {
    var t' := RowsAfter(s, a);
    if !a.Create? {
      forall x, y | x in t' && y in t' && Conflicts(t'[x], t'[y].projectID, t'[y].key) ensures x == y {
        assert Conflicts(s.rows[x], s.rows[y].projectID, s.rows[y].key);
      }
    }
  }

  // ---- Retrying ----

  /** A keyed request whose row exists already changes nothing and is answered with that row if and only if the row is
      completed or being processed. Otherwise an entry of it is pushed again, and nothing else. */
  lemma ReplayIsAnsweredIff(q: Lists, rows: Table, r: Request, id: string, freshID: string, pushOk: bool)
    requires UniqueKeys(rows) && freshID !in rows && r.payload != "" && r.key != ""
    requires id in rows && Conflicts(rows[id], r.projectID, Some(r.key))
    ensures var (q', rows', reply) := Submitted(q, rows, r, true, freshID, true, pushOk);
      var ended := rows[id].status == Completed || rows[id].status == Processing;
      && rows' == rows
      && (q' == q && reply == Existing(id, rows[id].status) <==> ended)
      && (reply == EnqueueFailed <==> !ended && !pushOk)
      && (reply == Accepted(id) <==> !ended && pushOk)
      && q'.processing == q.processing && q'.dlq == q.dlq
      && q'.main == q.main + if !ended && pushOk then [Canonical(Job(id, r.projectID, r.walletID, r.operation))] else []
  {
    KeyedReturnsFirst(rows, r, id, freshID);
    if pushOk { assert q.main + [] == q.main; }
  }

  /** What a first submission leaves behind: a pending, untried row with the request's columns under the fresh id, and one
      entry of it. */
  lemma FirstSubmission(q: Lists, rows: Table, r: Request, freshID: string)
    requires freshID !in rows && r.payload != "" && forall id :: id in rows ==> !Conflicts(rows[id], r.projectID, KeyOf(r.key))
    ensures var (q', rows', reply) := Submitted(q, rows, r, true, freshID, true, true);
      && reply == Accepted(freshID) && q'.main == q.main + [Canonical(Job(freshID, r.projectID, r.walletID, r.operation))]
      && rows' == rows[freshID := JobRow(r.projectID, r.walletID, r.operation, r.payload,
                                         if r.key == "" then None else Some(r.key), Pending, 0, None, None)]
  {
  }

  /** What is refused at once, and why. */
  lemma RefusedIff(q: Lists, rows: Table, r: Request, walletFound: bool, freshID: string, createOk: bool, pushOk: bool)
    ensures var (q', rows', reply) := Submitted(q, rows, r, walletFound, freshID, createOk, pushOk);
      && (reply == WalletNotFound <==> !walletFound)
      && (reply == PayloadRequired <==> walletFound && r.payload == "")
      && (reply == CreateFailed <==> walletFound && r.payload != "" && !createOk)
      && (!reply.Accepted? ==> q' == q) && (!walletFound || r.payload == "" || !createOk ==> rows' == rows)
  {
  }

  /** n submissions of one request, one after the other, with nobody else acting. */
  ghost function Retried(q: Lists, rows: Table, r: Request, ids: seq<string>): (Lists, Table)
    decreases |ids|
  {
    if ids == [] then (q, rows)
    else
      var (q', rows', _) := Submitted(q, rows, r, true, ids[0], true, true);
      Retried(q', rows', r, ids[1..])
  }

  ghost function Repeated(e: Entry, n: nat): seq<Entry> {
    seq(n, _ => e)
  }

  /** Retrying a keyed request whose job still waits creates no second row but pushes a second entry each
      time: this is how one job comes to have several entries. */
  lemma {:induction false} RetriesPileUp(q: Lists, rows: Table, r: Request, id: string, ids: seq<string>)
    requires r.payload != "" && r.key != "" && UniqueKeys(rows)
    requires id in rows && Conflicts(rows[id], r.projectID, Some(r.key))
    requires !rows[id].status.Completed? && !rows[id].status.Processing?
    ensures var e := Canonical(Job(id, r.projectID, r.walletID, r.operation));
      Retried(q, rows, r, ids) == (q.(main := q.main + Repeated(e, |ids|)), rows)
    decreases |ids|
  {
    var e := Canonical(Job(id, r.projectID, r.walletID, r.operation));
    if ids == [] {
      assert q.main + Repeated(e, 0) == q.main;
    } else {
      KeyedReturnsFirst(rows, r, id, ids[0]);
      var q' := Enqueued(q, e.job);
      RetriesPileUp(q', rows, r, id, ids[1..]);
      assert q'.main + Repeated(e, |ids| - 1) == q.main + Repeated(e, |ids|);
    }
  }

  lemma KeyedReturnsFirst(rows: Table, r: Request, id: string, freshID: string)
    requires r.key != "" && UniqueKeys(rows) && id in rows && Conflicts(rows[id], r.projectID, Some(r.key))
    ensures Created(rows, r.projectID, r.walletID, r.operation, r.payload, KeyOf(r.key), freshID) == (rows, id)
  {
    var id' := Created(rows, r.projectID, r.walletID, r.operation, r.payload, KeyOf(r.key), freshID).1;
    assert Conflicts(rows[id], rows[id'].projectID, rows[id'].key);
  }

  /** When the push fails the client gets an error, but the row stays, pending and without an entry; the same
      keyed request submitted again finds that row and pushes it. */
  lemma RetryHealsFailedPush(q: Lists, rows: Table, r: Request, freshID: string, freshID': string)
    requires UniqueKeys(rows) && freshID !in rows && r.payload != "" && r.key != ""
    requires Submitted(q, rows, r, true, freshID, true, false).2 == EnqueueFailed
    ensures var (q1, rows1, _) := Submitted(q, rows, r, true, freshID, true, false);
      var (q2, rows2, reply) := Submitted(q1, rows1, r, true, freshID', true, true);
      && q1 == q && reply.Accepted? && rows2 == rows1
      && q2 == Enqueued(q, Job(reply.id, r.projectID, r.walletID, r.operation))
  {
    var (rows1, id) := Created(rows, r.projectID, r.walletID, r.operation, r.payload, KeyOf(r.key), freshID);
    KeyedReturnsFirst(rows1, r, id, freshID');
  }

  // ---- Ended rows ----

  /** An ended row that no worker is about to write stays as it is in every run, however many entries the
      job has, and signing never starts for it again. */
  lemma {:induction false} EndedStaysEnded(s: System, run: seq<Action>, id: string)
    requires id in s.rows && Ended(s.rows[id].status) && Quiet(s, id)
    ensures var s' := Exec(s, run);
      id in s'.rows && s'.rows[id] == s.rows[id] && s'.hist.signs[id] == s.hist.signs[id]
    decreases |run|
  {
    if run != [] {
      EndedStep(s, run[0], id);
      EndedStaysEnded(Apply(s, run[0]), run[1..], id);
    }
  }

  lemma EndedStep(s: System, a: Action, id: string)
    requires id in s.rows && Ended(s.rows[id].status) && Quiet(s, id)
    ensures var s' := Apply(s, a);
      id in s'.rows && s'.rows[id] == s.rows[id] && Quiet(s', id) && s'.hist.signs[id] == s.hist.signs[id]
  {
    if Enabled(s, a) {
      StepGrowsRows(s, a);
      if RowsAfter(s, a)[id] != s.rows[id] { RowWriter(s, a, id); }
      EndedWriters(s, a, id);
    }
  }

  lemma EndedWriters(s: System, a: Action, id: string)
    requires Enabled(s, a) && id in s.rows && Ended(s.rows[id].status) && Quiet(s, id)
    ensures forall i :: 0 <= i < |PoolAfter(s, a)| && Writing(PoolAfter(s, a)[i]) ==> PoolAfter(s, a)[i].job.id != id
  {
  }

  // ---- The handler ----

  class Submitter {
    const store: JobStore
    const queue: JobQueue

    constructor (store: JobStore, queue: JobQueue)
      ensures this.store == store && this.queue == queue
    {
      this.store, this.queue := store, queue;
    }

    method CreateAndEnqueue(projectID: string, walletID: string, operation: string, payload: string, key: Option<string>,
                            freshID: string, createOk: bool, pushOk: bool) returns (reply: Reply)
      requires UniqueKeys(store.jobs) && freshID !in store.jobs
      modifies store, queue
      ensures (queue.State(), store.jobs, reply)
           == Entered(old(queue.State()), old(store.jobs), projectID, walletID, operation, payload, key, freshID, createOk, pushOk)
      ensures UniqueKeys(store.jobs)
    {
      if !createOk {
        return CreateFailed;
      }
      var id := store.CreateSigningJob(projectID, walletID, operation, payload, key, freshID);
      var status := store.jobs[id].status;
      if status == Completed || status == Processing {
        return Existing(id, status);
      }
      if !pushOk {
        return EnqueueFailed;
      }
      queue.Enqueue(Job(id, projectID, walletID, operation));
      return Accepted(id);
    }

    method SubmitJob(r: Request, walletFound: bool, freshID: string, createOk: bool, pushOk: bool) returns (reply: Reply)
      requires UniqueKeys(store.jobs) && freshID !in store.jobs
      modifies store, queue
      ensures (queue.State(), store.jobs, reply)
           == Submitted(old(queue.State()), old(store.jobs), r, walletFound, freshID, createOk, pushOk)
      ensures UniqueKeys(store.jobs)
    {
      if !walletFound {
        return WalletNotFound;
      }
      if r.payload == "" {
        return PayloadRequired;
      }
      var key := if r.key != "" then Some(r.key) else None;
      reply := CreateAndEnqueue(r.projectID, r.walletID, r.operation, r.payload, key, freshID, createOk, pushOk);
    }
  }
}
