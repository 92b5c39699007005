/** The dead-letter list: what any use of the queue puts there, and which dead jobs of the pipeline are found in it
    (internal/queue/queue.go, internal/worker/worker.go). */
module DeadLetters {
  import opened Wrappers
  import opened Queue
  import opened Store
  import opened Pipeline
  import opened PipelineSafety
  import opened Submission
  import Worker

  // ---- The list as a log ----

  /** A call of the queue; the flags and endings are those of JobQueue's methods. */
  datatype Op =
    | EnqueueOp(job: Job)
    | DequeueOp
    | AcknowledgeOp(job: Job, ok: bool)
    | MoveToDLQOp(job: Job, reason: string, ok: bool)
    | RequeueOp(job: Job, ending: Requeuing)
    | RecoverOp(outs: seq<Requeuing>)

  function Performed(l: Lists, op: Op): Lists {
    match op
    case EnqueueOp(job) => Enqueued(l, job)
    case DequeueOp => Dequeued(l).0
    case AcknowledgeOp(job, ok) => if ok then Acknowledged(l, job) else l
    case MoveToDLQOp(job, reason, ok) => if ok then Buried(l, job, reason) else l
    case RequeueOp(job, ending) => RequeuedAs(l, job, ending)
    case RecoverOp(outs) => RequeueEach(l, l.processing, outs)
  }

  function PerformedAll(l: Lists, ops: seq<Op>): Lists
    decreases |ops|
  {
    if ops == [] then l else PerformedAll(Performed(l, ops[0]), ops[1..])
  }

  /** The dead letter of a call: a job that is moved there, or a malformed entry that is popped. */
  function LetterOf(l: Lists, op: Op): seq<DeadLetter> {
    if op.MoveToDLQOp? && op.ok then [DeadJob(op.job, op.reason)]
    else if op.DequeueOp? && l.main != [] && l.main[|l.main| - 1].Malformed? then [DeadRaw(l.main[|l.main| - 1])]
    else []
  }

  /** The letters of a history, the newest first. */
  function LettersOf(l: Lists, ops: seq<Op>): seq<DeadLetter>
    decreases |ops|
  {
    if ops == [] then [] else LettersOf(Performed(l, ops[0]), ops[1..]) + LetterOf(l, ops[0])
  }

  lemma {:induction false} RecoveryWritesNone(l: Lists, items: seq<Entry>, outs: seq<Requeuing>)
    ensures RequeueEach(l, items, outs).dlq == l.dlq
    decreases |items|
  {
    if items != [] {
      RecoveryWritesNone(if Decodable(items[0]) then RequeuedAs(l, items[0].job, First(outs)) else l, items[1..], Rest(outs));
    }
  }

  /** Over every use of the queue the dead-letter list only grows, at its head, by one job for each MoveToDLQ that takes
      effect and one raw entry for each malformed pop, in that order. */
  lemma {:induction false} DeadLetterLog(l: Lists, ops: seq<Op>)
    ensures PerformedAll(l, ops).dlq == LettersOf(l, ops) + l.dlq
    decreases |ops|
  {
    if ops != [] {
      var l' := Performed(l, ops[0]);
      if ops[0].RecoverOp? { RecoveryWritesNone(l, l.processing, ops[0].outs); }
      assert l'.dlq == LetterOf(l, ops[0]) + l.dlq;
      DeadLetterLog(l', ops[1..]);
    }
  }

  // ---- Dead letters of the pipeline ----

  /** The jobs that a run's buries store, the newest first. */
  ghost function Burials(s: System, run: seq<Action>): seq<DeadLetter>
    decreases |run|
  {
    if run == [] then []
    else
      var a := run[0];
      Burials(Apply(s, a), run[1..])
        + if a.Bury? && a.stored && a.w < |s.ws| && s.ws[a.w].DeadMarked? then [DeadJob(s.ws[a.w].job, REASON)] else []
  }

  /** Of all steps of the pool, with crashes and recovery, only those write dead letters. */
  lemma {:induction false} OnlyBuriesWrite(s: System, run: seq<Action>)
    ensures Exec(s, run).q.dlq == Burials(s, run) + s.q.dlq
    decreases |run|
  {
    if run != [] {
      OnlyBuriesWrite(Apply(s, run[0]), run[1..]);
    }
  }

  /** A dead letter of the job, with the reason that its row gives as the error. */
  predicate IsLetter(s: System, d: DeadLetter, id: string) {
    && d.DeadJob? && d.job.id == id && Known(s.rows, d.job)
    && s.rows[id].error == Some(d.reason)
  }

  ghost predicate HasLetter(s: System, id: string) {
    exists d :: d in s.q.dlq && IsLetter(s, d, id)
  }

  predicate Burying(p: Phase, id: string) {
    p.DeadMarked? && p.job.id == id
  }

  predicate ErrorGiven(s: System, id: string) {
    id in s.rows && s.rows[id].status.Dead? ==> s.rows[id].error == Some(REASON)
  }

  /** A dead job has its letter, or a worker is about to write it. */
  ghost predicate Accounted(s: System, id: string) {
    id in s.rows && s.rows[id].status.Dead? ==> HasLetter(s, id) || exists i :: 0 <= i < |s.ws| && Burying(s.ws[i], id)
  }

  /** No MoveToDLQ of the job fails, and no crash falls between its MarkJobDead and its MoveToDLQ. */
  predicate Buries(s: System, a: Action, id: string) {
    && (a.Bury? && a.w < |s.ws| && Burying(s.ws[a.w], id) ==> a.stored)
    && (a.Crash? ==> forall i :: 0 <= i < |s.ws| ==> !Burying(s.ws[i], id))
  }

  ghost predicate BuryingRun(s: System, run: seq<Action>, id: string)
    decreases |run|
  {
    run == [] || ((Enabled(s, run[0]) ==> Buries(s, run[0], id)) && BuryingRun(Apply(s, run[0]), run[1..], id))
  }

  lemma LetterStays(s: System, a: Action, id: string)
    requires Enabled(s, a) && HasLetter(s, id) && RowsAfter(s, a)[id] == s.rows[id]
    ensures HasLetter(Step(s, a), id)
  {
    var d :| d in s.q.dlq && IsLetter(s, d, id);
    StepGrowsRows(s, a);
    OnlyBuriesWrite(s, [a]);
    Worker.OneStep(s, a);
    assert d in Step(s, a).q.dlq && IsLetter(Step(s, a), d, id);
  }

  lemma StoredIsLetter(s: System, a: Action, id: string)
    requires Base(s) && ErrorGiven(s, id) && id in s.rows && s.rows[id].status.Dead?
    requires a.Bury? && a.stored && Enabled(s, a) && s.ws[a.w].job.id == id
    ensures HasLetter(Step(s, a), id)
  {
    var d := DeadJob(s.ws[a.w].job, REASON);
    assert Known(s.rows, s.ws[a.w].job);
    OnlyBuriesWrite(s, [a]);
    Worker.OneStep(s, a);
    assert [a][1..] == [] && Burials(s, [a]) == [d];
    assert d in Step(s, a).q.dlq && IsLetter(Step(s, a), d, id);
  }

  lemma NewlyDead(s: System, a: Action, id: string)
    requires Enabled(s, a) && id in RowsAfter(s, a) && RowsAfter(s, a)[id].status.Dead?
    requires id !in s.rows || RowsAfter(s, a)[id] != s.rows[id]
    ensures a.Fail? && Burying(PhaseAfter(s, a), id) && RowsAfter(s, a)[id].error == Some(REASON)
  {
  }

  lemma StillBurying(s: System, a: Action, id: string, i: nat)
    requires Enabled(s, a) && Buries(s, a, id) && i < |s.ws| && Burying(s.ws[i], id)
    ensures (i < |PoolAfter(s, a)| && Burying(PoolAfter(s, a)[i], id)) || (a.Bury? && a.w == i && a.stored)
  {
  }

  lemma ApplyKeepsAccounted(s: System, a: Action, id: string)
    requires Base(s) && ErrorGiven(s, id) && Accounted(s, id) && (Enabled(s, a) ==> Buries(s, a, id))
    ensures ErrorGiven(Apply(s, a), id) && Accounted(Apply(s, a), id)
  {
    if Enabled(s, a) {
      var s' := Step(s, a);
      if id in s'.rows && s'.rows[id].status.Dead? {
        if id !in s.rows || s'.rows[id] != s.rows[id] {
          NewlyDead(s, a, id);
          assert Burying(s'.ws[a.w], id);
        } else if HasLetter(s, id) {
          LetterStays(s, a, id);
        } else {
          var i :| 0 <= i < |s.ws| && Burying(s.ws[i], id);
          StillBurying(s, a, id, i);
          if a.Bury? && a.w == i && a.stored { StoredIsLetter(s, a, id); }
        }
      }
    }
  }

  lemma {:induction false} ExecKeepsAccounted(s: System, run: seq<Action>, id: string)
    requires Inv(s) && ErrorGiven(s, id) && Accounted(s, id) && BuryingRun(s, run, id)
    ensures Accounted(Exec(s, run), id)
    decreases |run|
  {
    if run != [] {
      ApplyKeepsInv(s, run[0]);
      ApplyKeepsAccounted(s, run[0], id);
      ExecKeepsAccounted(Apply(s, run[0]), run[1..], id);
    }
  }

  /** In every run in which the job's MoveToDLQ calls take effect and no crash falls between its MarkJobDead and its
      MoveToDLQ, a dead job that no worker has yet to bury has a dead letter, and the letter's reason is the error of its
      row. */
  lemma DeadJobsAreBuried(pool: nat, projects: map<string, int>, run: seq<Action>, id: string)
    requires BuryingRun(Fresh(pool, projects), run, id)
    ensures var s := Exec(Fresh(pool, projects), run);
      id in s.rows && s.rows[id].status.Dead? && (forall i :: 0 <= i < |s.ws| ==> !Burying(s.ws[i], id)) ==> HasLetter(s, id)
  {
    FreshInv(pool, projects);
    ExecKeepsAccounted(Fresh(pool, projects), run, id);
  }

  // ---- A letter that is missed is missed for good ----

  /** Dead without a letter, with nobody to write one or to write the row again. */
  ghost predicate Letterless(s: System, id: string) {
    && id in s.rows && s.rows[id].status.Dead? && Quiet(s, id)
    && (forall i :: 0 <= i < |s.ws| ==> !Burying(s.ws[i], id))
    && forall d :: d in s.q.dlq ==> !IsLetter(s, d, id)
  }

  lemma NobodyBuries(s: System, a: Action, id: string, i: nat)
    requires Letterless(s, id) && Enabled(s, a) && i < |PoolAfter(s, a)|
    ensures !Burying(PoolAfter(s, a)[i], id)
  {
    if OfWorker(a) && i == a.w { assert !Burying(s.ws[i], id); }
  }

  lemma ApplyKeepsLetterless(s: System, a: Action, id: string)
    requires Letterless(s, id)
    ensures Letterless(Apply(s, a), id)
  {
    if Enabled(s, a) {
      var s' := Step(s, a);
      EndedStep(s, a, id);
      forall i | 0 <= i < |s'.ws| ensures !Burying(s'.ws[i], id) { NobodyBuries(s, a, id, i); }
      OnlyBuriesWrite(s, [a]);
      Worker.OneStep(s, a);
      forall d | d in s'.q.dlq ensures !IsLetter(s', d, id) {
        if d in s.q.dlq {
          assert !IsLetter(s, d, id);
        } else {
          assert !Burying(s.ws[a.w], id);
        }
      }
    }
  }

  lemma {:induction false} ExecKeepsLetterless(s: System, run: seq<Action>, id: string)
    requires Letterless(s, id)
    ensures Letterless(Exec(s, run), id)
    decreases |run|
  {
    if run != [] {
      ApplyKeepsLetterless(s, run[0], id);
      ExecKeepsLetterless(Apply(s, run[0]), run[1..], id);
    }
  }

  ghost predicate LetterAfter(s: System, run: seq<Action>, id: string) {
    HasLetter(Exec(s, run), id)
  }

  /** A job that was marked dead, with no worker left to write its row, comes to have a dead letter in some run if and
      only if it has one or a worker stands between its MarkJobDead and its MoveToDLQ: recovery brings its entry back, but
      the entry is only acknowledged. */
  lemma LetterIff(pool: nat, projects: map<string, int>, before: seq<Action>, id: string)
    requires var s := Exec(Fresh(pool, projects), before);
      id in s.rows && s.rows[id].status.Dead? && Quiet(s, id)
    ensures var s := Exec(Fresh(pool, projects), before);
      (exists run :: LetterAfter(s, run, id))
        <==> (HasLetter(s, id) || exists i :: 0 <= i < |s.ws| && Burying(s.ws[i], id))
  {
    var s := Exec(Fresh(pool, projects), before);
    FreshInv(pool, projects);
    ExecKeepsInv(Fresh(pool, projects), before);
    ErrorsGiven(Fresh(pool, projects), before, id);
    if HasLetter(s, id) {
      var none: seq<Action> := [];
      assert LetterAfter(s, none, id);
    } else if i :| 0 <= i < |s.ws| && Burying(s.ws[i], id) {
      StoredIsLetter(s, Bury(i, true), id);
      Worker.OneStep(s, Bury(i, true));
      assert LetterAfter(s, [Bury(i, true)], id);
    } else {
      forall run ensures !LetterAfter(s, run, id) { ExecKeepsLetterless(s, run, id); }
    }
  }

  lemma {:induction false} ErrorsGiven(s: System, run: seq<Action>, id: string)
    requires ErrorGiven(s, id)
    ensures ErrorGiven(Exec(s, run), id)
    decreases |run|
  {
    if run != [] {
      var s' := Apply(s, run[0]);
      if Enabled(s, run[0]) && id in s'.rows && s'.rows[id].status.Dead? && (id !in s.rows || s'.rows[id] != s.rows[id]) {
        NewlyDead(s, run[0], id);
      }
      ErrorsGiven(s', run[1..], id);
    }
  }
}
