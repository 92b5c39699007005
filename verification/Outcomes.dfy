/** What a row of signing_jobs says about the attempts on its job, in every run of the pipeline
    (internal/storage/store.go, internal/worker/worker.go). */
module Outcomes {
  import opened Wrappers
  import opened Store
  import opened Pipeline

  /** The run signed the job with this result and wrote it. */
  ghost predicate SignedIn(s: System, run: seq<Action>, id: string, result: string)
    decreases |run|
  {
    run != [] && (Signs(s, run[0], id, result) || SignedIn(Apply(s, run[0]), run[1..], id, result))
  }

  predicate Signs(s: System, a: Action, id: string, result: string) {
    a.SignOk? && a.w < |s.ws| && s.ws[a.w].Signing? && s.ws[a.w].job.id == id && a.written && a.result == result
  }

  /** A pending row is untried; a completed one has a result; a failed or dead one has an error. */
  predicate Telling(r: JobRow) {
    match r.status
    case Pending => r.attempts == 0 && r.result == None && r.error == None
    case Processing => r.attempts > 0
    case Completed => r.result.Some?
    case Failed => r.error == Some(REASON)
    case Dead => r.error == Some(REASON)
  }

  lemma StepKeepsTelling(s: System, a: Action, id: string)
    requires Enabled(s, a) && (id in s.rows ==> Telling(s.rows[id]))
    ensures id in RowsAfter(s, a) ==> Telling(RowsAfter(s, a)[id])
  {
  }

  lemma StepSigns(s: System, a: Action, id: string, result: string)
    requires Enabled(s, a) && id in RowsAfter(s, a) && RowsAfter(s, a)[id].result == Some(result)
    ensures (id in s.rows && s.rows[id].result == Some(result)) || Signs(s, a, id, result)
  {
  }

  lemma {:induction false} ResultsAreSigned(s: System, run: seq<Action>, id: string, result: string)
    requires id in Exec(s, run).rows && Exec(s, run).rows[id].result == Some(result)
    ensures (id in s.rows && s.rows[id].result == Some(result)) || SignedIn(s, run, id, result)
    decreases |run|
  {
    if run != [] {
      ResultsAreSigned(Apply(s, run[0]), run[1..], id, result);
      if Enabled(s, run[0]) && !SignedIn(Apply(s, run[0]), run[1..], id, result) { StepSigns(s, run[0], id, result); }
    }
  }

  lemma {:induction false} RowsKeepTelling(s: System, run: seq<Action>, id: string)
    requires id in s.rows ==> Telling(s.rows[id])
    ensures id in Exec(s, run).rows ==> Telling(Exec(s, run).rows[id])
    decreases |run|
  {
    if run != [] {
      if Enabled(s, run[0]) { StepKeepsTelling(s, run[0], id); }
      RowsKeepTelling(Apply(s, run[0]), run[1..], id);
    }
  }

  /** In every run of every pool: a completed row carries a result that signing gave for this very job in the run; a failed
      or dead row carries an error; a row being processed was tried; and a pending row was not. */
  lemma RowsTellOutcomes(pool: nat, projects: map<string, int>, run: seq<Action>, id: string)
    requires id in Exec(Fresh(pool, projects), run).rows
    ensures var r := Exec(Fresh(pool, projects), run).rows[id];
      Telling(r) && (r.status == Completed ==> SignedIn(Fresh(pool, projects), run, id, r.result.value))
  {
    var s := Fresh(pool, projects);
    RowsKeepTelling(s, run, id);
    var r := Exec(s, run).rows[id];
    if r.status == Completed { ResultsAreSigned(s, run, id, r.result.value); }
  }
}
