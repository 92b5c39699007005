/** The signing_jobs table and its status writes (internal/storage/store.go). */
module Store {
  import opened Wrappers

  datatype Status = Pending | Processing | Completed | Failed | Dead

  predicate Ended(s: Status) {
    s.Completed? || s.Dead?
  }

  datatype JobRow = JobRow(
    projectID: string, walletID: string, operation: string, payload: string, key: Option<string>,
    status: Status, attempts: nat, result: Option<string>, error: Option<string>)

  type Table = map<string, JobRow>

  /** The row that a UNIQUE (project_id, idempotency_key) conflict hits; NULL keys never conflict. */
  predicate Conflicts(r: JobRow, projectID: string, key: Option<string>) {
    key.Some? && r.projectID == projectID && r.key == key
  }

  ghost predicate UniqueKeys(t: Table) {
    forall a, b :: a in t && b in t && Conflicts(t[a], t[b].projectID, t[b].key) ==> a == b
  }

  function NewRow(projectID: string, walletID: string, operation: string, payload: string, key: Option<string>): JobRow {
    JobRow(projectID, walletID, operation, payload, key, Pending, 0, None, None)
  }

  /** INSERT ... ON CONFLICT DO UPDATE SET updated_at: the table afterwards and the id returned. */
  ghost function Created(t: Table, projectID: string, walletID: string, operation: string, payload: string,
                         key: Option<string>, freshID: string): (r: (Table, string))
    ensures r.1 in r.0
    ensures freshID !in t && UniqueKeys(t) ==> UniqueKeys(r.0)
  {
    if exists id :: id in t && Conflicts(t[id], projectID, key) then
      var id :| id in t && Conflicts(t[id], projectID, key);
      (t, id)
    else
      (t[freshID := NewRow(projectID, walletID, operation, payload, key)], freshID)
  }

  function MarkedProcessing(t: Table, id: string): Table {
    if id in t then t[id := t[id].(status := Processing, attempts := t[id].attempts + 1)] else t
  }

  function MarkedCompleted(t: Table, id: string, result: string): Table {
    if id in t then t[id := t[id].(status := Completed, result := Some(result))] else t
  }

  function MarkedFailed(t: Table, id: string, error: string): Table {
    if id in t then t[id := t[id].(status := Failed, error := Some(error))] else t
  }

  function MarkedDead(t: Table, id: string, error: string): Table {
    if id in t then t[id := t[id].(status := Dead, error := Some(error))] else t
  }

  /** The row GetSigningJob finds: the id must exist under the given project. */
  function Found(t: Table, id: string, projectID: string): Option<JobRow> {
    if id in t && t[id].projectID == projectID then Some(t[id]) else None
  }

  class JobStore {
    var jobs: Table

    constructor ()
      ensures jobs == map[] && UniqueKeys(jobs)
    {
      jobs := map[];
    }

    method CreateSigningJob(projectID: string, walletID: string, operation: string, payload: string,
                            key: Option<string>, freshID: string) returns (id: string)
      requires UniqueKeys(jobs) && freshID !in jobs
      modifies this
      ensures (jobs, id) == Created(old(jobs), projectID, walletID, operation, payload, key, freshID)
      ensures UniqueKeys(jobs)
    {
      ghost var (t', id') := Created(jobs, projectID, walletID, operation, payload, key, freshID);
      if exists x :: x in jobs && Conflicts(jobs[x], projectID, key) {
        id :| id in jobs && Conflicts(jobs[id], projectID, key);
        assert Conflicts(jobs[id], jobs[id'].projectID, jobs[id'].key);
      } else {
        id := freshID;
        jobs := jobs[freshID := NewRow(projectID, walletID, operation, payload, key)];
      }
    }

    method GetSigningJob(id: string, projectID: string) returns (row: Option<JobRow>)
      ensures row == Found(jobs, id, projectID)
      ensures row.Some? <==> id in jobs && jobs[id].projectID == projectID
      ensures row.Some? ==> row.value == jobs[id]
    {
      row := if id in jobs && jobs[id].projectID == projectID then Some(jobs[id]) else None;
    }

    method MarkJobProcessing(id: string)
      modifies this
      ensures jobs == MarkedProcessing(old(jobs), id)
    {
      if id in jobs {
        jobs := jobs[id := jobs[id].(status := Processing, attempts := jobs[id].attempts + 1)];
      }
    }

    method MarkJobCompleted(id: string, result: string)
      modifies this
      ensures jobs == MarkedCompleted(old(jobs), id, result)
    {
      if id in jobs {
        jobs := jobs[id := jobs[id].(status := Completed, result := Some(result))];
      }
    }

    method MarkJobFailed(id: string, error: string)
      modifies this
      ensures jobs == MarkedFailed(old(jobs), id, error)
    {
      if id in jobs {
        jobs := jobs[id := jobs[id].(status := Failed, error := Some(error))];
      }
    }

    method MarkJobDead(id: string, error: string)
      modifies this
      ensures jobs == MarkedDead(old(jobs), id, error)
    {
      if id in jobs {
        jobs := jobs[id := jobs[id].(status := Dead, error := Some(error))];
      }
    }
  }
}
