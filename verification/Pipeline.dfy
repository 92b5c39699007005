/** The job pipeline as a transition system: the queue lists, the job table, and a pool of workers whose
    Redis commands and SQL statements interleave (internal/worker/worker.go over queue.go and store.go).

    One action is one command or statement. An action that is not enabled changes nothing, so a run is any
    sequence of actions. */
module Pipeline {
  import opened Wrappers
  import opened Queue
  import opened Store

  /** Where a worker stands between two of its commands. `seen` is the attempts column as read with the
      row, before the attempt was counted. */
  datatype Phase =
    | Idle
    | Fetched(job: Job)                              // moved to processing, row not read yet
    | Ready(job: Job, seen: nat)                     // row read and not ended, wallet and project found
    | Marked(job: Job, seen: nat)                    // MarkJobProcessing written
    | Signing(job: Job, seen: nat)                   // sign called
    | Failing(job: Job, seen: nat, signed: bool)     // handleJobFailure entered
    | DeadMarked(job: Job)                           // dead written (or its write lost), MoveToDLQ next
    | Acking(job: Job)                               // Acknowledge next
    | Requeueing(job: Job)                           // failed written, Requeue's LREM next
    | InHand(job: Job)                               // LREM done, RPUSH next

  /** What happened so far: entries pushed by Enqueue, removed by Acknowledge, and dropped between LREM and
      RPUSH by a crash or a failing RPUSH; sign starts per job; attempts that were counted and then cut
      short before their outcome, by a crash or by the lost reply to MarkJobProcessing. */
  datatype History = History(
    enqueued: multiset<Entry>, acked: multiset<Entry>, lost: multiset<Entry>,
    signs: multiset<string>, cut: multiset<Entry>)

  /** `projects` maps each project to its max_retries. */
  datatype System = System(
    q: Lists, rows: Table, ws: seq<Phase>, started: bool, projects: map<string, int>, hist: History)

  datatype Action =
    | Create(projectID: string, walletID: string, operation: string, payload: string, key: Option<string>, freshID: string)
    | Push(job: Job)                       // submitJob's Enqueue
    | Crash(pool: nat)                     // the process dies; the next one will run `pool` workers
    | RecoverTake(w: nat, job: Job)        // RecoverStalled's Requeue: LREM
    | Start                                // the workers are launched
    | Fetch(w: nat, delivered: bool)       // BRPOPLPUSH; the reply may be lost
    | Read(w: nat, found: bool)            // GetSigningJob, then wallet and project lookups
    | Abandon(w: nat)                      // a read or MarkJobProcessing failed, or its reply was lost
    | Mark(w: nat)                         // MarkJobProcessing
    | Sign(w: nat)                         // sign starts
    | SignOk(w: nat, result: string, written: bool)   // sign succeeded, MarkJobCompleted written or not
    | SignErr(w: nat)
    | Fail(w: nat, found: bool, written: bool)        // project lookup, then MarkJobDead or MarkJobFailed
    | Bury(w: nat, stored: bool)           // MoveToDLQ; LPUSH may fail
    | Ack(w: nat, removed: bool)           // Acknowledge; LREM may fail
    | Take(w: nat, removed: bool)          // Requeue's LREM; if it fails Requeue returns
    | PutBack(w: nat, pushed: bool)        // Requeue's RPUSH; if it fails, or is never sent because the reply
                                           // to LREM was lost, Requeue returns without the entry

  const REASON := "signing failed"
  const DEFAULT_RETRIES := 3

  predicate AllIdle(ws: seq<Phase>) {
    forall i :: 0 <= i < |ws| ==> ws[i].Idle?
  }

  /** The budget handleJobFailure uses: the project's, or 3 when the project is not found. */
  function Budget(s: System, job: Job, found: bool): int {
    if found && job.projectID in s.projects then s.projects[job.projectID] else DEFAULT_RETRIES
  }

  predicate Enabled(s: System, a: Action) {
    match a
    case Create(_, _, _, _, _, freshID) => freshID !in s.rows
    case Push(job) => job.id in s.rows && s.rows[job.id].projectID == job.projectID
    case Crash(_) => true
    case RecoverTake(w, job) => !s.started && AllIdle(s.ws) && w < |s.ws| && Canonical(job) in s.q.processing
    case Start => !s.started && AllIdle(s.ws)
    case Fetch(w, _) =>
      s.started && w < |s.ws| && s.ws[w].Idle? && s.q.main != [] && Decodable(s.q.main[|s.q.main| - 1])
    case Read(w, _) => w < |s.ws| && s.ws[w].Fetched?
    case Abandon(w) => w < |s.ws| && (s.ws[w].Fetched? || s.ws[w].Ready? || s.ws[w].Marked?)
    case Mark(w) => w < |s.ws| && s.ws[w].Ready?
    case Sign(w) => w < |s.ws| && s.ws[w].Marked?
    case SignOk(w, _, _) => w < |s.ws| && s.ws[w].Signing?
    case SignErr(w) => w < |s.ws| && s.ws[w].Signing?
    case Fail(w, _, _) => w < |s.ws| && s.ws[w].Failing?
    case Bury(w, _) => w < |s.ws| && s.ws[w].DeadMarked?
    case Ack(w, _) => w < |s.ws| && s.ws[w].Acking?
    case Take(w, _) => w < |s.ws| && s.ws[w].Requeueing?
    case PutBack(w, _) => w < |s.ws| && s.ws[w].InHand?
  }

  // ---- What the pool holds ----

  /** Ways a worker can be concerned with an entry: it holds it in processing undecided, it is committed
      to acknowledge it, it took it out of processing and has yet to push it back, or it counted an
      attempt whose outcome is not written. */
  datatype Role = Open | Committed | Hand | Midway

  predicate Plays(k: Role, p: Phase) {
    match k
    case Open => p.Fetched? || p.Ready? || p.Marked? || p.Signing? || p.Failing? || p.Requeueing?
    case Committed => p.DeadMarked? || p.Acking?
    case Hand => p.InHand?
    case Midway => p.Marked? || p.Signing? || (p.Failing? && p.signed)
  }

  function Weight(k: Role, p: Phase, e: Entry): nat {
    if Plays(k, p) && Canonical(p.job) == e then 1 else 0
  }

  /** How many workers play the role for the entry. */
  function Sum(k: Role, ws: seq<Phase>, e: Entry): nat {
    if ws == [] then 0 else Weight(k, ws[0], e) + Sum(k, ws[1..], e)
  }

  /** The entries for which the role is played. */
  function Entries(k: Role, ws: seq<Phase>): multiset<Entry> {
    if ws == [] then multiset{}
    else (if Plays(k, ws[0]) then multiset{Canonical(ws[0].job)} else multiset{}) + Entries(k, ws[1..])
  }

  lemma {:induction false} EntriesCount(k: Role, ws: seq<Phase>, e: Entry)
    ensures Entries(k, ws)[e] == Sum(k, ws, e)
    decreases |ws|
  {
    if ws != [] { EntriesCount(k, ws[1..], e); }
  }

  lemma {:induction false} SumUpdate(k: Role, ws: seq<Phase>, i: nat, p: Phase, e: Entry)
    requires i < |ws|
    ensures Sum(k, ws[i := p], e) == Sum(k, ws, e) - Weight(k, ws[i], e) + Weight(k, p, e)
    ensures Weight(k, ws[i], e) <= Sum(k, ws, e)
    decreases |ws|
  {
    if i == 0 {
      assert ws[0 := p][1..] == ws[1..];
    } else {
      SumUpdate(k, ws[1..], i - 1, p, e);
      assert ws[i := p][1..] == ws[1..][i - 1 := p];
    }
  }

  lemma {:induction false} SumIdle(k: Role, ws: seq<Phase>, e: Entry)
    requires AllIdle(ws)
    ensures Sum(k, ws, e) == 0
    decreases |ws|
  {
    if ws != [] { SumIdle(k, ws[1..], e); }
  }

  // ---- One step, component by component ----

  /** The SQL writes. */
  ghost function RowsAfter(s: System, a: Action): Table
    requires Enabled(s, a)
  {
    match a
    case Create(projectID, walletID, operation, payload, key, freshID) =>
      Created(s.rows, projectID, walletID, operation, payload, key, freshID).0
    case Mark(w) => MarkedProcessing(s.rows, s.ws[w].job.id)
    case SignOk(w, result, written) => if written then MarkedCompleted(s.rows, s.ws[w].job.id, result) else s.rows
    case Fail(w, found, written) =>
      if !written then s.rows
      else if s.ws[w].seen >= Budget(s, s.ws[w].job, found) then MarkedDead(s.rows, s.ws[w].job.id, REASON)
      else MarkedFailed(s.rows, s.ws[w].job.id, REASON)
    case _ => s.rows
  }

  /** The Redis commands. */
  function ListsAfter(s: System, a: Action): Lists
    requires Enabled(s, a)
  {
    match a
    case Push(job) => Enqueued(s.q, job)
    case RecoverTake(_, job) => Acknowledged(s.q, job)
    case Fetch(_, _) => Dequeued(s.q).0
    case Bury(w, stored) => if stored then Buried(s.q, s.ws[w].job, REASON) else s.q
    case Ack(w, removed) => if removed then Acknowledged(s.q, s.ws[w].job) else s.q
    case Take(w, removed) => if removed then Acknowledged(s.q, s.ws[w].job) else s.q
    case PutBack(w, pushed) => if pushed then Enqueued(s.q, s.ws[w].job) else s.q
    case _ => s.q
  }

  predicate OfWorker(a: Action) {
    !(a.Create? || a.Push? || a.Crash? || a.Start?)
  }

  /** Where the acting worker goes. */
  function PhaseAfter(s: System, a: Action): Phase
    requires OfWorker(a) && Enabled(s, a)
  {
    match a
    case RecoverTake(_, job) => InHand(job)
    case Fetch(_, delivered) => if delivered then Fetched(s.q.main[|s.q.main| - 1].job) else Idle
    case Read(w, found) => PhaseAfterRead(s, s.ws[w].job, found)
    case Abandon(_) => Idle
    case Mark(w) => Marked(s.ws[w].job, s.ws[w].seen)
    case Sign(w) => Signing(s.ws[w].job, s.ws[w].seen)
    case SignOk(w, _, _) => Acking(s.ws[w].job)
    case SignErr(w) => Failing(s.ws[w].job, s.ws[w].seen, true)
    case Fail(w, found, _) =>
      if s.ws[w].seen >= Budget(s, s.ws[w].job, found) then DeadMarked(s.ws[w].job) else Requeueing(s.ws[w].job)
    case Bury(w, _) => Acking(s.ws[w].job)
    case Ack(_, _) => Idle
    case Take(w, removed) => if removed then InHand(s.ws[w].job) else Idle
    case PutBack(_, _) => Idle
  }

  function PhaseAfterRead(s: System, job: Job, found: bool): Phase {
    var row := Found(s.rows, job.id, job.projectID);
    if row.None? || Ended(row.value.status) then Acking(job)
    else if !found then Failing(job, row.value.attempts, false)
    else Ready(job, row.value.attempts)
  }

  function PoolAfter(s: System, a: Action): seq<Phase>
    requires Enabled(s, a)
  {
    if a.Crash? then seq(a.pool, _ => Idle)
    else if OfWorker(a) then s.ws[a.w := PhaseAfter(s, a)]
    else s.ws
  }

  function HistoryAfter(s: System, a: Action): History
    requires Enabled(s, a)
  {
    var h := s.hist;
    match a
    case Push(job) => h.(enqueued := h.enqueued + multiset{Canonical(job)})
    case Crash(_) => h.(lost := h.lost + Entries(Hand, s.ws), cut := h.cut + Entries(Midway, s.ws))
    case Sign(w) => h.(signs := h.signs + multiset{s.ws[w].job.id})
    case Abandon(w) => if s.ws[w].Marked? then h.(cut := h.cut + multiset{Canonical(s.ws[w].job)}) else h
    case PutBack(w, pushed) => if pushed then h else h.(lost := h.lost + multiset{Canonical(s.ws[w].job)})
    case Ack(w, removed) => if removed then h.(acked := h.acked + multiset{Canonical(s.ws[w].job)}) else h
    case _ => h
  }

  ghost function Step(s: System, a: Action): System
    requires Enabled(s, a)
  {
    System(ListsAfter(s, a), RowsAfter(s, a), PoolAfter(s, a),
           a.Start? || (s.started && !a.Crash?), s.projects, HistoryAfter(s, a))
  }

  ghost function Apply(s: System, a: Action): System {
    if Enabled(s, a) then Step(s, a) else s
  }

  ghost function Exec(s: System, run: seq<Action>): System
    decreases |run|
  {
    if run == [] then s else Exec(Apply(s, run[0]), run[1..])
  }

  lemma {:induction false} ExecAppend(s: System, a: seq<Action>, b: seq<Action>)
    ensures Exec(s, a + b) == Exec(Exec(s, a), b)
    decreases |a|
  {
    if a == [] {
      assert a + b == b;
    } else {
      assert (a + b)[0] == a[0] && (a + b)[1..] == a[1..] + b;
      ExecAppend(Apply(s, a[0]), a[1..], b);
    }
  }

  /** A fresh deployment with a pool of `pool` workers, not launched yet. */
  function Fresh(pool: nat, projects: map<string, int>): System {
    System(Lists([], [], []), map[], seq(pool, _ => Idle), false, projects,
           History(multiset{}, multiset{}, multiset{}, multiset{}, multiset{}))
  }
}
