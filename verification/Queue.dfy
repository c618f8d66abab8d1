/**
 The job queue as a transition system: any number of workers, in any number
 of processes, interleave the statements of processNext on one table.

 A claim is two steps, because FOR UPDATE SKIP LOCKED takes a row lock before
 the row changes. Replies can be lost, updates can fail and workers can die
 between any two steps; nothing ever returns a job left running by a dead worker.
 */
module Queue {
  import opened Prelude
  import opened Jobs
  import opened Lifecycle
  import opened Payloads

  type Wid = nat

  datatype Worker =
    | Idle
    // The claim statement has locked a row; NOW() is fixed at that moment.
    | Selected(id: Id, at: Time)
    // The claim has committed and returned the row; `inserted` tells whether the executor has
    // written its code_executions row.
    | Executing(job: Job, inserted: bool)
    // ExecuteJob has returned and the worker has read its own clock.
    | Finishing(job: Job, outcome: Outcome, now: Time)

  // A row of code_executions; its output columns play no part here.
  datatype Execution = Execution(job: Id, tenant: Id)

  datatype Event =
    | Created(id: Id)
    | Claimed(id: Id, attempt: nat, at: Time)
    // `now` is the worker's clock when the executor returned.
    | Ended(id: Id, attempt: nat, outcome: Outcome, now: Time)

  datatype State = State(
    clock: Time,
    jobs: map<Id, Job>,
    locks: map<Id, Wid>,
    workers: map<Wid, Worker>,
    executions: seq<Execution>,
    log: seq<Event>,
    stranded: set<Id>)

  // How far a worker's clock may be from the database's, and whether an insert into
  // code_executions can commit and yet be reported as failed.
  datatype Config = Config(skew: nat, lossyInserts: bool)

  datatype Step =
    | Tick(to: Time)
    | Create(id: Id, tenant: Id, jobType: string, payload: Object, maxAttempts: int)
    | Select(w: Wid, id: Id)
    | NoRows(w: Wid)
    | CommitClaim(w: Wid)
    | ClaimReplyLost(w: Wid)
    | InsertResult(w: Wid)
    | ExecOk(w: Wid, now: Time)
    | ExecFail(w: Wid, now: Time, message: string)
    | Update(w: Wid)
    | UpdateLost(w: Wid)
    | Crash(w: Wid)

  // The keys of the dispatch table built by registerExecutors.
  const REGISTERED := {EMAIL_JOB, SMS_JOB, CODE_JOB}

  predicate Claimable(s: State, id: Id) {
    id in s.jobs && s.jobs[id].status.Pending? && s.jobs[id].runAt <= s.clock && id !in s.locks
  }

  // A row the claim may pick: one of the earliest run_at among the unlocked due rows.
  predicate FirstClaimable(s: State, id: Id) {
    && Claimable(s, id)
    && forall other | other in s.jobs && Claimable(s, other) :: s.jobs[id].runAt <= s.jobs[other].runAt
  }

  predicate InFlight(x: Worker) {
    x.Executing? || x.Finishing?
  }

  predicate Near(c: Config, clock: Time, now: Time) {
    clock - c.skew <= now <= clock + c.skew
  }

  predicate Enabled(c: Config, s: State, a: Step) {
    match a
    case Tick(to) => s.clock <= to
    case Create(id, _, _, _, maxAttempts) => id !in s.jobs && 1 <= maxAttempts <= INT32_MAX
    case Select(w, id) => w in s.workers && s.workers[w].Idle? && FirstClaimable(s, id)
    case NoRows(w) => w in s.workers && s.workers[w].Idle? && forall id | id in s.jobs :: !Claimable(s, id)
    case CommitClaim(w) => w in s.workers && s.workers[w].Selected? && s.workers[w].id in s.jobs
    case ClaimReplyLost(w) => w in s.workers && s.workers[w].Selected? && s.workers[w].id in s.jobs
    case InsertResult(w) =>
      && w in s.workers && s.workers[w].Executing?
      && s.workers[w].job.jobType == CODE_JOB && !s.workers[w].inserted
    case ExecOk(w, now) =>
      && w in s.workers && s.workers[w].Executing? && Near(c, s.clock, now)
      && s.workers[w].job.jobType in REGISTERED
      && (s.workers[w].job.jobType == CODE_JOB ==> s.workers[w].inserted)
    case ExecFail(w, now, _) =>
      && w in s.workers && s.workers[w].Executing? && Near(c, s.clock, now)
      && (s.workers[w].inserted ==> c.lossyInserts)
    case Update(w) => w in s.workers && s.workers[w].Finishing?
    case UpdateLost(w) => w in s.workers && s.workers[w].Finishing?
    case Crash(w) => w in s.workers && !s.workers[w].Idle?
  }

  // The locked row starts running, and is unlocked.
  function TakeRow(s: State, w: Wid): State
    requires w in s.workers && s.workers[w].Selected? && s.workers[w].id in s.jobs
  {
    var id, at := s.workers[w].id, s.workers[w].at;
    var row := ClaimedRow(s.jobs[id], at);
    s.(jobs := s.jobs[id := row], locks := s.locks - {id}, log := s.log + [Claimed(id, row.attempt, at)])
  }

  function SetWorker(s: State, w: Wid, x: Worker): State {
    s.(workers := s.workers[w := x])
  }

  function Apply(c: Config, s: State, a: Step): State
    requires Enabled(c, s, a)
  {
    match a
    case Tick(to) => s.(clock := to)
    case Create(id, tenant, jobType, payload, maxAttempts) =>
      s.(jobs := s.jobs[id := InsertedRow(id, tenant, jobType, payload, maxAttempts, s.clock)],
         log := s.log + [Created(id)])
    case Select(w, id) => SetWorker(s.(locks := s.locks[id := w]), w, Selected(id, s.clock))
    case NoRows(_) => s
    case CommitClaim(w) =>
      var t := TakeRow(s, w);
      SetWorker(t, w, Executing(t.jobs[s.workers[w].id], false))
    case ClaimReplyLost(w) =>
      var t := TakeRow(s, w);
      SetWorker(t.(stranded := t.stranded + {s.workers[w].id}), w, Idle)
    case InsertResult(w) =>
      var job := s.workers[w].job;
      SetWorker(s.(executions := s.executions + [Execution(job.id, job.tenant)]), w, Executing(job, true))
    case ExecOk(w, now) => EndExecution(s, w, Success, now)
    case ExecFail(w, now, message) => EndExecution(s, w, Failure(message), now)
    case Update(w) =>
      var x := s.workers[w];
      SetWorker(s.(jobs := UpdateTable(s.jobs, FinishParams(x.job, x.outcome, x.now))), w, Idle)
    case UpdateLost(w) =>
      SetWorker(s.(stranded := s.stranded + {s.workers[w].job.id}), w, Idle)
    case Crash(w) =>
      var x := s.workers[w];
      if x.Selected? then
        SetWorker(s.(locks := s.locks - {x.id}), w, Idle)
      else
        SetWorker(s.(stranded := s.stranded + {x.job.id}), w, Idle)
  }

  function EndExecution(s: State, w: Wid, outcome: Outcome, now: Time): State
    requires w in s.workers && s.workers[w].Executing?
  {
    var job := s.workers[w].job;
    SetWorker(s.(log := s.log + [Ended(job.id, job.attempt, outcome, now)]), w, Finishing(job, outcome, now))
  }

  ghost predicate Init(s: State) {
    && s.jobs == map[] && s.locks == map[]
    && (forall w | w in s.workers :: s.workers[w] == Idle)
    && s.executions == [] && s.log == [] && s.stranded == {}
  }

  // Steps that lose a reply or a worker.
  predicate IsFault(s: State, a: Step) {
    match a
    case ClaimReplyLost(_) => true
    case UpdateLost(_) => true
    case Crash(w) => w in s.workers && InFlight(s.workers[w])
    case _ => false
  }
}
