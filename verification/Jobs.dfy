/**
 The jobs table: its rows, and what the four statements on it and the
 parameters computed by the worker do to one row.
 */
module Jobs {
  import opened Prelude
  import opened Backoff
  import opened Payloads

  const INT32_MAX := 0x7fff_ffff

  const EMAIL_JOB := "email.send"
  const SMS_JOB := "sms.send"
  const CODE_JOB := "code.execute"

  datatype Status = Pending | Running | Completed | Failed

  datatype Job = Job(
    id: Id,
    tenant: Id,
    jobType: string,
    payload: Object,
    status: Status,
    attempt: nat,
    maxAttempts: int,
    error: Option<string>,
    runAt: Time,
    startedAt: Option<Time>,
    completedAt: Option<Time>,
    createdAt: Time)

  // What ExecuteJob returned: nil, or an error with its text.
  datatype Outcome = Success | Failure(message: string)

  datatype UpdateParams = UpdateParams(
    id: Id,
    status: Status,
    error: Option<string>,
    completedAt: Option<Time>,
    runAt: Time)

  // A new row: every column that is not given takes its default.
  function InsertedRow(id: Id, tenant: Id, jobType: string, payload: Object, maxAttempts: int, now: Time): Job {
    Job(id, tenant, jobType, payload, Pending, 0, maxAttempts, None, now, None, None, now)
  }

  // The SET list of the claim.
  function ClaimedRow(row: Job, now: Time): Job {
    row.(status := Running, startedAt := Some(now), attempt := row.attempt + 1)
  }

  // The SET list of UpdateJobStatus.
  function UpdatedRow(row: Job, p: UpdateParams): Job {
    row.(status := p.status, error := p.error, completedAt := p.completedAt, runAt := p.runAt)
  }

  // The status update finds its row by id: no other guard, and no row at all when the id is unknown.
  function UpdateTable(jobs: map<Id, Job>, p: UpdateParams): map<Id, Job> {
    if p.id in jobs then jobs[p.id := UpdatedRow(jobs[p.id], p)] else jobs
  }

  // What processNext writes after running the claimed snapshot: complete, retry or give up.
  function FinishParams(job: Job, outcome: Outcome, now: Time): UpdateParams {
    match outcome
    case Success => UpdateParams(job.id, Completed, None, Some(now), job.runAt)
    case Failure(message) =>
      if job.attempt < job.maxAttempts then
        UpdateParams(job.id, Pending, Some(message), None, now + Delay(job.attempt))
      else
        UpdateParams(job.id, Failed, Some(message), None, job.runAt)
  }
}
