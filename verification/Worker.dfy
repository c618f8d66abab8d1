/**
 The worker as it runs: processNext on the in-place tables, and the loop that
 calls it until nothing is left to do. Every call is a run of the queue of
 module Queue, so all of its invariants apply.
 */
module Worker {
  import opened Prelude
  import opened Jobs
  import opened Lifecycle
  import opened Queue
  import opened QueueInvariant
  import opened Accounting
  import opened JobTable
  import opened Payloads
  import Dispatch

  // ---------- Sequences of steps ----------

  ghost predicate Legal(c: Config, s: State, steps: seq<Step>)
    decreases |steps|, 0
  {
    steps == [] ||
    (var last := |steps| - 1;
     Legal(c, s, steps[..last]) && Enabled(c, After(c, s, steps[..last]), steps[last]))
  }

  ghost function After(c: Config, s: State, steps: seq<Step>): State
    requires Legal(c, s, steps)
    decreases |steps|, 1
  {
    if steps == [] then s else
      var last := |steps| - 1;
      Apply(c, After(c, s, steps[..last]), steps[last])
  }

  lemma AddStep(c: Config, s: State, steps: seq<Step>, a: Step)
    requires Legal(c, s, steps) && Enabled(c, After(c, s, steps), a)
    ensures Legal(c, s, steps + [a]) && After(c, s, steps + [a]) == Apply(c, After(c, s, steps), a)
  {
    assert (steps + [a])[..|steps|] == steps;
  }

  lemma {:induction false} LegalJoin(c: Config, s: State, p: seq<Step>, q: seq<Step>)
    requires Legal(c, s, p) && Legal(c, After(c, s, p), q)
    ensures Legal(c, s, p + q) && After(c, s, p + q) == After(c, After(c, s, p), q)
  {
    if q == [] {
      assert p + q == p;
    } else {
      var last := |q| - 1;
      var front, t := q[..last], After(c, s, p);
      LegalJoin(c, s, p, front);
      assert Legal(c, t, front) && After(c, t, q) == Apply(c, After(c, t, front), q[last]);
      AddStep(c, s, p + front, q[last]);
      assert p + q == (p + front) + [q[last]];
    }
  }

  lemma {:induction false} LegalKeepsInv(c: Config, s: State, steps: seq<Step>)
    requires Inv(c, s) && Legal(c, s, steps)
    ensures Inv(c, After(c, s, steps))
  {
    if steps != [] {
      LegalKeepsInv(c, s, steps[..|steps| - 1]);
      InvStep(c, After(c, s, steps[..|steps| - 1]), steps[|steps| - 1]);
    }
  }

  // ---------- One call of processNext ----------

  const ME: Wid := 0

  // The world around a worker: the tenants there are, the providers that can be built, how a call to one of
  // them ends at each attempt of a job, and whether the insert of its result fails, with which error.
  datatype World = World(
    tenants: set<Id>,
    build: Dispatch.Builder,
    answer: (Dispatch.Call, Id, int) -> Outcome,
    insertError: (Id, int) -> Option<string>)

  function Message(e: Dispatch.ExecError): string {
    match e
    case TenantNotFound => "tenant not found"
    case UnknownJobType(jobType) => "unknown job type: " + jobType
    case InvalidPayload(reason) => reason
    case ProviderUnavailable(reason) => reason
  }

  // The outcome of attempt k of a job: an error before any call is made, that of the provider call it is
  // dispatched to, or, when a program has been executed, an error of the insert.
  function Verdict(world: World, j: Job, k: int): Outcome {
    match Dispatch.ExecuteJob(Dispatch.TABLE, world.tenants, world.build, j.tenant, j.jobType, j.payload)
    case Err(e) => Failure(Message(e))
    case Ok(call) =>
      if world.answer(call, j.id, k).Failure? then world.answer(call, j.id, k)
      else if j.jobType == CODE_JOB && world.insertError(j.id, k).Some? then Failure(world.insertError(j.id, k).value)
      else Success
  }

  // What that comes to for each type of job.
  lemma VerdictCases(world: World, j: Job, k: int)
    ensures j.tenant !in world.tenants ==> Verdict(world, j, k) == Failure("tenant not found")
    ensures j.tenant in world.tenants && j.jobType !in {"email.send", "sms.send", "code.execute"} ==>
              Verdict(world, j, k) == Failure("unknown job type: " + j.jobType)
    ensures j.tenant in world.tenants && j.jobType == "email.send" ==>
              match UnmarshalEmail(j.payload)
              case Err(reason) => Verdict(world, j, k) == Failure(reason)
              case Ok(email) =>
                match world.build(Dispatch.EmailKind, j.tenant, email.provider)
                case Err(reason) => Verdict(world, j, k) == Failure(reason)
                case Ok(p) => Verdict(world, j, k) == world.answer(Dispatch.EmailCall(p, email.message), j.id, k)
    ensures j.tenant in world.tenants && j.jobType == "sms.send" ==>
              match UnmarshalSms(j.payload)
              case Err(reason) => Verdict(world, j, k) == Failure(reason)
              case Ok(sms) =>
                match world.build(Dispatch.SmsKind, j.tenant, sms.provider)
                case Err(reason) => Verdict(world, j, k) == Failure(reason)
                case Ok(p) =>
                  Verdict(world, j, k) == world.answer(Dispatch.SmsCall(p, sms.from, sms.to, sms.body), j.id, k)
    ensures j.tenant in world.tenants && j.jobType == "code.execute" ==>
              match UnmarshalCode(j.payload)
              case Err(reason) => Verdict(world, j, k) == Failure(reason)
              case Ok(code) =>
                match world.build(Dispatch.CodeKind, j.tenant, code.provider)
                case Err(reason) => Verdict(world, j, k) == Failure(reason)
                case Ok(p) =>
                  var call := Dispatch.CodeCall(p, code.sourceCode, code.languageId, code.stdin);
                  if world.answer(call, j.id, k).Failure? then
                    Verdict(world, j, k) == world.answer(call, j.id, k)
                  else
                    match world.insertError(j.id, k)
                    case Some(reason) => Verdict(world, j, k) == Failure(reason)
                    case None => Verdict(world, j, k) == Success
  {
  }

  function WritesResult(job: Job, outcome: Outcome): bool {
    job.jobType == CODE_JOB && outcome.Success?
  }

  ghost function Attempted(s: State, job: Job, outcome: Outcome, later: Time, now: Time): State
  {
    s.(clock := later,
       jobs := s.jobs[job.id := UpdatedRow(job, FinishParams(job, outcome, now))],
       executions := s.executions + if WritesResult(job, outcome) then [Execution(job.id, job.tenant)] else [],
       log := s.log + [Claimed(job.id, job.attempt, s.clock)] + [Ended(job.id, job.attempt, outcome, now)])
  }

  ghost function FinishStep(w: Wid, outcome: Outcome, now: Time): Step {
    match outcome
    case Success => ExecOk(w, now)
    case Failure(message) => ExecFail(w, now, message)
  }

  // The claimed job is being executed, and its result has been inserted if there is one.
  ghost function Executed(s: State, w: Wid, job: Job, inserted: bool): State {
    s.(jobs := s.jobs[job.id := job],
       workers := s.workers[w := Executing(job, inserted)],
       executions := s.executions + if inserted then [Execution(job.id, job.tenant)] else [],
       log := s.log + [Claimed(job.id, job.attempt, s.clock)])
  }

  ghost predicate IdleAt(s: State, w: Wid) {
    w in s.workers && s.workers[w].Idle?
  }

  lemma ClaimIsARun(c: Config, s: State, w: Wid, job: Job)
    requires IdleAt(s, w) && FirstClaimable(s, job.id) && job == ClaimedRow(s.jobs[job.id], s.clock)
    ensures var steps := [Select(w, job.id), CommitClaim(w)];
            Legal(c, s, steps) && After(c, s, steps) == Executed(s, w, job, false)
  {
    AddStep(c, s, [], Select(w, job.id));
    assert [] + [Select(w, job.id)] == [Select(w, job.id)];
    AddStep(c, s, [Select(w, job.id)], CommitClaim(w));
    assert [Select(w, job.id)] + [CommitClaim(w)] == [Select(w, job.id), CommitClaim(w)];
    var s1 := Apply(c, s, Select(w, job.id));
    assert s1.locks - {job.id} == s.locks;
    assert s1.workers[w := Executing(job, false)] == s.workers[w := Executing(job, false)];
  }

  lemma ExecutionIsARun(c: Config, s: State, w: Wid, job: Job, inserted: bool) returns (steps: seq<Step>)
    requires IdleAt(s, w) && FirstClaimable(s, job.id) && job == ClaimedRow(s.jobs[job.id], s.clock)
    requires inserted ==> job.jobType == CODE_JOB
    ensures Legal(c, s, steps) && After(c, s, steps) == Executed(s, w, job, inserted)
  {
    ClaimIsARun(c, s, w, job);
    steps := [Select(w, job.id), CommitClaim(w)];
    if inserted {
      AddStep(c, s, steps, InsertResult(w));
      steps := steps + [InsertResult(w)];
      assert After(c, s, steps).workers == s.workers[w := Executing(job, true)];
    }
  }

  // From there, reading the clock and writing the status.
  lemma FinishIsARun(c: Config, s: State, w: Wid, job: Job, outcome: Outcome, later: Time, now: Time)
    returns (steps: seq<Step>)
    requires IdleAt(s, w) && s.clock <= later && Near(c, later, now)
    requires outcome.Success? ==> job.jobType in REGISTERED
    ensures var t := Executed(s, w, job, WritesResult(job, outcome));
            Legal(c, t, steps) && After(c, t, steps) == Attempted(s, job, outcome, later, now)
  {
    var t := Executed(s, w, job, WritesResult(job, outcome));
    steps := EndIsARun(c, t, w, job, outcome, later, now);
    var u := After(c, t, steps);
    assert u.workers == s.workers[w := Finishing(job, outcome, now)];
    UpdateFromClaim(c, u, w, s.jobs, job, outcome, now);
    AddStep(c, t, steps, Update(w));
    steps := steps + [Update(w)];
    assert u.workers[w := Idle] == s.workers;
  }

  lemma UpdateFromClaim(c: Config, u: State, w: Wid, jobs: map<Id, Job>, job: Job, outcome: Outcome, now: Time)
    requires w in u.workers && u.workers[w] == Finishing(job, outcome, now)
    requires u.jobs == jobs[job.id := job]
    ensures Enabled(c, u, Update(w))
    ensures Apply(c, u, Update(w))
            == u.(jobs := jobs[job.id := UpdatedRow(job, FinishParams(job, outcome, now))],
                  workers := u.workers[w := Idle])
  {
    UpdateAfterClaim(jobs, job, FinishParams(job, outcome, now));
  }

  lemma EndIsARun(c: Config, t: State, w: Wid, job: Job, outcome: Outcome, later: Time, now: Time)
    returns (steps: seq<Step>)
    requires w in t.workers && t.workers[w] == Executing(job, WritesResult(job, outcome))
    requires t.clock <= later && Near(c, later, now)
    requires outcome.Success? ==> job.jobType in REGISTERED
    ensures Legal(c, t, steps)
    ensures After(c, t, steps) == t.(clock := later, workers := t.workers[w := Finishing(job, outcome, now)],
                                     log := t.log + [Ended(job.id, job.attempt, outcome, now)])
  {
    AddStep(c, t, [], Tick(later));
    assert [] + [Tick(later)] == [Tick(later)];
    AddStep(c, t, [Tick(later)], FinishStep(w, outcome, now));
    steps := [Tick(later)] + [FinishStep(w, outcome, now)];
  }

  // Claiming, executing, reading the clock and writing the status is a legal run of any idle worker,
  // whatever the others hold and have locked, and leaves them as they were.
  lemma AttemptIsARun(c: Config, s: State, w: Wid, job: Job, outcome: Outcome, later: Time, now: Time)
    returns (steps: seq<Step>)
    requires IdleAt(s, w) && FirstClaimable(s, job.id) && job == ClaimedRow(s.jobs[job.id], s.clock)
    requires outcome.Success? ==> job.jobType in REGISTERED
    requires s.clock <= later && Near(c, later, now)
    ensures Legal(c, s, steps) && After(c, s, steps) == Attempted(s, job, outcome, later, now)
  {
    var first := ExecutionIsARun(c, s, w, job, WritesResult(job, outcome));
    var second := FinishIsARun(c, s, w, job, outcome, later, now);
    LegalJoin(c, s, first, second);
    steps := first + second;
  }

  // ---------- What one call does to the books ----------

  lemma AttemptKeepsBooks(c: Config, s: State, job: Job, outcome: Outcome, later: Time, now: Time)
    requires Rows(c, s) && Books(s)
    requires FirstClaimable(s, job.id) && job == ClaimedRow(s.jobs[job.id], s.clock)
    ensures var s' := Attempted(s, job, outcome, later, now);
            Books(s') && Potential(s') < Potential(s)
  {
    assert RowOk(c.skew, s.clock, s.jobs[job.id]);
    var s' := Attempted(s, job, outcome, later, now);
    CountAppend(s.log, Claimed(job.id, job.attempt, s.clock));
    CountAppend(s.log + [Claimed(job.id, job.attempt, s.clock)], Ended(job.id, job.attempt, outcome, now));
    RowKeepsBooks(s, s', job.id);
  }

  // All of it together, for a state in which the invariant holds.
  lemma AttemptSummary(c: Config, s: State, job: Job, outcome: Outcome, later: Time, now: Time)
    returns (steps: seq<Step>)
    requires Inv(c, s) && Books(s) && IdleAt(s, ME)
    requires FirstClaimable(s, job.id) && job == ClaimedRow(s.jobs[job.id], s.clock)
    requires outcome.Success? ==> job.jobType in REGISTERED
    requires s.clock <= later && Near(c, later, now)
    ensures var s' := Attempted(s, job, outcome, later, now);
            && Legal(c, s, steps) && s' == After(c, s, steps)
            && Inv(c, s') && Books(s') && Potential(s') < Potential(s)
  {
    steps := AttemptIsARun(c, s, ME, job, outcome, later, now);
    LegalKeepsInv(c, s, steps);
    AttemptKeepsBooks(c, s, job, outcome, later, now);
  }

  lemma ClaimableUnlocked(s: State)
    requires s.locks == map[]
    ensures forall id | id in s.jobs :: Claimable(s, id) == Claimable(View(s.jobs, s.clock, map[]), id)
    ensures forall id | id in s.jobs :: FirstClaimable(s, id) == FirstClaimable(View(s.jobs, s.clock, map[]), id)
  {
  }

  lemma UpdateAfterClaim(jobs: map<Id, Job>, job: Job, p: UpdateParams)
    requires p.id == job.id
    ensures UpdateTable(jobs[job.id := job], p) == jobs[job.id := UpdatedRow(job, p)]
  {
  }

  lemma CreationStep(c: Config, s: State, a: Step)
    requires Inv(c, s) && Books(s) && Enabled(c, s, a) && a.Create?
    ensures Inv(c, Apply(c, s, a)) && Books(Apply(c, s, a))
  {
    InvStep(c, s, a);
    CreateKeepsBooks(c, s, a);
  }

  // ---------- Outcomes of a job ----------

  ghost predicate Succeeds(world: World, j: Job, k: int) {
    Verdict(world, j, k).Success?
  }

  // A job queued for a request succeeds at an attempt exactly if the synchronous branch would have reached a
  // provider, the provider succeeds at that attempt, and the result of a program can be inserted.
  lemma SucceedsLikeSync(world: World, j: Job, k: int, r: Dispatch.Request)
    requires j.tenant in world.tenants
    requires j.jobType == Dispatch.Enqueued(r).jobType && j.payload == Dispatch.Enqueued(r).payload
    ensures var call := Dispatch.Sync(world.build, j.tenant, r);
            Succeeds(world, j, k) <==>
              && call.Ok? && world.answer(call.value, j.id, k).Success?
              && (r.ExecuteCode? ==> world.insertError(j.id, k).None?)
  {
    Dispatch.AsyncRefinesSync(Dispatch.TABLE, world.tenants, world.build, j.tenant, r);
  }

  // How a row may stand after some of its attempts, given how it stood at the start.
  ghost predicate Follows(world: World, was: Job, j: Job) {
    && SameIdentity(was, j)
    && (!was.status.Pending? ==> j == was)
    && (was.status.Pending? ==>
          && was.attempt <= j.attempt && !j.status.Running?
          && (forall k | was.attempt < k < j.attempt :: !Succeeds(world, was, k))
          && (j.status.Pending? && was.attempt < j.attempt ==> !Succeeds(world, was, j.attempt))
          && (j.status.Completed? ==> was.attempt < j.attempt <= was.maxAttempts && Succeeds(world, was, j.attempt))
          && (j.status.Failed? ==> was.attempt < j.attempt == was.maxAttempts && !Succeeds(world, was, j.attempt)))
  }

  lemma AttemptFollows(world: World, skew: nat, clock: Time, was: Job, j: Job, now: Time)
    requires RowOk(skew, clock, j) && j.status.Pending? && Follows(world, was, j)
    ensures var job := ClaimedRow(j, clock);
            var outcome := Verdict(world, job, job.attempt);
            Follows(world, was, UpdatedRow(job, FinishParams(job, outcome, now)))
  {
  }

  // At the end of the loop: completed exactly if one of the remaining attempts succeeds, then with the
  // first such attempt; failed exactly if all of them fail.
  ghost predicate Settled(world: World, was: Job, j: Job) {
    && SameIdentity(was, j)
    && (!was.status.Pending? ==> j == was)
    && (was.status.Pending? ==>
          && (j.status.Completed? || j.status.Failed?)
          && (j.status.Completed? <==> exists k :: was.attempt < k <= was.maxAttempts && Succeeds(world, was, k))
          && (j.status.Failed? <==> forall k | was.attempt < k <= was.maxAttempts :: !Succeeds(world, was, k))
          && (j.status.Completed? ==>
                && was.attempt < j.attempt <= was.maxAttempts && Succeeds(world, was, j.attempt)
                && forall k | was.attempt < k < j.attempt :: !Succeeds(world, was, k)))
  }

  lemma FollowsToTheEnd(world: World, was: Job, j: Job)
    requires Follows(world, was, j) && !j.status.Pending?
    ensures Settled(world, was, j)
  {
  }

  lemma AllSettled(world: World, first: map<Id, Job>, jobs: map<Id, Job>, index: seq<Id>)
    requires IndexOk(jobs, index) && index == [] && jobs.Keys == first.Keys
    requires forall id | id in jobs :: Follows(world, first[id], jobs[id])
    ensures forall id | id in jobs :: Settled(world, first[id], jobs[id])
  {
    forall id | id in jobs
      ensures Settled(world, first[id], jobs[id])
    {
      assert id !in index;
      FollowsToTheEnd(world, first[id], jobs[id]);
    }
  }

  lemma FollowsAfter(world: World, c: Config, first: map<Id, Job>, s: State, job: Job, now: Time,
                     jobs: map<Id, Job>)
    requires Rows(c, s) && s.jobs.Keys == first.Keys
    requires forall id | id in s.jobs :: Follows(world, first[id], s.jobs[id])
    requires FirstClaimable(s, job.id) && job == ClaimedRow(s.jobs[job.id], s.clock)
    requires var outcome := Verdict(world, job, job.attempt);
             jobs == s.jobs[job.id := UpdatedRow(job, FinishParams(job, outcome, now))]
    ensures jobs.Keys == first.Keys
    ensures forall id | id in jobs :: Follows(world, first[id], jobs[id])
  {
    assert RowOk(c.skew, s.clock, s.jobs[job.id]);
    AttemptFollows(world, c.skew, s.clock, first[job.id], s.jobs[job.id], now);
  }

  lemma TickKeepsBooks(c: Config, s: State, to: Time)
    requires Inv(c, s) && Books(s) && s.clock <= to
    ensures Inv(c, s.(clock := to)) && Books(s.(clock := to)) && Potential(s.(clock := to)) == Potential(s)
  {
    InvStep(c, s, Tick(to));
  }

  // ---------- The worker ----------

  class Loop {
    const table: Table
    const skew: nat
    const executors: map<string, Dispatch.Executor>
    ghost var log: seq<Event>
    ghost var stranded: set<Id>

    constructor (now: Time, skew: nat, handler: Dispatch.Handler)
      requires Dispatch.Registered(handler.executors)
      ensures Valid() && fresh(table) && table.jobs == map[] && this.skew == skew
    {
      table := new Table(now);
      this.skew := skew;
      executors := handler.executors;
      log, stranded := [], {};
      new;
      InitInv(Cfg(), Abs());
    }

    ghost function Cfg(): Config {
      Config(skew, false)
    }

    // The queue as this worker sees it between two calls: nothing locked, itself idle.
    ghost function Abs(): State
      reads this, table
    {
      State(table.clock, table.jobs, map[], map[ME := Idle], table.executions, log, stranded)
    }

    ghost predicate Valid()
      reads this, table
    {
      table.Valid() && Inv(Cfg(), Abs()) && Books(Abs()) && Dispatch.Registered(executors)
    }

    method CreateJob(id: Id, tenant: Id, jobType: string, payload: Payloads.Object, maxAttempts: int)
      requires Valid() && id !in table.jobs && 1 <= maxAttempts <= INT32_MAX
      modifies this, table
      ensures Valid()
      ensures var a := Step.Create(id, tenant, jobType, payload, maxAttempts);
              Enabled(Cfg(), old(Abs()), a) && Abs() == Apply(Cfg(), old(Abs()), a)
    {
      ghost var a := Step.Create(id, tenant, jobType, payload, maxAttempts);
      CreationStep(Cfg(), Abs(), a);
      var job := table.CreateJob(id, tenant, jobType, payload, maxAttempts);
      log := log + [Event.Created(id)];
      assert Abs() == Apply(Cfg(), old(Abs()), a);
    }

    // ExecuteJob: the tenant, the executor registered for the job's type, its payload decoded, the provider
    // built and called; a successful code execution is recorded.
    method ExecuteJob(job: Job, world: World) returns (outcome: Outcome)
      requires Dispatch.Registered(executors)
      modifies table`executions
      ensures job.tenant !in world.tenants ==> outcome == Failure("tenant not found")
      ensures job.tenant in world.tenants && job.jobType !in {"email.send", "sms.send", "code.execute"} ==>
                outcome == Failure("unknown job type: " + job.jobType)
      ensures job.tenant in world.tenants && job.jobType == "email.send" ==>
                match UnmarshalEmail(job.payload)
                case Err(reason) => outcome == Failure(reason)
                case Ok(email) =>
                  match world.build(Dispatch.EmailKind, job.tenant, email.provider)
                  case Err(reason) => outcome == Failure(reason)
                  case Ok(p) => outcome == world.answer(Dispatch.EmailCall(p, email.message), job.id, job.attempt)
      ensures job.tenant in world.tenants && job.jobType == "sms.send" ==>
                match UnmarshalSms(job.payload)
                case Err(reason) => outcome == Failure(reason)
                case Ok(sms) =>
                  match world.build(Dispatch.SmsKind, job.tenant, sms.provider)
                  case Err(reason) => outcome == Failure(reason)
                  case Ok(p) =>
                    outcome == world.answer(Dispatch.SmsCall(p, sms.from, sms.to, sms.body), job.id, job.attempt)
      ensures job.tenant in world.tenants && job.jobType == "code.execute" ==>
                match UnmarshalCode(job.payload)
                case Err(reason) => outcome == Failure(reason)
                case Ok(code) =>
                  match world.build(Dispatch.CodeKind, job.tenant, code.provider)
                  case Err(reason) => outcome == Failure(reason)
                  case Ok(p) =>
                    var call := Dispatch.CodeCall(p, code.sourceCode, code.languageId, code.stdin);
                    if world.answer(call, job.id, job.attempt).Failure? then
                      outcome == world.answer(call, job.id, job.attempt)
                    else
                      match world.insertError(job.id, job.attempt)
                      case Some(reason) => outcome == Failure(reason)
                      case None => outcome == Success
      ensures outcome == Verdict(world, job, job.attempt)
      ensures table.executions == old(table.executions)
                                  + if WritesResult(job, outcome) then [Execution(job.id, job.tenant)] else []
    {
      assert executors == Dispatch.TABLE by { Dispatch.OneTable(executors); }
      VerdictCases(world, job, job.attempt);
      if job.tenant !in world.tenants {
        return Failure("tenant not found");
      }
      if job.jobType !in executors {
        return Failure("unknown job type: " + job.jobType);
      }
      var called := executors[job.jobType].Execute(world.build, job.tenant, job.payload);
      if called.Err? {
        return Failure(Message(called.error));
      }
      outcome := world.answer(called.value, job.id, job.attempt);
      if outcome.Success? && job.jobType == CODE_JOB {
        var error := world.insertError(job.id, job.attempt);
        if error.Some? {
          return Failure(error.value);
        }
        table.InsertCodeExecution(job.id, job.tenant);
      }
    }

    // The statements of processNext, on the tables alone.
    method Attempt(world: World)
      returns (claimed: Option<Job>, ghost outcome: Outcome, ghost later: Time, ghost now: Time)
      requires table.Valid() && Dispatch.Registered(executors)
      modifies this, table
      ensures table.Valid()
      ensures claimed.None? <==> forall id | id in old(table.jobs) :: !Claimable(old(Abs()), id)
      ensures claimed.None? ==> Abs() == old(Abs())
      ensures claimed.Some? ==>
                var job := claimed.value;
                && FirstClaimable(old(Abs()), job.id) && job == ClaimedRow(old(Abs()).jobs[job.id], old(Abs()).clock)
                && outcome == Verdict(world, job, job.attempt)
                && old(Abs()).clock <= later && Near(Cfg(), later, now)
                && Abs() == Attempted(old(Abs()), job, outcome, later, now)
    {
      ghost var s := Abs();
      claimed := table.ClaimNextJob(map[]);
      ClaimableUnlocked(s);
      outcome, later, now := Success, 0, 0;
      if claimed.None? {
        return;
      }
      var job := claimed.value;
      var result := ExecuteJob(job, world);
      var end :| table.clock <= end;
      table.clock := end;
      var reading :| end - skew <= reading <= end + skew;
      var updated := table.UpdateJobStatus(FinishParams(job, result, reading));
      log := log + [Claimed(job.id, job.attempt, s.clock)] + [Ended(job.id, job.attempt, result, reading)];
      outcome, later, now := result, end, reading;
      UpdateAfterClaim(s.jobs, job, FinishParams(job, result, reading));
    }

    // Claim, execute, write the result. Executing takes any time, and the worker's clock is anywhere
    // within the skew. The whole call is a legal run of the queue.
    method ProcessNext(world: World) returns (claimed: Option<Job>, ghost steps: seq<Step>)
      requires Valid()
      modifies this, table
      ensures Valid()
      ensures Legal(Cfg(), old(Abs()), steps) && Abs() == After(Cfg(), old(Abs()), steps)
      ensures claimed.None? <==> forall id | id in old(table.jobs) :: !Claimable(old(Abs()), id)
      ensures claimed.None? ==> Abs() == old(Abs())
      ensures claimed.Some? ==>
                var job := claimed.value;
                && FirstClaimable(old(Abs()), job.id) && job == ClaimedRow(old(Abs()).jobs[job.id], old(Abs()).clock)
                && (exists now :: Near(Cfg(), table.clock, now) &&
                      var outcome := Verdict(world, job, job.attempt);
                      table.jobs == old(table.jobs)[job.id := UpdatedRow(job, FinishParams(job, outcome, now))])
                && Potential(Abs()) < old(Potential(Abs()))
    {
      ghost var s := Abs();
      ghost var outcome, later, now;
      claimed, outcome, later, now := Attempt(world);
      steps := [];
      if claimed.Some? {
        steps := AttemptSummary(Cfg(), s, claimed.value, outcome, later, now);
      }
    }

    // Nothing happens until the earliest pending job is due.
    method WaitForNext()
      requires Valid() && table.index != []
      modifies table`clock
      ensures Valid()
      ensures Legal(Cfg(), old(Abs()), [Tick(table.clock)])
      ensures Abs() == After(Cfg(), old(Abs()), [Tick(table.clock)]) == old(Abs()).(clock := table.clock)
      ensures Potential(Abs()) == old(Potential(Abs()))
      ensures exists id :: id in table.jobs && Claimable(Abs(), id)
    {
      ghost var s := Abs();
      var id := table.index[0];
      assert id in table.index;
      if table.clock < table.jobs[id].runAt {
        table.clock := table.jobs[id].runAt;
      }
      assert Claimable(Abs(), id);
      TickKeepsBooks(Cfg(), s, table.clock);
      AddStep(Cfg(), s, [], Tick(table.clock));
      assert [] + [Tick(table.clock)] == [Tick(table.clock)];
    }

    // loop without faults: when nothing is due, time passes until the next run_at. It ends, all of it
    // one legal run of the queue, and then every job that was pending has been completed or failed by
    // its own executions.
    method Drain(world: World) returns (ghost steps: seq<Step>)
      requires Valid()
      modifies this, table
      ensures Valid()
      ensures Legal(Cfg(), old(Abs()), steps) && Abs() == After(Cfg(), old(Abs()), steps)
      ensures table.jobs.Keys == old(table.jobs).Keys
      ensures forall id | id in table.jobs :: Settled(world, old(table.jobs)[id], table.jobs[id])
    {
      ghost var first := table.jobs;
      steps := Rounds(world, first);
      AllSettled(world, first, table.jobs, table.index);
    }

    method Rounds(world: World, ghost first: map<Id, Job>) returns (ghost steps: seq<Step>)
      requires Valid() && table.jobs == first
      modifies this, table
      ensures Valid() && table.index == []
      ensures Legal(Cfg(), old(Abs()), steps) && Abs() == After(Cfg(), old(Abs()), steps)
      ensures table.jobs.Keys == first.Keys
      ensures forall id | id in table.jobs :: Follows(world, first[id], table.jobs[id])
    {
      ghost var start := Abs();
      steps := [];
      while table.index != []
        invariant Valid()
        invariant Legal(Cfg(), start, steps) && Abs() == After(Cfg(), start, steps)
        invariant table.jobs.Keys == first.Keys
        invariant forall id | id in table.jobs :: Follows(world, first[id], table.jobs[id])
        decreases Potential(Abs())
      {
        steps := Round(world, first, start, steps);
      }
    }

    // One round of the loop: wait until a job is due, then process one. It prolongs the run so far.
    method Round(world: World, ghost first: map<Id, Job>, ghost start: State, ghost before: seq<Step>)
      returns (ghost steps: seq<Step>)
      requires Valid() && table.index != []
      requires Legal(Cfg(), start, before) && Abs() == After(Cfg(), start, before)
      requires table.jobs.Keys == first.Keys
      requires forall id | id in table.jobs :: Follows(world, first[id], table.jobs[id])
      modifies this, table
      ensures Valid()
      ensures Legal(Cfg(), start, steps) && Abs() == After(Cfg(), start, steps)
      ensures table.jobs.Keys == first.Keys
      ensures forall id | id in table.jobs :: Follows(world, first[id], table.jobs[id])
      ensures 0 <= Potential(Abs()) < old(Potential(Abs()))
    {
      WaitForNext();
      ghost var s := Abs();
      var claimed, more := ProcessNext(world);
      ghost var job := claimed.value;
      ghost var outcome := Verdict(world, job, job.attempt);
      ghost var now :| Near(Cfg(), table.clock, now)
                       && table.jobs == s.jobs[job.id := UpdatedRow(job, FinishParams(job, outcome, now))];
      FollowsAfter(world, Cfg(), first, s, job, now, table.jobs);
      PotentialNonNegative(Cfg(), Abs());
      LegalJoin(Cfg(), start, before, [Tick(s.clock)]);
      LegalJoin(Cfg(), start, before + [Tick(s.clock)], more);
      steps := before + [Tick(s.clock)] + more;
    }
  }
}
