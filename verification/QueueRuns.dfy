/**
 The guarantees of the job queue over every run: any number of workers, any
 interleaving, any lost replies and crashes.
 */
module QueueRuns {
  import opened Prelude
  import opened Backoff
  import opened Jobs
  import opened Lifecycle
  import opened Queue
  import opened QueueInvariant

  type Run = Trace<State, Step>

  ghost predicate IsRun(c: Config, r: Run) {
    && |r.states| == |r.steps| + 1
    && Init(r.states[0])
    && forall i | 0 <= i < |r.steps| :: StepAt(c, r, i)
  }

  ghost predicate StepAt(c: Config, r: Run, i: nat)
    requires |r.states| == |r.steps| + 1 && i < |r.steps|
  {
    Enabled(c, r.states[i], r.steps[i]) && r.states[i + 1] == Apply(c, r.states[i], r.steps[i])
  }

  ghost predicate Reachable(c: Config, s: State) {
    exists r: Run :: IsRun(c, r) && s in r.states
  }

  lemma Extend(c: Config, r: Run, a: Step) returns (longer: Run)
    requires IsRun(c, r) && Enabled(c, Last(r), a)
    ensures IsRun(c, longer)
    ensures longer.steps == r.steps + [a] && longer.states == r.states + [Apply(c, Last(r), a)]
  {
    longer := Trace(r.states + [Apply(c, Last(r), a)], r.steps + [a]);
    forall i | 0 <= i < |longer.steps|
      ensures StepAt(c, longer, i)
    {
      assert i < |r.steps| ==> StepAt(c, r, i);
    }
  }

  lemma {:induction false} RunInv(c: Config, r: Run, i: nat)
    requires IsRun(c, r) && i < |r.states|
    ensures Inv(c, r.states[i])
  {
    if i == 0 {
      InitInv(c, r.states[0]);
    } else {
      RunInv(c, r, i - 1);
      assert StepAt(c, r, i - 1);
      InvStep(c, r.states[i - 1], r.steps[i - 1]);
    }
  }

  lemma ReachableInv(c: Config, s: State)
    requires Reachable(c, s)
    ensures Inv(c, s)
  {
    var r: Run :| IsRun(c, r) && s in r.states;
    var i :| 0 <= i < |r.states| && r.states[i] == s;
    RunInv(c, r, i);
  }

  // ---------- Refinement ----------

  // A run seen by one job alone: a path of its automaton, in which other steps are stutters.
  lemma RunRefinesLifecycle(c: Config, r: Run, i: nat, id: Id)
    requires IsRun(c, r) && i < |r.steps|
    ensures var row, row' := Row(r.states[i], id), Row(r.states[i + 1], id);
            match MoveOf(r.states[i], r.steps[i], id)
            case None => row' == row
            case Some(m) =>
              && CanMove(row, m) && Timely(c.skew, r.states[i].clock, row, m)
              && row' == Some(Moved(id, row, m))
  {
    RunInv(c, r, i);
    assert StepAt(c, r, i);
    StepRefinesLifecycle(c, r.states[i], r.steps[i], id);
  }

  // Those paths are interleaved one move at a time: no step changes the rows of two jobs.
  lemma OneRowPerStep(c: Config, r: Run, i: nat, id: Id, other: Id)
    requires IsRun(c, r) && i < |r.steps|
    requires Row(r.states[i], id) != Row(r.states[i + 1], id) && Row(r.states[i], other) != Row(r.states[i + 1], other)
    ensures id == other
  {
    RunRefinesLifecycle(c, r, i, id);
    RunRefinesLifecycle(c, r, i, other);
  }

  // The update as it could have been written: only while the row is running attempt k.
  function GuardedUpdate(jobs: map<Id, Job>, p: UpdateParams, k: int): map<Id, Job> {
    if p.id in jobs && jobs[p.id].status.Running? && jobs[p.id].attempt == k
    then jobs[p.id := UpdatedRow(jobs[p.id], p)] else jobs
  }

  // In every reachable state the unguarded status update of a worker finds its row, and does exactly
  // what an update guarded by "still running the attempt I claimed" would do.
  lemma UnguardedUpdateIsCompareAndSet(c: Config, s: State, w: Wid)
    requires Reachable(c, s) && w in s.workers && s.workers[w].Finishing?
    ensures var x := s.workers[w];
            && x.job.attempt >= 1
            && x.job.id in s.jobs
            && (var p := FinishParams(x.job, x.outcome, x.now);
                UpdateTable(s.jobs, p) == GuardedUpdate(s.jobs, p, x.job.attempt)
                && UpdateTable(s.jobs, p) != s.jobs)
  {
    ReachableInv(c, s);
    var x := s.workers[w];
    assert OwnsRow(c, s, x) && RowOk(c.skew, s.clock, x.job);
    var p := FinishParams(x.job, x.outcome, x.now);
    assert UpdateTable(s.jobs, p)[x.job.id].status == p.status;
  }

  // On an arbitrary table the two statements agree exactly when the guard holds or there is nothing
  // to change: whoever else wrote to a running row would break the worker.
  lemma UpdatesAgreeIff(jobs: map<Id, Job>, p: UpdateParams, k: int)
    ensures UpdateTable(jobs, p) == GuardedUpdate(jobs, p, k) <==>
            (p.id in jobs ==> || (jobs[p.id].status.Running? && jobs[p.id].attempt == k)
                              || UpdatedRow(jobs[p.id], p) == jobs[p.id])
  {
    if p.id in jobs {
      assert UpdateTable(jobs, p)[p.id] == UpdatedRow(jobs[p.id], p);
      assert jobs[p.id := jobs[p.id]] == jobs;
    }
  }

  // ---------- Exclusive ownership ----------

  // A worker past its claim holds a row that is running the attempt it claimed; no other worker
  // holds it, and it is not locked. A locked row is pending and locked for one worker.
  lemma ExclusiveOwnership(c: Config, s: State)
    requires Reachable(c, s)
    ensures forall w | w in s.workers && InFlight(s.workers[w]) ::
              var j := s.workers[w].job;
              && j.id in s.jobs && s.jobs[j.id] == j && j.status.Running? && j.attempt >= 1
              && j.id !in s.locks
    ensures forall v, w | v in s.workers && w in s.workers && v != w
                          && InFlight(s.workers[v]) && InFlight(s.workers[w]) ::
              s.workers[v].job.id != s.workers[w].job.id
    ensures forall v, w | v in s.workers && w in s.workers && v != w
                          && s.workers[v].Selected? && s.workers[w].Selected? ::
              s.workers[v].id != s.workers[w].id
    ensures forall id | id in s.locks :: id in s.jobs && s.jobs[id].status.Pending?
  {
    ReachableInv(c, s);
    forall w | w in s.workers && InFlight(s.workers[w])
      ensures var j := s.workers[w].job;
              && j.id in s.jobs && s.jobs[j.id] == j && j.status.Running? && j.attempt >= 1
              && j.id !in s.locks
    {
      assert OwnsRow(c, s, s.workers[w]) && RowOk(c.skew, s.clock, s.workers[w].job);
    }
    forall v, w | v in s.workers && w in s.workers && v != w
                  && InFlight(s.workers[v]) && InFlight(s.workers[w])
      ensures s.workers[v].job.id != s.workers[w].job.id
    {
      assert HeldBy(s, s.workers[v].job.id, v) && HeldBy(s, s.workers[w].job.id, w);
    }
  }

  // Each attempt is claimed once and ends at most once: the claims of a job are logged as
  // 1, 2, ..., attempt, its endings as a prefix of that, and attempt never exceeds max_attempts.
  lemma NoAttemptRunsTwice(c: Config, s: State, id: Id)
    requires Reachable(c, s)
    ensures Claims(s.log, id) == UpTo(Attempts(s, id))
    ensures Ends(s.log, id) <= Claims(s.log, id)
    ensures id in s.jobs ==> |Claims(s.log, id)| <= s.jobs[id].maxAttempts
  {
    ReachableInv(c, s);
    assert Ends(s.log, id) == UpTo(|Endings(s.log, id)|);
    if id in s.jobs {
      assert OutcomesMatchRow(s.jobs[id], Endings(s.log, id));
      assert RowOk(c.skew, s.clock, s.jobs[id]);
    }
  }

  // Under any interleaving, lost replies and crashes included: a row that is not running says how its
  // executions went. All its attempts have ended; it is completed exactly if one of them succeeded, and
  // then the last; failed exactly if all max_attempts failed; and its error is the message of the last.
  lemma StatusFollowsOutcomes(c: Config, s: State, id: Id)
    requires Reachable(c, s) && id in s.jobs && !s.jobs[id].status.Running?
    ensures var j, q := s.jobs[id], Endings(s.log, id);
            && |q| == j.attempt && Ends(s.log, id) == UpTo(j.attempt)
            && Failures(q, j.attempt - 1)
            && (j.status.Completed? <==> exists k :: 0 <= k < |q| && q[k].outcome.Success?)
            && (j.status.Failed? <==> |q| == j.maxAttempts && Failures(q, j.maxAttempts))
            && (!j.status.Completed? && q != [] ==>
                  q[|q| - 1].outcome.Failure? && j.error == Some(q[|q| - 1].outcome.message))
  {
    EndedRow(c, s, id);
    AtRest(s.jobs[id], Endings(s.log, id));
  }

  lemma EndedRow(c: Config, s: State, id: Id)
    requires Reachable(c, s) && id in s.jobs
    ensures var j, q := s.jobs[id], Endings(s.log, id);
            && OutcomesMatchRow(j, q) && Ends(s.log, id) == UpTo(|q|)
            && (j.status.Pending? ==> j.attempt < j.maxAttempts)
            && (j.status.Failed? ==> j.attempt == j.maxAttempts)
            && (!j.status.Pending? ==> j.attempt >= 1)
  {
    ReachableInv(c, s);
    assert OutcomesMatchRow(s.jobs[id], Endings(s.log, id)) && RowOk(c.skew, s.clock, s.jobs[id]);
    assert Ends(s.log, id) == UpTo(|Endings(s.log, id)|);
  }

  lemma AtRest(j: Job, q: seq<Ending>)
    requires OutcomesMatchRow(j, q) && !j.status.Running? && (!j.status.Pending? ==> j.attempt >= 1)
    requires (j.status.Pending? ==> j.attempt < j.maxAttempts) && (j.status.Failed? ==> j.attempt == j.maxAttempts)
    ensures |q| == j.attempt && Failures(q, j.attempt - 1)
    ensures j.status.Completed? <==> exists k :: 0 <= k < |q| && q[k].outcome.Success?
    ensures j.status.Failed? <==> |q| == j.maxAttempts && Failures(q, j.maxAttempts)
    ensures !j.status.Completed? && q != [] ==>
              q[|q| - 1].outcome.Failure? && j.error == Some(q[|q| - 1].outcome.message)
  {
    if j.status.Completed? {
      assert q[|q| - 1].outcome.Success?;
    }
  }

  // A running row has failed in all its earlier attempts; its own has ended only if its worker is about to
  // write the outcome, or was lost before it could.
  lemma RunningAfterFailures(c: Config, s: State, id: Id)
    requires Reachable(c, s) && id in s.jobs && s.jobs[id].status.Running?
    ensures var j, q := s.jobs[id], Endings(s.log, id);
            && 1 <= j.attempt && j.attempt - 1 <= |q| <= j.attempt && Failures(q, j.attempt - 1)
            && (|q| == j.attempt && id !in s.stranded ==>
                  exists w :: HeldBy(s, id, w) && s.workers[w].Finishing?
                              && Ending(s.workers[w].outcome, s.workers[w].now) == q[j.attempt - 1])
  {
    EndedRow(c, s, id);
    ReachableInv(c, s);
    var j, q := s.jobs[id], Endings(s.log, id);
    if id !in s.stranded {
      var w :| HeldBy(s, id, w);
      assert OwnsRow(c, s, s.workers[w]) && OutcomesMatchWorker(s.workers[w], q);
    }
  }

  // When the job was claimed last, as NOW() stood.
  ghost function LastClaim(log: seq<Event>, id: Id): Option<Time> {
    if log == [] then None else
      var e := log[|log| - 1];
      if e.Claimed? && e.id == id then Some(e.at) else LastClaim(log[..|log| - 1], id)
  }

  lemma LastClaimAppend(log: seq<Event>, e: Event, id: Id)
    ensures LastClaim(log + [e], id) == if e.Claimed? && e.id == id then Some(e.at) else LastClaim(log, id)
  {
    assert (log + [e])[..|log|] == log;
  }

  lemma {:induction false} StartedAtLastClaim(c: Config, r: Run, i: nat, id: Id)
    requires IsRun(c, r) && i < |r.states|
    ensures LastClaim(r.states[i].log, id)
            == if id in r.states[i].jobs then r.states[i].jobs[id].startedAt else None
  {
    if i > 0 {
      StartedAtLastClaim(c, r, i - 1, id);
      RunInv(c, r, i - 1);
      assert StepAt(c, r, i - 1);
      StartedStep(c, r.states[i - 1], r.steps[i - 1], id);
    }
  }

  lemma StartedStep(c: Config, s: State, a: Step, id: Id)
    requires Rows(c, s) && Ownership(c, s) && Enabled(c, s, a)
    requires LastClaim(s.log, id) == if id in s.jobs then s.jobs[id].startedAt else None
    ensures var s' := Apply(c, s, a);
            LastClaim(s'.log, id) == if id in s'.jobs then s'.jobs[id].startedAt else None
  {
    var s' := Apply(c, s, a);
    if s'.log != s.log {
      LastClaimAppend(s.log, s'.log[|s.log|], id);
    }
    StepRefinesLifecycle(c, s, a, id);
  }

  // The times of a row are those of its events: it was started at its last claim, completed when its
  // executor returned, and it runs from its creation on or 10 * 2^k seconds after its k-th failure.
  lemma RowTimes(c: Config, r: Run, i: nat, id: Id)
    requires IsRun(c, r) && i < |r.states| && id in r.states[i].jobs
    ensures var s := r.states[i];
            var j, q := s.jobs[id], Endings(s.log, id);
            var n := if j.status.Pending? then j.attempt else j.attempt - 1;
            && j.startedAt == LastClaim(s.log, id)
            && (j.status.Completed? ==> q != [] && j.completedAt == Some(q[|q| - 1].now))
            && (n == 0 ==> j.runAt == j.createdAt)
            && (1 <= n <= 29 ==> n <= |q| && j.runAt == q[n - 1].now + 10 * Pow2(n) * 1_000_000_000)
  {
    StartedAtLastClaim(c, r, i, id);
    var s := r.states[i];
    assert s in r.states;
    EndedRow(c, s, id);
    ScheduledAt(s.jobs[id], Endings(s.log, id));
  }

  lemma ScheduledAt(j: Job, q: seq<Ending>)
    requires RunsAfter(j, q)
    ensures var n := if j.status.Pending? then j.attempt else j.attempt - 1;
            && (n == 0 ==> j.runAt == j.createdAt)
            && (1 <= n <= 29 ==> n <= |q| && j.runAt == q[n - 1].now + 10 * Pow2(n) * 1_000_000_000)
  {
    if 1 <= Retries(j) {
      DelayExactIff(Retries(j));
    }
  }

  // A new row, column by column.
  lemma CreatedRow(c: Config, r: Run, i: nat)
    requires IsRun(c, r) && i < |r.steps| && r.steps[i].Create?
    ensures var s, a := r.states[i], r.steps[i];
            && a.id in r.states[i + 1].jobs
            && r.states[i + 1].jobs[a.id] == Job(a.id, a.tenant, a.jobType, a.payload, Pending, 0, a.maxAttempts,
                                                 None, s.clock, None, None, s.clock)
  {
    assert StepAt(c, r, i);
  }

  // ---------- Rows over time ----------

  lemma {:induction false} RowsPersist(c: Config, r: Run, i: nat, j: nat, id: Id)
    requires IsRun(c, r) && i <= j < |r.states| && id in r.states[i].jobs
    ensures id in r.states[j].jobs
    ensures SameIdentity(r.states[i].jobs[id], r.states[j].jobs[id])
    ensures r.states[i].jobs[id].attempt <= r.states[j].jobs[id].attempt
  {
    if i < j {
      RowsPersist(c, r, i, j - 1, id);
      RunRefinesLifecycle(c, r, j - 1, id);
    }
  }

  // Completed and failed rows never change again.
  lemma {:induction false} EndsAreAbsorbing(c: Config, r: Run, i: nat, j: nat, id: Id)
    requires IsRun(c, r) && i <= j < |r.states| && id in r.states[i].jobs
    requires r.states[i].jobs[id].status.Completed? || r.states[i].jobs[id].status.Failed?
    ensures id in r.states[j].jobs && r.states[j].jobs[id] == r.states[i].jobs[id]
  {
    if i < j {
      EndsAreAbsorbing(c, r, i, j - 1, id);
      RunRefinesLifecycle(c, r, j - 1, id);
    }
  }

  // A stranded job stays running for ever: nothing takes it back.
  lemma {:induction false} StrandedForEver(c: Config, r: Run, i: nat, j: nat, id: Id)
    requires IsRun(c, r) && i <= j < |r.states| && id in r.states[i].stranded
    ensures id in r.states[j].stranded && Row(r.states[j], id) == Row(r.states[i], id)
    ensures id in r.states[j].jobs && r.states[j].jobs[id].status.Running?
  {
    if i < j {
      StrandedForEver(c, r, i, j - 1, id);
      StrandedRunStep(c, r, j - 1, id);
    } else {
      RunInv(c, r, i);
    }
  }

  lemma StrandedRunStep(c: Config, r: Run, i: nat, id: Id)
    requires IsRun(c, r) && i < |r.steps| && id in r.states[i].stranded
    ensures id in r.states[i + 1].stranded && Row(r.states[i + 1], id) == Row(r.states[i], id)
  {
    RunInv(c, r, i);
    assert StepAt(c, r, i);
    StepRefinesLifecycle(c, r.states[i], r.steps[i], id);
    NobodyMovesStranded(c, r.states[i], r.steps[i], id);
  }

  lemma NobodyMovesStranded(c: Config, s: State, a: Step, id: Id)
    requires Ownership(c, s) && Enabled(c, s, a) && id in s.stranded
    ensures id in Apply(c, s, a).stranded && MoveOf(s, a, id).None?
  {
    if a.Update? {
      assert OwnsRow(c, s, s.workers[a.w]);
    }
  }

  // The columns of a reachable row agree with its status, and under one clock a completed row has its
  // four times in order, after any number of attempts: the delays that come out negative are too small
  // to undo the ones before them.
  lemma RowCoherence(c: Config, s: State, id: Id)
    requires Reachable(c, s) && id in s.jobs
    ensures var j := s.jobs[id];
            && (j.completedAt.Some? <==> j.status.Completed?)
            && (j.startedAt.Some? <==> j.attempt >= 1)
            && (j.error.Some? <==> || j.status.Failed?
                                   || (j.status.Pending? && j.attempt >= 1)
                                   || (j.status.Running? && j.attempt >= 2))
            && (j.status.Pending? ==> j.attempt < j.maxAttempts)
            && (j.status.Failed? ==> j.attempt == j.maxAttempts)
            && (j.status.Completed? ==> 1 <= j.attempt <= j.maxAttempts)
    ensures var j := s.jobs[id];
            c.skew == 0 && j.status.Completed? ==>
              j.createdAt <= j.runAt <= j.startedAt.value <= j.completedAt.value
  {
    ReachableInv(c, s);
    var j := s.jobs[id];
    assert RowOk(c.skew, s.clock, j);
  }

  // ---------- Backoff over whole runs ----------

  // The n-th claim of a job comes no earlier than 20 * (2^(n-1) - 1) seconds after its creation, less
  // the clock skew once per failure; a pending row already carries the bound of its next claim.
  lemma BackoffOverRuns(c: Config, s: State)
    requires Reachable(c, s)
    ensures forall i | 0 <= i < |s.log| && s.log[i].Claimed? && s.log[i].attempt <= LAST_EXACT + 1 ::
              var e := s.log[i];
              && e.id in s.jobs && e.attempt >= 1
              && e.at >= s.jobs[e.id].createdAt + 20 * (Pow2(e.attempt - 1) - 1) * SECOND - (e.attempt - 1) * c.skew
    ensures forall id | id in s.jobs && s.jobs[id].status.Pending? && s.jobs[id].attempt <= LAST_EXACT ::
              var j := s.jobs[id];
              j.runAt >= j.createdAt + 20 * (Pow2(j.attempt) - 1) * SECOND - j.attempt * c.skew
  {
    ReachableInv(c, s);
    forall i | 0 <= i < |s.log| && s.log[i].Claimed? && s.log[i].attempt <= LAST_EXACT + 1
      ensures var e := s.log[i];
              && e.id in s.jobs && e.attempt >= 1
              && e.at >= s.jobs[e.id].createdAt + 20 * (Pow2(e.attempt - 1) - 1) * SECOND - (e.attempt - 1) * c.skew
    {
      assert ClaimOk(c, s, s.log[i]);
    }
    forall id | id in s.jobs && s.jobs[id].status.Pending? && s.jobs[id].attempt <= LAST_EXACT
      ensures var j := s.jobs[id];
              j.runAt >= j.createdAt + 20 * (Pow2(j.attempt) - 1) * SECOND - j.attempt * c.skew
    {
      assert RowOk(c.skew, s.clock, s.jobs[id]);
    }
  }

  // ---------- The results table ----------

  // With inserts that either commit or fail, the results table mirrors the job statuses exactly.
  // With replies that may be lost it still covers every completed job, with at most one row per attempt.
  lemma ResultsAgreeWithStatus(c: Config, s: State, id: Id)
    requires Reachable(c, s) && id in s.jobs
    ensures var j, n := s.jobs[id], ResultsOf(s.executions, id);
            && n <= j.attempt
            && (j.jobType != CODE_JOB ==> n == 0)
            && (j.status.Completed? && j.jobType == CODE_JOB ==> n >= 1)
            && (!c.lossyInserts ==> n <= 1 && (j.status.Pending? || j.status.Failed? ==> n == 0))
    ensures s.jobs[id].status.Completed? ==> s.jobs[id].jobType in REGISTERED
    ensures forall i | 0 <= i < |s.executions| && s.executions[i].job == id ::
              s.executions[i].tenant == s.jobs[id].tenant
  {
    ReachableInv(c, s);
    assert ResultsMatchRow(c, s.jobs[id], ResultsOf(s.executions, id));
    if s.jobs[id].jobType != CODE_JOB {
      NoResults(s.executions, id);
    }
  }

  lemma {:induction false} SomeResult(executions: seq<Execution>, id: Id) returns (i: nat)
    requires ResultsOf(executions, id) >= 1
    ensures i < |executions| && executions[i].job == id
  {
    var last := |executions| - 1;
    if executions[last].job == id {
      i := last;
    } else {
      i := SomeResult(executions[..last], id);
    }
  }

  // A result is found under its job and the tenant of the job.
  ghost predicate HasExecution(s: State, id: Id, tenant: Id) {
    Execution(id, tenant) in s.executions
  }

  // Once GET /jobs/:id reports a code job completed, GET /code/executions/:job_id finds its result,
  // and finds it under no other tenant.
  lemma CompletedJobHasResult(c: Config, s: State, id: Id, tenant: Id)
    requires Reachable(c, s) && id in s.jobs && s.jobs[id].status.Completed? && s.jobs[id].jobType == CODE_JOB
    ensures HasExecution(s, id, tenant) <==> tenant == s.jobs[id].tenant
  {
    ResultsAgreeWithStatus(c, s, id);
    var i := SomeResult(s.executions, id);
    assert s.executions[i] == Execution(id, s.jobs[id].tenant);
  }

  lemma {:induction false} ResultsOnlyGrow(c: Config, r: Run, i: nat, j: nat, id: Id)
    requires IsRun(c, r) && i <= j < |r.states|
    ensures ResultsOf(r.states[i].executions, id) <= ResultsOf(r.states[j].executions, id)
  {
    if i < j {
      ResultsOnlyGrow(c, r, i, j - 1, id);
      assert StepAt(c, r, j - 1);
      var s, a := r.states[j - 1], r.steps[j - 1];
      if a.InsertResult? {
        ResultsAppend(s.executions, Execution(s.workers[a.w].job.id, s.workers[a.w].job.tenant));
      }
    }
  }

  // Without lost insert replies, a job whose result has been written is never claimed again.
  lemma {:induction false} NeverRerunAfterResult(c: Config, r: Run, i: nat, j: nat, id: Id)
    requires IsRun(c, r) && !c.lossyInserts && i <= j < |r.states|
    requires ResultsOf(r.states[i].executions, id) >= 1
    ensures id in r.states[j].jobs && !r.states[j].jobs[id].status.Pending?
    ensures Claims(r.states[j].log, id) == Claims(r.states[i].log, id)
  {
    WrittenMeansNotPending(c, r, i, id);
    if i < j {
      NeverRerunAfterResult(c, r, i, j - 1, id);
      ResultsOnlyGrow(c, r, i, j - 1, id);
      WrittenMeansNotPending(c, r, j - 1, id);
      ResultsOnlyGrow(c, r, i, j, id);
      WrittenMeansNotPending(c, r, j, id);
      RunRefinesLifecycle(c, r, j - 1, id);
    }
  }

  lemma WrittenMeansNotPending(c: Config, r: Run, i: nat, id: Id)
    requires IsRun(c, r) && !c.lossyInserts && i < |r.states|
    requires ResultsOf(r.states[i].executions, id) >= 1
    ensures id in r.states[i].jobs && !r.states[i].jobs[id].status.Pending?
    ensures Claims(r.states[i].log, id) == UpTo(r.states[i].jobs[id].attempt)
  {
    RunInv(c, r, i);
    var s := r.states[i];
    var k := SomeResult(s.executions, id);
    assert ResultsMatchRow(c, s.jobs[id], ResultsOf(s.executions, id));
    assert Claims(s.log, id) == UpTo(Attempts(s, id));
  }

  // ---------- Conservation ----------

  ghost function WithStatus(s: State, status: Status): set<Id> {
    set id | id in s.jobs && s.jobs[id].status == status
  }

  ghost function Held(s: State): set<Id> {
    set w | w in s.workers && InFlight(s.workers[w]) :: s.workers[w].job.id
  }

  // Every created job is in exactly one place.
  lemma Conservation(c: Config, s: State)
    requires Reachable(c, s)
    ensures WithStatus(s, Running) == Held(s) + s.stranded && Held(s) !! s.stranded
    ensures |s.jobs| == |WithStatus(s, Pending)| + |Held(s)| + |s.stranded|
                        + |WithStatus(s, Completed)| + |WithStatus(s, Failed)|
  {
    ReachableInv(c, s);
    RunningIsHeldOrStranded(c, s);
    StatusesPartition(s);
  }

  lemma StatusesPartition(s: State)
    ensures |s.jobs| == |WithStatus(s, Pending)| + |WithStatus(s, Running)|
                        + |WithStatus(s, Completed)| + |WithStatus(s, Failed)|
  {
    var p, u, d, f := WithStatus(s, Pending), WithStatus(s, Running), WithStatus(s, Completed), WithStatus(s, Failed);
    forall id
      ensures id in s.jobs.Keys <==> id in p + u + d + f
    {
      assert id in s.jobs ==> id in WithStatus(s, s.jobs[id].status);
    }
    FourParts(s.jobs.Keys, p, u, d, f);
  }

  lemma FourParts(all: set<Id>, p: set<Id>, u: set<Id>, d: set<Id>, f: set<Id>)
    requires all == p + u + d + f
    requires p !! u && p !! d && p !! f && u !! d && u !! f && d !! f
    ensures |all| == |p| + |u| + |d| + |f|
  {
    assert |p + u| == |p| + |u|;
    assert |p + u + d| == |p + u| + |d|;
  }

  lemma RunningIsHeldOrStranded(c: Config, s: State)
    requires Ownership(c, s)
    ensures WithStatus(s, Running) == Held(s) + s.stranded && Held(s) !! s.stranded
  {
    forall id
      ensures id in WithStatus(s, Running) <==> id in Held(s) || id in s.stranded
      ensures !(id in Held(s) && id in s.stranded)
    {
      if id in s.jobs && s.jobs[id].status.Running? && id !in s.stranded {
        var w :| HeldBy(s, id, w);
        assert s.workers[w].job.id in Held(s);
      }
      if id in Held(s) {
        var w :| w in s.workers && InFlight(s.workers[w]) && s.workers[w].job.id == id;
        assert OwnsRow(c, s, s.workers[w]);
      }
    }
  }

  // The number of jobs is the number of Create steps so far.
  ghost function Creations(steps: seq<Step>): nat {
    if steps == [] then 0 else Creations(steps[..|steps| - 1]) + if steps[|steps| - 1].Create? then 1 else 0
  }

  lemma {:induction false} JobsAreCreations(c: Config, r: Run, i: nat)
    requires IsRun(c, r) && i < |r.states|
    ensures |r.states[i].jobs| == Creations(r.steps[..i])
  {
    if i > 0 {
      JobsAreCreations(c, r, i - 1);
      assert r.steps[..i][..i - 1] == r.steps[..i - 1];
      CreationCount(c, r, i - 1);
    }
  }

  lemma CreationCount(c: Config, r: Run, i: nat)
    requires IsRun(c, r) && i < |r.steps|
    ensures |r.states[i + 1].jobs| == |r.states[i].jobs| + if r.steps[i].Create? then 1 else 0
  {
    RunInv(c, r, i);
    assert StepAt(c, r, i);
    KeysAfter(c, r.states[i], r.steps[i]);
    assert |r.states[i].jobs| == |r.states[i].jobs.Keys| && |r.states[i + 1].jobs| == |r.states[i + 1].jobs.Keys|;
  }

  lemma KeysAfter(c: Config, s: State, a: Step)
    requires Ownership(c, s) && Enabled(c, s, a)
    ensures Apply(c, s, a).jobs.Keys == s.jobs.Keys + if a.Create? then {a.id} else {}
    ensures a.Create? ==> a.id !in s.jobs
  {
    if a.Update? {
      assert OwnsRow(c, s, s.workers[a.w]);
    }
  }

  ghost predicate FaultFree(r: Run, n: nat)
    requires n <= |r.steps| < |r.states|
  {
    forall i | 0 <= i < n :: !IsFault(r.states[i], r.steps[i])
  }

  // Every fault strands a job, and nothing else does.
  lemma {:induction false} StrandedIffFault(c: Config, r: Run, i: nat)
    requires IsRun(c, r) && i < |r.states|
    ensures r.states[i].stranded == {} <==> FaultFree(r, i)
  {
    if i > 0 {
      StrandedIffFault(c, r, i - 1);
      assert StepAt(c, r, i - 1);
      var s, a := r.states[i - 1], r.steps[i - 1];
      assert IsFault(s, a) ==> r.states[i].stranded != {};
      assert !IsFault(s, a) ==> r.states[i].stranded == s.stranded;
    }
  }

  // Once no worker is busy, no job is running exactly if the run had no fault.
  lemma IdleNoneRunningIffNoFault(c: Config, r: Run, i: nat)
    requires IsRun(c, r) && i < |r.states|
    requires forall w | w in r.states[i].workers :: !InFlight(r.states[i].workers[w])
    ensures (forall id | id in r.states[i].jobs :: !r.states[i].jobs[id].status.Running?) <==> FaultFree(r, i)
  {
    var s := r.states[i];
    StrandedIffFault(c, r, i);
    RunInv(c, r, i);
    assert forall id, w :: !HeldBy(s, id, w);
    if s.stranded != {} {
      var id :| id in s.stranded;
      assert s.jobs[id].status.Running?;
    }
  }
}
