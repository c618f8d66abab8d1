/**
 Building blocks of concrete runs: one worker and one job, attempt after
 attempt, each retry claimed the moment it is due.
 */
module Scenarios {
  import opened Prelude
  import opened Backoff
  import opened Jobs
  import opened Queue
  import opened QueueInvariant
  import opened QueueRuns

  ghost predicate Within(s: State, limit: int) {
    forall id | id in s.jobs :: s.jobs[id].maxAttempts <= limit
  }

  // The only worker executes attempt k of the only job, which it has just claimed.
  ghost predicate Alone(s: State, k: nat, jobType: string, maxAttempts: int) {
    && s.locks == map[] && s.jobs.Keys == {0} && s.jobs[0].status.Running?
    && s.jobs[0].id == 0 && s.jobs[0].attempt == k && s.jobs[0].maxAttempts == maxAttempts
    && s.jobs[0].jobType == jobType && s.jobs[0].createdAt == 0
    && s.workers == map[0 := Executing(s.jobs[0], false)]
    && s.log != [] && s.log[|s.log| - 1] == Claimed(0, k, s.clock)
  }

  lemma FirstAttempt(c: Config, jobType: string, maxAttempts: int) returns (r: Run)
    requires 1 <= maxAttempts <= INT32_MAX
    ensures IsRun(c, r) && Alone(Last(r), 1, jobType, maxAttempts) && Last(r).clock == 0
  {
    r := Trace([State(0, map[], map[], map[0 := Idle], [], [], {})], []);
    r := Extend(c, r, Create(0, 0, jobType, map[], maxAttempts));
    r := Extend(c, r, Select(0, 0));
    r := Extend(c, r, CommitClaim(0));
  }

  // The longer run begins with the states of the shorter.
  ghost predicate Prolongs(r: Run, longer: Run) {
    |r.states| <= |longer.states| && forall k | 0 <= k < |r.states| :: longer.states[k] == r.states[k]
  }

  // The attempt fails. If it has inserted its result, the reply to the insert was lost.
  lemma Fails(c: Config, r: Run, now: Time) returns (longer: Run)
    requires IsRun(c, r) && 0 in Last(r).workers && Last(r).workers[0].Executing?
    requires Near(c, Last(r).clock, now) && (Last(r).workers[0].inserted ==> c.lossyInserts)
    ensures IsRun(c, longer) && longer.steps == r.steps + [ExecFail(0, now, ""), Update(0)]
    ensures Prolongs(r, longer) && |longer.states| == |r.states| + 2
    ensures var s, s', job := Last(r), Last(longer), Last(r).workers[0].job;
            && longer.states[|r.states|].jobs == s.jobs
            && longer.states[|r.states|].locks == s'.locks == s.locks
            && longer.states[|r.states|].clock == s'.clock == s.clock
            && s'.jobs == UpdateTable(s.jobs, FinishParams(job, Failure(""), now))
            && s'.workers == s.workers[0 := Idle]
  {
    longer := Extend(c, r, ExecFail(0, now, ""));
    longer := Extend(c, longer, Update(0));
  }

  lemma ClaimsJob(c: Config, r: Run) returns (longer: Run)
    requires IsRun(c, r) && 0 in Last(r).workers && Last(r).workers[0].Idle? && FirstClaimable(Last(r), 0)
    ensures IsRun(c, longer) && longer.steps == r.steps + [Select(0, 0), CommitClaim(0)]
    ensures Prolongs(r, longer) && |longer.states| == |r.states| + 2
    ensures var s, s' := Last(r), Last(longer);
            var job := ClaimedRow(s.jobs[0], s.clock);
            && longer.states[|r.states|].jobs == s.jobs
            && longer.states[|r.states|].locks == s.locks[0 := 0] && s'.locks == s.locks
            && longer.states[|r.states|].clock == s'.clock == s.clock
            && s'.jobs == s.jobs[0 := job] && s'.workers == s.workers[0 := Executing(job, false)]
            && s'.log == s.log + [Claimed(0, job.attempt, s.clock)]
  {
    longer := Extend(c, r, Select(0, 0));
    longer := Extend(c, longer, CommitClaim(0));
    assert Last(longer).locks == Last(r).locks;
  }

  // The attempt fails under an exact clock, and its retry is claimed as soon as it is due.
  lemma NextAttempt(c: Config, r: Run, k: nat, jobType: string, maxAttempts: int) returns (longer: Run)
    requires IsRun(c, r) && Alone(Last(r), k, jobType, maxAttempts) && k < maxAttempts
    ensures IsRun(c, longer) && Prolongs(r, longer) && Alone(Last(longer), k + 1, jobType, maxAttempts)
    ensures Last(longer).clock == Last(r).clock + if Delay(k) > 0 then Delay(k) else 0
  {
    longer := Fails(c, r, Last(r).clock);
    var s := Last(longer);
    longer := Extend(c, longer, Tick(if s.clock < s.jobs[0].runAt then s.jobs[0].runAt else s.clock));
    longer := ClaimsJob(c, longer);
  }

  // Up to attempt 30 the claims fall on the instants the backoff formula names.
  lemma {:induction false} KthAttempt(c: Config, k: nat, jobType: string, maxAttempts: int) returns (r: Run)
    requires 1 <= k <= maxAttempts <= INT32_MAX
    ensures IsRun(c, r) && Alone(Last(r), k, jobType, maxAttempts)
    ensures k <= LAST_EXACT + 1 ==> Last(r).clock == Floor(k - 1)
  {
    if k == 1 {
      r := FirstAttempt(c, jobType, maxAttempts);
    } else {
      r := KthAttempt(c, k - 1, jobType, maxAttempts);
      r := NextAttempt(c, r, k - 1, jobType, maxAttempts);
      if k - 1 <= LAST_EXACT {
        DelayExactIff(k - 1);
        DelayDoubles(k - 1);
        FloorStep(k - 1);
      }
    }
  }
}
