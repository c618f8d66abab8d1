/**
 The bound on overtaking holds for clocks at most 20 seconds apart and at most
 30 attempts, and for no others: beyond either there is a run that breaks it.
 */
module OvertakingLimits {
  import opened Prelude
  import opened Backoff
  import opened Jobs
  import opened Queue
  import opened QueueInvariant
  import opened QueueRuns
  import opened Overtaking
  import opened Scenarios

  // However a run goes on while a job waits, no more claims pass it than there were contenders at first.
  ghost predicate Bounded(c: Config, limit: int) {
    forall r: Run, i: nat, j: nat, id: Id |
      IsRun(c, r) && i <= j < |r.states| && WaitsThroughout(r, i, j, id) && Within(r.states[j], limit) ::
      Waiting(r.states[i], id) && ClaimsBetween(r, i, j) <= Contenders(r.states[i], id)
  }

  lemma OvertakingBoundIff(c: Config, limit: int)
    ensures Bounded(c, limit) <==> limit <= 1 || (c.skew <= 20 * SECOND && limit <= 30)
  {
    if limit <= 1 || (c.skew <= 20 * SECOND && limit <= 30) {
      forall r: Run, i: nat, j: nat, id: Id |
        IsRun(c, r) && i <= j < |r.states| && WaitsThroughout(r, i, j, id) && Within(r.states[j], limit)
        ensures Waiting(r.states[i], id) && ClaimsBetween(r, i, j) <= Contenders(r.states[i], id)
      {
        BoundedOvertaking(c, r, i, j, id);
      }
    } else {
      var r, i, j := Unbounded(c, limit);
      assert Waiting(r.states[i], 1);
    }
  }

  // ---------- Runs that break the bound ----------

  lemma Unbounded(c: Config, limit: int) returns (r: Run, i: nat, j: nat)
    requires limit >= 2 && (c.skew > 20 * SECOND || limit > 30)
    ensures Overtaken(c, r, i, j) && Within(r.states[j], limit)
  {
    DelayDoubles(1);
    DelayIsTwenty();
    DelayOverflows();
    if c.skew > 20 * SECOND {
      r := FirstAttempt(c, EMAIL_JOB, 2);
      r, i, j := RetriedFirst(c, r, 1, 2, Last(r).clock + 1 - c.skew);
    } else {
      r := KthAttempt(c, 30, EMAIL_JOB, 31);
      r, i, j := RetriedFirst(c, r, 30, 31, Last(r).clock + 1);
    }
  }

  lemma DelayIsTwenty()
    ensures Delay(1) == 20 * SECOND
  {
    DelayExactIff(1);
  }

  // Job 1 waits from i to j without a contender and is passed nevertheless.
  ghost predicate Overtaken(c: Config, r: Run, i: nat, j: nat) {
    && IsRun(c, r) && i <= j < |r.states| && WaitsThroughout(r, i, j, 1) && Waiting(r.states[i], 1)
    && ClaimsBetween(r, i, j) > Contenders(r.states[i], 1)
  }

  // Job 1 is created while attempt k of job 0 runs, and is due a moment later, with no contender.
  ghost predicate SecondDue(s: State, k: nat, maxAttempts: int) {
    && s.locks == map[] && s.jobs.Keys == {0, 1} && s.workers == map[0 := Executing(s.jobs[0], false)]
    && s.jobs[0].id == 0 && s.jobs[0].status.Running?
    && s.jobs[0].attempt == k && s.jobs[0].maxAttempts == s.jobs[1].maxAttempts == maxAttempts
    && s.jobs[1].status.Pending? && s.jobs[1].runAt == s.clock - 1
  }

  lemma SecondWaits(c: Config, r: Run, k: nat, maxAttempts: int) returns (longer: Run)
    requires IsRun(c, r) && Alone(Last(r), k, EMAIL_JOB, maxAttempts) && 1 <= maxAttempts <= INT32_MAX
    ensures IsRun(c, longer) && SecondDue(Last(longer), k, maxAttempts) && Last(longer).clock == Last(r).clock + 1
  {
    longer := Extend(c, r, Create(1, 0, EMAIL_JOB, map[], maxAttempts));
    longer := Extend(c, longer, Tick(Last(r).clock + 1));
  }

  lemma NoContenders(s: State, k: nat, maxAttempts: int)
    requires SecondDue(s, k, maxAttempts)
    ensures Waiting(s, 1) && Contenders(s, 1) == 0
  {
    assert Ahead(s, 1) == {};
    assert Selecting(s) == {};
    assert Late(s, 1) == {};
  }

  // The attempt fails, its retry is dated before job 1, and job 0 is claimed again.
  lemma RetryIsClaimed(c: Config, due: Run, k: nat, maxAttempts: int, now: Time) returns (longer: Run)
    requires IsRun(c, due) && SecondDue(Last(due), k, maxAttempts) && k < maxAttempts
    requires Near(c, Last(due).clock, now) && now + Delay(k) < Last(due).clock
    ensures IsRun(c, longer) && Prolongs(due, longer) && |longer.steps| == |due.steps| + 4
    ensures longer.steps[|due.steps| + 3].CommitClaim? && Within(Last(longer), maxAttempts)
    ensures WaitsThroughout(longer, |due.steps|, |due.steps| + 4, 1)
  {
    var failed := Fails(c, due, now);
    longer := ClaimsJob(c, failed);
    forall m | |due.steps| <= m <= |due.steps| + 4
      ensures Waiting(longer.states[m], 1)
    {
      assert m <= |due.steps| + 2 ==> longer.states[m] == failed.states[m];
    }
  }

  lemma RetriedFirst(c: Config, r: Run, k: nat, maxAttempts: int, now: Time) returns (longer: Run, i: nat, j: nat)
    requires IsRun(c, r) && Alone(Last(r), k, EMAIL_JOB, maxAttempts) && k < maxAttempts <= INT32_MAX
    requires Near(c, Last(r).clock + 1, now) && now + Delay(k) <= Last(r).clock
    ensures Overtaken(c, longer, i, j) && Within(longer.states[j], maxAttempts)
  {
    var due := SecondWaits(c, r, k, maxAttempts);
    NoContenders(Last(due), k, maxAttempts);
    i, j := |due.steps|, |due.steps| + 4;
    longer := RetryIsClaimed(c, due, k, maxAttempts, now);
    OneClaim(longer, i);
  }

  lemma OneClaim(r: Run, i: nat)
    requires |r.steps| == i + 4 && r.steps[i + 3].CommitClaim?
    ensures ClaimsBetween(r, i, i + 4) >= 1
  {
  }
}
