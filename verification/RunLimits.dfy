/**
 Guarantees over runs that hold under a condition, and for no weaker one:
 each comes with a run that breaks it when the condition fails.
 */
module RunLimits {
  import opened Prelude
  import opened Backoff
  import opened Jobs
  import opened Lifecycle
  import opened Queue
  import opened QueueInvariant
  import opened QueueRuns
  import opened Scenarios

  // ---------- Re-execution after a result has been written ----------

  // No run claims a job again once its result has been written.
  ghost predicate NeverReruns(c: Config) {
    forall r: Run, i: nat, j: nat, id: Id |
      IsRun(c, r) && i <= j < |r.states| && ResultsOf(r.states[i].executions, id) >= 1 ::
      Claims(r.states[j].log, id) == Claims(r.states[i].log, id)
  }

  lemma NeverRerunsIff(c: Config)
    ensures NeverReruns(c) <==> !c.lossyInserts
  {
    if c.lossyInserts {
      var r, i, j := RerunAfterResult(c);
      assert |Claims(r.states[j].log, 0)| != |Claims(r.states[i].log, 0)|;
    } else {
      forall r: Run, i: nat, j: nat, id: Id |
        IsRun(c, r) && i <= j < |r.states| && ResultsOf(r.states[i].executions, id) >= 1
        ensures Claims(r.states[j].log, id) == Claims(r.states[i].log, id)
      {
        NeverRerunAfterResult(c, r, i, j, id);
      }
    }
  }

  // The insert commits, its reply is lost, the attempt counts as failed, and the job is claimed once more.
  lemma RerunAfterResult(c: Config) returns (r: Run, i: nat, j: nat)
    requires c.lossyInserts
    ensures IsRun(c, r) && i <= j < |r.states| && ResultsOf(r.states[i].executions, 0) >= 1
    ensures |Claims(r.states[i].log, 0)| == 1 && |Claims(r.states[j].log, 0)| == 2
  {
    var inserted := InsertedRun(c);
    i := |inserted.steps|;
    r := RetriedRun(c, inserted);
    j := |r.steps|;
    ClaimsAreAttempts(c, r, i, 0);
    ClaimsAreAttempts(c, r, j, 0);
  }

  lemma InsertedRun(c: Config) returns (r: Run)
    ensures IsRun(c, r) && ResultsOf(Last(r).executions, 0) >= 1
    ensures var s := Last(r);
            && s.jobs.Keys == {0} && s.jobs[0].id == 0 && s.jobs[0].attempt == 1 && s.jobs[0].maxAttempts == 2
            && s.locks == map[] && s.workers == map[0 := Executing(s.jobs[0], true)]
  {
    var first := FirstAttempt(c, CODE_JOB, 2);
    r := Extend(c, first, InsertResult(0));
    ResultsAppend(Last(first).executions, Execution(0, Last(first).jobs[0].tenant));
  }

  lemma RetriedRun(c: Config, r: Run) returns (longer: Run)
    requires c.lossyInserts && IsRun(c, r)
    requires var s := Last(r);
             && s.jobs.Keys == {0} && s.jobs[0].id == 0 && s.jobs[0].attempt == 1 && s.jobs[0].maxAttempts == 2
             && s.locks == map[] && s.workers == map[0 := Executing(s.jobs[0], true)]
    ensures IsRun(c, longer) && Prolongs(r, longer)
    ensures 0 in Last(longer).jobs && Last(longer).jobs[0].attempt == 2
  {
    longer := Fails(c, r, Last(r).clock);
    var s := Last(longer);
    longer := Extend(c, longer, Tick(if s.clock < s.jobs[0].runAt then s.jobs[0].runAt else s.clock));
    longer := ClaimsJob(c, longer);
  }

  lemma ClaimsAreAttempts(c: Config, r: Run, i: nat, id: Id)
    requires IsRun(c, r) && i < |r.states|
    ensures |Claims(r.states[i].log, id)| == Attempts(r.states[i], id)
  {
    RunInv(c, r, i);
    assert Claims(r.states[i].log, id) == UpTo(Attempts(r.states[i], id));
  }

  // ---------- The backoff of the n-th claim ----------

  // No claim comes earlier than 20 * (2^(n-1) - 1) seconds after the creation, less the skew per failure.
  ghost predicate BacksOff(c: Config, s: State) {
    forall i | 0 <= i < |s.log| && s.log[i].Claimed? :: ClaimBacksOff(c, s, s.log[i])
  }

  ghost predicate ClaimBacksOff(c: Config, s: State, e: Event)
    requires e.Claimed?
  {
    && e.id in s.jobs && e.attempt >= 1
    && e.at >= s.jobs[e.id].createdAt + 20 * (Pow2(e.attempt - 1) - 1) * SECOND - (e.attempt - 1) * c.skew
  }

  // All runs with at most `limit` attempts keep that bound, for clocks less than eleven years apart, if and
  // only if the limit is at most 30.
  lemma BacksOffIff(c: Config, limit: int)
    requires 3 * c.skew < 0x4000_0000 * SECOND
    ensures (forall r: Run, i: nat | IsRun(c, r) && i < |r.states| && Within(r.states[i], limit) ::
               BacksOff(c, r.states[i])) <==> limit <= 30
  {
    if limit <= 30 {
      forall r: Run, i: nat | IsRun(c, r) && i < |r.states| && Within(r.states[i], limit)
        ensures BacksOff(c, r.states[i])
      {
        WithinBacksOff(c, r, i, limit);
      }
    } else {
      var r := EarlyClaim(c);
      assert !BacksOff(c, r.states[|r.steps|]);
    }
  }

  lemma WithinBacksOff(c: Config, r: Run, i: nat, limit: int)
    requires IsRun(c, r) && i < |r.states| && Within(r.states[i], limit) && limit <= 30
    ensures BacksOff(c, r.states[i])
  {
    var s := r.states[i];
    RunInv(c, r, i);
    assert s in r.states;
    BackoffOverRuns(c, s);
    forall k | 0 <= k < |s.log| && s.log[k].Claimed?
      ensures ClaimBacksOff(c, s, s.log[k])
    {
      assert ClaimOk(c, s, s.log[k]) && RowOk(c.skew, s.clock, s.jobs[s.log[k].id]);
    }
  }

  // Thirty retries claimed the moment they are due; the last one is due at once.
  lemma EarlyClaim(c: Config) returns (r: Run)
    requires 3 * c.skew < 0x4000_0000 * SECOND
    ensures IsRun(c, r) && Within(Last(r), 31) && !BacksOff(c, Last(r))
  {
    r := KthAttempt(c, 30, EMAIL_JOB, 31);
    DelayOverflows();
    r := NextAttempt(c, r, 30, EMAIL_JOB, 31);
    FloorOfExact();
    Pow2Table();
    var s := Last(r);
    assert !ClaimBacksOff(c, s, s.log[|s.log| - 1]);
  }
}
