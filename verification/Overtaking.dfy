/**
 Fairness of ORDER BY run_at: how many claims can pass a job that is waiting
 for its turn. The bound is known when the wait begins.
 */
module Overtaking {
  import opened Prelude
  import opened Backoff
  import opened Jobs
  import opened Lifecycle
  import opened Queue
  import opened QueueInvariant
  import opened QueueRuns

  // The clock is past the run_at of a pending job, and no claim has locked it.
  ghost predicate Waiting(s: State, id: Id) {
    id in s.jobs && s.jobs[id].status.Pending? && id !in s.locks && s.jobs[id].runAt < s.clock
  }

  // The unlocked pending jobs that ORDER BY run_at may put before it.
  ghost function Ahead(s: State, id: Id): set<Id>
    requires id in s.jobs
  {
    set other | other in s.jobs && other != id && other !in s.locks && s.jobs[other].status.Pending?
                && s.jobs[other].runAt <= s.jobs[id].runAt
  }

  // The workers that have locked a row and may still claim it.
  ghost function Selecting(s: State): set<Wid> {
    set w | w in s.workers && s.workers[w].Selected?
  }

  // The workers about to write a retry whose run_at lies before the waiting job's.
  ghost function Late(s: State, id: Id): set<Wid>
    requires id in s.jobs
  {
    set w | w in s.workers && WritesLate(s.workers[w], s.jobs[id].runAt)
  }

  ghost predicate WritesLate(x: Worker, runAt: Time) {
    x.Finishing? && x.outcome.Failure? && x.job.attempt < x.job.maxAttempts && x.now + Delay(x.job.attempt) <= runAt
  }

  // All that can still come before the waiting job: no claim ahead of it comes from anywhere else.
  ghost function Contenders(s: State, id: Id): nat
    requires id in s.jobs
  {
    |Ahead(s, id)| + |Selecting(s)| + |Late(s, id)|
  }

  ghost predicate IsClaim(a: Step) {
    a.CommitClaim? || a.ClaimReplyLost?
  }

  ghost function One(b: bool): nat {
    if b then 1 else 0
  }

  // A worker's clock reading puts a retry before the waiting job.
  ghost predicate Joins(s: State, a: Step, id: Id)
    requires id in s.jobs
  {
    && a.ExecFail? && a.w in s.workers && s.workers[a.w].Executing?
    && (var job := s.workers[a.w].job;
        job.attempt < job.maxAttempts && a.now + Delay(job.attempt) <= s.jobs[id].runAt)
  }

  // ---------- Steps ----------

  // A waiting job is touched by nothing but the claim that locks it.
  lemma WaitingRowKeeps(c: Config, s: State, a: Step, id: Id)
    requires Rows(c, s) && Ownership(c, s) && Enabled(c, s, a) && Waiting(s, id)
    ensures Row(Apply(c, s, a), id) == Row(s, id)
    ensures Waiting(Apply(c, s, a), id) || (a.Select? && a.id == id)
  {
    if a.Update? {
      assert OwnsRow(c, s, s.workers[a.w]);
    }
  }

  // A selection takes the waiting job itself or one of the jobs ahead of it, which then is not ahead any more.
  lemma SelectionShrinksAhead(c: Config, s: State, w: Wid, other: Id, id: Id)
    requires Waiting(s, id) && Enabled(c, s, Select(w, other)) && other != id
    ensures other in Ahead(s, id)
    ensures Ahead(Apply(c, s, Select(w, other)), id) == Ahead(s, id) - {other}
  {
    assert Claimable(s, id);
  }

  // The change of one worker changes the sets of workers by that worker alone.
  lemma WorkerSets(s: State, s': State, w: Wid, x: Worker, id: Id)
    requires s'.workers == s.workers[w := x] && id in s.jobs && id in s'.jobs && s'.jobs[id].runAt == s.jobs[id].runAt
    ensures Selecting(s') == Selecting(s) - {w} + (if x.Selected? then {w} else {})
    ensures Late(s', id) == Late(s, id) - {w} + (if WritesLate(x, s.jobs[id].runAt) then {w} else {})
  {
  }

  lemma SelectContenders(c: Config, s: State, w: Wid, other: Id, id: Id)
    requires Waiting(s, id) && Enabled(c, s, Select(w, other)) && other != id
    ensures Contenders(Apply(c, s, Select(w, other)), id) == Contenders(s, id)
  {
    var s' := Apply(c, s, Select(w, other));
    SelectionShrinksAhead(c, s, w, other, id);
    WorkerSets(s, s', w, s'.workers[w], id);
    assert w !in Selecting(s) && w !in Late(s, id);
  }

  lemma ClaimContenders(c: Config, s: State, a: Step, id: Id)
    requires Locks(s) && Enabled(c, s, a) && IsClaim(a) && Waiting(s, id)
    ensures id in Apply(c, s, a).jobs && Contenders(Apply(c, s, a), id) + 1 == Contenders(s, id)
  {
    var s' := Apply(c, s, a);
    assert Ahead(s', id) == Ahead(s, id);
    WorkerSets(s, s', a.w, s'.workers[a.w], id);
    assert a.w in Selecting(s) && a.w !in Late(s, id);
  }

  lemma UpdateAhead(c: Config, s: State, w: Wid, id: Id)
    requires Owners(c, s) && Enabled(c, s, Update(w)) && Waiting(s, id)
    ensures var s', x := Apply(c, s, Update(w)), s.workers[w];
            && id in s'.jobs && s'.jobs[id] == s.jobs[id]
            && Ahead(s', id) <= Ahead(s, id) + if WritesLate(x, s.jobs[id].runAt) then {x.job.id} else {}
  {
    assert OwnsRow(c, s, s.workers[w]);
  }

  // A retry written ahead of the waiting job is written by a late worker.
  lemma UpdateContenders(c: Config, s: State, w: Wid, id: Id)
    requires Owners(c, s) && Enabled(c, s, Update(w)) && Waiting(s, id)
    ensures id in Apply(c, s, Update(w)).jobs && Contenders(Apply(c, s, Update(w)), id) <= Contenders(s, id)
  {
    var s', x := Apply(c, s, Update(w)), s.workers[w];
    UpdateAhead(c, s, w, id);
    WorkerSets(s, s', w, Idle, id);
    assert w !in Selecting(s) && (w in Late(s, id) <==> WritesLate(x, s.jobs[id].runAt));
    AheadBy(Ahead(s', id), Ahead(s, id), x.job.id);
  }

  // Only worker w changes, and it locks nothing.
  lemma WorkerContenders(s: State, s': State, w: Wid, x: Worker, id: Id)
    requires id in s.jobs && s'.jobs == s.jobs && s'.locks == s.locks && s'.workers == s.workers[w := x]
    requires w in s.workers && !s.workers[w].Selected? && !x.Selected?
    ensures Ahead(s', id) == Ahead(s, id) && Selecting(s') == Selecting(s)
    ensures Contenders(s', id) + One(WritesLate(s.workers[w], s.jobs[id].runAt))
            == Contenders(s, id) + One(WritesLate(x, s.jobs[id].runAt))
  {
    SameRows(s, s', id);
    SameSelecting(s, s', w, x);
    LateChange(s, s', w, x, id);
  }

  lemma SameSelecting(s: State, s': State, w: Wid, x: Worker)
    requires s'.workers == s.workers[w := x] && w in s.workers && !s.workers[w].Selected? && !x.Selected?
    ensures Selecting(s') == Selecting(s)
  {
  }

  lemma LateChange(s: State, s': State, w: Wid, x: Worker, id: Id)
    requires id in s.jobs && s'.jobs == s.jobs && s'.workers == s.workers[w := x] && w in s.workers
    ensures |Late(s', id)| + One(WritesLate(s.workers[w], s.jobs[id].runAt))
            == |Late(s, id)| + One(WritesLate(x, s.jobs[id].runAt))
  {
    WorkerSets(s, s', w, x, id);
    OneMember(Late(s, id), Late(s', id), w, WritesLate(x, s.jobs[id].runAt));
  }

  // A set in which only the membership of w is decided anew.
  lemma OneMember(before: set<nat>, after: set<nat>, w: nat, inside: bool)
    requires after == before - {w} + if inside then {w} else {}
    ensures |after| + One(w in before) == |before| + One(inside)
  {
    assert |before| == |before - {w}| + One(w in before);
  }

  lemma SameRows(s: State, s': State, id: Id)
    requires id in s.jobs && s'.jobs == s.jobs && s'.locks == s.locks
    ensures Ahead(s', id) == Ahead(s, id)
  {
  }

  // A crash before the commit gives the row back.
  lemma CrashContenders(c: Config, s: State, w: Wid, id: Id)
    requires Locks(s) && Enabled(c, s, Crash(w)) && Waiting(s, id)
    ensures Contenders(Apply(c, s, Crash(w)), id) <= Contenders(s, id)
  {
    var s', x := Apply(c, s, Crash(w)), s.workers[w];
    WorkerSets(s, s', w, Idle, id);
    if x.Selected? {
      assert w in Selecting(s) && w !in Late(s, id);
      AheadBy(Ahead(s', id), Ahead(s, id), x.id);
    } else {
      WorkerContenders(s, s', w, Idle, id);
    }
  }

  lemma EndContenders(c: Config, s: State, a: Step, id: Id)
    requires Enabled(c, s, a) && (a.ExecOk? || a.ExecFail?) && Waiting(s, id)
    ensures Contenders(Apply(c, s, a), id) == Contenders(s, id) + One(Joins(s, a, id))
  {
    var s' := Apply(c, s, a);
    WorkerContenders(s, s', a.w, s'.workers[a.w], id);
  }

  // A new row is due from now on, which is after the waiting one.
  lemma CreateContenders(c: Config, s: State, a: Step, id: Id)
    requires Enabled(c, s, a) && a.Create? && Waiting(s, id)
    ensures id in Apply(c, s, a).jobs && Contenders(Apply(c, s, a), id) == Contenders(s, id)
  {
    var s' := Apply(c, s, a);
    assert Ahead(s', id) == Ahead(s, id);
    assert Selecting(s') == Selecting(s) && Late(s', id) == Late(s, id);
  }

  lemma OtherContenders(c: Config, s: State, a: Step, id: Id)
    requires Enabled(c, s, a) && Waiting(s, id) && (a.Tick? || a.InsertResult? || a.UpdateLost?)
    ensures Contenders(Apply(c, s, a), id) <= Contenders(s, id)
  {
    var s' := Apply(c, s, a);
    if a.Tick? {
      assert Ahead(s', id) == Ahead(s, id) && Selecting(s') == Selecting(s) && Late(s', id) == Late(s, id);
    } else {
      WorkerContenders(s, s', a.w, s'.workers[a.w], id);
    }
  }

  // One step: a claim uses up one contender, and a new one comes only from a clock reading that puts a
  // retry before the waiting job. Crashes, rollbacks, new jobs and other retries bring none.
  lemma ContendersStepIff(c: Config, s: State, a: Step, id: Id)
    requires Rows(c, s) && Ownership(c, s) && Enabled(c, s, a) && Waiting(s, id) && Waiting(Apply(c, s, a), id)
    ensures Contenders(Apply(c, s, a), id) + One(IsClaim(a)) <= Contenders(s, id) <==> !Joins(s, a, id)
  {
    if a.ExecOk? || a.ExecFail? || a.Update? {
      EndingStepIff(c, s, a, id);
    } else {
      NoJoiner(c, s, a, id);
    }
  }

  lemma EndingStepIff(c: Config, s: State, a: Step, id: Id)
    requires Owners(c, s) && Enabled(c, s, a) && Waiting(s, id) && (a.ExecOk? || a.ExecFail? || a.Update?)
    ensures id in Apply(c, s, a).jobs
    ensures Contenders(Apply(c, s, a), id) <= Contenders(s, id) <==> !Joins(s, a, id)
  {
    if a.Update? {
      UpdateContenders(c, s, a.w, id);
    } else {
      EndContenders(c, s, a, id);
    }
  }

  lemma NoJoiner(c: Config, s: State, a: Step, id: Id)
    requires Locks(s) && Enabled(c, s, a) && !a.ExecOk? && !a.ExecFail? && !a.Update?
    requires Waiting(s, id) && Waiting(Apply(c, s, a), id)
    ensures Contenders(Apply(c, s, a), id) + One(IsClaim(a)) <= Contenders(s, id)
  {
    match a
    case Select(w, other) => SelectContenders(c, s, w, other, id);
    case CommitClaim(_) => ClaimContenders(c, s, a, id);
    case ClaimReplyLost(_) => ClaimContenders(c, s, a, id);
    case Crash(w) => CrashContenders(c, s, w, id);
    case NoRows(_) => assert false; // the waiting job could have been returned
    case Create(_, _, _, _, _) => CreateContenders(c, s, a, id);
    case _ => OtherContenders(c, s, a, id);
  }

  // With clocks at most 20 seconds apart and at most 30 attempts, a retry always goes to the back.
  lemma RetriesGoToTheBack(c: Config, s: State, a: Step, id: Id)
    requires Rows(c, s) && Owners(c, s) && Enabled(c, s, a) && Waiting(s, id)
    requires a.ExecFail? ==> Modest(c, s.workers[a.w].job.maxAttempts)
    ensures !Joins(s, a, id)
  {
    if a.ExecFail? {
      var job := s.workers[a.w].job;
      assert OwnsRow(c, s, s.workers[a.w]) && RowOk(c.skew, s.clock, job);
      if 1 <= job.attempt <= LAST_EXACT {
        DelayDoubles(job.attempt);
      }
    }
  }

  // A limit on attempts, or no retries at all.
  ghost predicate Modest(c: Config, maxAttempts: int) {
    maxAttempts <= 1 || (c.skew <= 20 * SECOND && maxAttempts <= LAST_EXACT + 1)
  }

  lemma AheadBy(small: set<Id>, big: set<Id>, extra: Id)
    ensures small <= big ==> |small| <= |big|
    ensures small <= big + {extra} ==> |small| <= |big| + 1
  {
    if small <= big + {extra} {
      Included(small - {extra}, big);
      assert |small| <= |small - {extra}| + 1;
    }
    if small <= big {
      Included(small, big);
    }
  }

  lemma {:induction false} Included(small: set<nat>, big: set<nat>)
    requires small <= big
    ensures |small| <= |big|
  {
    if small != {} {
      var x :| x in small;
      Included(small - {x}, big - {x});
    }
  }

  // ---------- Over runs ----------

  ghost function ClaimsBetween(r: Run, i: nat, j: nat): nat
    requires i <= j <= |r.steps|
  {
    if i == j then 0 else ClaimsBetween(r, i, j - 1) + One(IsClaim(r.steps[j - 1]))
  }

  ghost predicate AllModest(c: Config, s: State) {
    forall id | id in s.jobs :: Modest(c, s.jobs[id].maxAttempts)
  }

  ghost predicate WaitsThroughout(r: Run, i: nat, j: nat, id: Id)
    requires j < |r.states|
  {
    forall k | i <= k <= j :: Waiting(r.states[k], id)
  }

  // Rows keep their max_attempts.
  lemma ModestBefore(c: Config, r: Run, k: nat, j: nat)
    requires IsRun(c, r) && k <= j < |r.states| && AllModest(c, r.states[j])
    ensures AllModest(c, r.states[k])
  {
    forall id | id in r.states[k].jobs
      ensures Modest(c, r.states[k].jobs[id].maxAttempts)
    {
      RowsPersist(c, r, k, j, id);
    }
  }

  lemma ContendersRunStep(c: Config, r: Run, k: nat, id: Id)
    requires IsRun(c, r) && k < |r.steps| && AllModest(c, r.states[k])
    requires Waiting(r.states[k], id) && Waiting(r.states[k + 1], id)
    ensures Contenders(r.states[k + 1], id) + One(IsClaim(r.steps[k])) <= Contenders(r.states[k], id)
  {
    var s, a := r.states[k], r.steps[k];
    RunInv(c, r, k);
    assert StepAt(c, r, k);
    assert a.ExecFail? ==> OwnsRow(c, s, s.workers[a.w]);
    RetriesGoToTheBack(c, s, a, id);
    ContendersStepIff(c, s, a, id);
  }

  // While a due job keeps waiting, the claims that pass it are at most the contenders there were when
  // the wait began, whatever else is created, retried, rolled back or lost in the meantime.
  lemma {:induction false} BoundedOvertaking(c: Config, r: Run, i: nat, j: nat, id: Id)
    requires IsRun(c, r) && i <= j < |r.states| && WaitsThroughout(r, i, j, id) && AllModest(c, r.states[j])
    ensures ClaimsBetween(r, i, j) + Contenders(r.states[j], id) <= Contenders(r.states[i], id)
  {
    if i < j {
      ModestBefore(c, r, j - 1, j);
      BoundedOvertaking(c, r, i, j - 1, id);
      ContendersRunStep(c, r, j - 1, id);
    }
  }

  lemma {:induction false} WaitsUntilSelected(c: Config, r: Run, i: nat, k: nat, id: Id)
    requires IsRun(c, r) && i <= k < |r.states| && Waiting(r.states[i], id)
    requires forall m | i <= m < k :: !Selects(r.steps[m], id)
    ensures Waiting(r.states[k], id)
  {
    if i < k {
      WaitsUntilSelected(c, r, i, k - 1, id);
      RunInv(c, r, k - 1);
      assert StepAt(c, r, k - 1) && !Selects(r.steps[k - 1], id);
      WaitingRowKeeps(c, r.states[k - 1], r.steps[k - 1], id);
    }
  }

  ghost predicate Selects(a: Step, id: Id) {
    a.Select? && a.id == id
  }

  // No starvation: once more claims have been made than there were contenders, the waiting job has been
  // selected.
  lemma NoStarvation(c: Config, r: Run, i: nat, j: nat, id: Id)
    requires IsRun(c, r) && i <= j < |r.states| && Waiting(r.states[i], id) && AllModest(c, r.states[j])
    requires ClaimsBetween(r, i, j) > Contenders(r.states[i], id)
    ensures exists m | i <= m < j :: Selects(r.steps[m], id)
  {
    if forall m | i <= m < j :: !Selects(r.steps[m], id) {
      forall k | i <= k <= j
        ensures Waiting(r.states[k], id)
      {
        WaitsUntilSelected(c, r, i, k, id);
      }
      BoundedOvertaking(c, r, i, j, id);
    }
  }
}
