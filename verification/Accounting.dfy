/**
 Why the queue stops: every job carries a budget of attempts, and a measure
 summed over all jobs strictly drops with every claim and every finished job.
 */
module Accounting {
  import opened Prelude
  import opened Jobs
  import opened Lifecycle
  import opened Queue
  import opened QueueInvariant
  import opened QueueRuns

  // ---------- Sums over the created jobs ----------

  ghost function CreatedIds(log: seq<Event>): seq<Id> {
    if log == [] then [] else
      var e, rest := log[|log| - 1], CreatedIds(log[..|log| - 1]);
      if e.Created? then rest + [e.id] else rest
  }

  ghost function TotalClaims(log: seq<Event>): nat {
    if log == [] then 0 else TotalClaims(log[..|log| - 1]) + if log[|log| - 1].Claimed? then 1 else 0
  }

  lemma CountAppend(log: seq<Event>, e: Event)
    ensures CreatedIds(log + [e]) == if e.Created? then CreatedIds(log) + [e.id] else CreatedIds(log)
    ensures TotalClaims(log + [e]) == TotalClaims(log) + if e.Claimed? then 1 else 0
  {
    assert (log + [e])[..|log|] == log;
  }

  ghost function Sum(ids: seq<Id>, jobs: map<Id, Job>, f: Job -> int): int {
    if ids == [] then 0 else
      var id := ids[|ids| - 1];
      Sum(ids[..|ids| - 1], jobs, f) + if id in jobs then f(jobs[id]) else 0
  }

  lemma SumAppend(ids: seq<Id>, id: Id, jobs: map<Id, Job>, f: Job -> int)
    requires id in jobs
    ensures Sum(ids + [id], jobs, f) == Sum(ids, jobs, f) + f(jobs[id])
  {
    assert (ids + [id])[..|ids|] == ids;
  }

  lemma {:induction false} SumFrame(ids: seq<Id>, jobs: map<Id, Job>, jobs': map<Id, Job>, f: Job -> int)
    requires forall i | 0 <= i < |ids| :: ids[i] in jobs && ids[i] in jobs' && f(jobs[ids[i]]) == f(jobs'[ids[i]])
    ensures Sum(ids, jobs, f) == Sum(ids, jobs', f)
  {
    if ids != [] {
      SumFrame(ids[..|ids| - 1], jobs, jobs', f);
    }
  }

  // One row changes: so does the sum, by the difference.
  lemma {:induction false} SumUpdate(ids: seq<Id>, jobs: map<Id, Job>, id: Id, row: Job, f: Job -> int)
    requires Distinct(ids) && id in ids && id in jobs
    requires forall i | 0 <= i < |ids| :: ids[i] in jobs
    ensures Sum(ids, jobs[id := row], f) == Sum(ids, jobs, f) - f(jobs[id]) + f(row)
  {
    var last := |ids| - 1;
    if ids[last] == id {
      SumFrame(ids[..last], jobs, jobs[id := row], f);
    } else {
      assert id in ids[..last];
      SumUpdate(ids[..last], jobs, id, row, f);
    }
  }

  lemma {:induction false} SumBelow(ids: seq<Id>, jobs: map<Id, Job>, f: Job -> int, g: Job -> int)
    requires forall i | 0 <= i < |ids| :: ids[i] in jobs && f(jobs[ids[i]]) <= g(jobs[ids[i]])
    ensures Sum(ids, jobs, f) <= Sum(ids, jobs, g)
  {
    if ids != [] {
      SumBelow(ids[..|ids| - 1], jobs, f, g);
    }
  }

  // ---------- Claims never exceed the attempts the jobs were created with ----------

  const Tries: Job -> int := (j: Job) => j.attempt
  const Allowed: Job -> int := (j: Job) => j.maxAttempts

  // What a job can still do: two steps per remaining attempt, one more while it runs, none at its end.
  function Remaining(j: Job): int {
    match j.status
    case Pending => 2 * (j.maxAttempts - j.attempt)
    case Running => 2 * (j.maxAttempts - j.attempt) + 1
    case _ => 0
  }

  const Left: Job -> int := (j: Job) => Remaining(j)

  ghost function Potential(s: State): int {
    Sum(CreatedIds(s.log), s.jobs, Left)
  }

  ghost predicate Books(s: State) {
    && Distinct(CreatedIds(s.log))
    && (forall id :: id in CreatedIds(s.log) <==> id in s.jobs)
    && TotalClaims(s.log) == Sum(CreatedIds(s.log), s.jobs, Tries)
  }

  // A step of the automaton costs at least one unit of what the job has left.
  lemma MoveCosts(skew: nat, clock: Time, id: Id, row: Option<Job>, m: Move)
    requires row.Some? && RowOk(skew, clock, row.value) && CanMove(row, m)
    ensures 0 <= Remaining(Moved(id, row, m)) < Remaining(row.value)
    ensures m.Claim? ==> Moved(id, row, m).attempt == row.value.attempt + 1
                         && Remaining(Moved(id, row, m)) == Remaining(row.value) - 1
    ensures !m.Claim? ==> Moved(id, row, m).attempt == row.value.attempt
  {
  }

  // The steps that make progress: a committed claim, with or without its reply, and a status update.
  predicate IsProgress(a: Step) {
    a.CommitClaim? || a.ClaimReplyLost? || a.Update?
  }

  function MovedJob(s: State, a: Step): Id
    requires IsProgress(a) && a.w in s.workers && !s.workers[a.w].Idle?
  {
    if a.Update? && s.workers[a.w].Finishing? then s.workers[a.w].job.id
    else if s.workers[a.w].Selected? then s.workers[a.w].id else 0
  }

  // A progress step writes one row, and logs one event if it is a claim.
  lemma ProgressWritesOneRow(c: Config, s: State, a: Step)
    requires Rows(c, s) && Ownership(c, s) && Enabled(c, s, a) && IsProgress(a)
    ensures var s', id := Apply(c, s, a), MovedJob(s, a);
            && id in s.jobs && MoveOf(s, a, id).Some? && id in s'.jobs
            && s'.jobs == s.jobs[id := s'.jobs[id]]
            && (if a.Update? then s'.log == s.log else |s'.log| == |s.log| + 1)
            && (!a.Update? ==> s'.log == s.log + [s'.log[|s.log|]] && s'.log[|s.log|].Claimed?)
            && (MoveOf(s, a, id).value.Claim? <==> !a.Update?)
  {
    if a.Update? {
      assert OwnsRow(c, s, s.workers[a.w]);
    }
  }

  lemma ProgressKeepsBooks(c: Config, s: State, a: Step)
    requires Rows(c, s) && Ownership(c, s) && Books(s) && Enabled(c, s, a) && IsProgress(a)
    ensures Books(Apply(c, s, a))
    ensures Potential(Apply(c, s, a)) < Potential(s)
    ensures !a.Update? ==> Potential(Apply(c, s, a)) == Potential(s) - 1
  {
    var s', id, ids := Apply(c, s, a), MovedJob(s, a), CreatedIds(s.log);
    ProgressWritesOneRow(c, s, a);
    StepRefinesLifecycle(c, s, a, id);
    MoveCosts(c.skew, s.clock, id, Row(s, id), MoveOf(s, a, id).value);
    if !a.Update? {
      CountAppend(s.log, s'.log[|s.log|]);
    }
    RowKeepsBooks(s, s', id);
  }

  // One row changes and at most a claim is logged.
  lemma RowKeepsBooks(s: State, s': State, id: Id)
    requires Books(s) && id in s.jobs && id in s'.jobs && s'.jobs == s.jobs[id := s'.jobs[id]]
    requires CreatedIds(s'.log) == CreatedIds(s.log)
    requires TotalClaims(s'.log) - TotalClaims(s.log) == s'.jobs[id].attempt - s.jobs[id].attempt
    ensures Books(s')
    ensures Potential(s') == Potential(s) - Remaining(s.jobs[id]) + Remaining(s'.jobs[id])
  {
    var ids := CreatedIds(s.log);
    SumUpdate(ids, s.jobs, id, s'.jobs[id], Tries);
    SumUpdate(ids, s.jobs, id, s'.jobs[id], Left);
  }

  lemma CreateKeepsBooks(c: Config, s: State, a: Step)
    requires Books(s) && Enabled(c, s, a) && a.Create?
    ensures Books(Apply(c, s, a))
    ensures Potential(Apply(c, s, a)) == Potential(s) + 2 * a.maxAttempts
  {
    var s', ids := Apply(c, s, a), CreatedIds(s.log);
    CountAppend(s.log, Created(a.id));
    forall i | 0 <= i < |ids|
      ensures ids[i] in s.jobs
    {
      assert ids[i] in ids;
    }
    SumInsert(ids, a.id, s.jobs, s'.jobs[a.id], Tries);
    SumInsert(ids, a.id, s.jobs, s'.jobs[a.id], Left);
    CreatedOnce(ids, s.jobs, a.id, s'.jobs[a.id]);
  }

  lemma SumInsert(ids: seq<Id>, id: Id, jobs: map<Id, Job>, row: Job, f: Job -> int)
    requires id !in jobs && forall i | 0 <= i < |ids| :: ids[i] in jobs
    ensures Sum(ids + [id], jobs[id := row], f) == Sum(ids, jobs, f) + f(row)
  {
    SumFrame(ids, jobs, jobs[id := row], f);
    SumAppend(ids, id, jobs[id := row], f);
  }

  lemma CreatedOnce(ids: seq<Id>, jobs: map<Id, Job>, id: Id, row: Job)
    requires Distinct(ids) && id !in jobs && forall other :: other in ids <==> other in jobs
    ensures Distinct(ids + [id]) && forall other :: other in ids + [id] <==> other in jobs[id := row]
  {
    assert forall i | 0 <= i < |ids| :: ids[i] in ids;
  }

  lemma OtherKeepsBooks(c: Config, s: State, a: Step)
    requires Books(s) && Enabled(c, s, a) && !IsProgress(a) && !a.Create?
    ensures Books(Apply(c, s, a))
    ensures Potential(Apply(c, s, a)) == Potential(s)
  {
    OtherLogs(c, s, a);
    SameBooks(s, Apply(c, s, a));
  }

  lemma OtherLogs(c: Config, s: State, a: Step)
    requires Enabled(c, s, a) && !IsProgress(a) && !a.Create?
    ensures var s' := Apply(c, s, a);
            && s'.jobs == s.jobs
            && CreatedIds(s'.log) == CreatedIds(s.log) && TotalClaims(s'.log) == TotalClaims(s.log)
  {
    if a.ExecOk? || a.ExecFail? {
      CountAppend(s.log, Apply(c, s, a).log[|s.log|]);
    }
  }

  lemma SameBooks(s: State, s': State)
    requires Books(s) && s'.jobs == s.jobs
    requires CreatedIds(s'.log) == CreatedIds(s.log) && TotalClaims(s'.log) == TotalClaims(s.log)
    ensures Books(s') && Potential(s') == Potential(s)
  {
  }

  ghost function StepCredit(a: Step): int {
    if a.Create? then 2 * a.maxAttempts else 0
  }

  // One step: creation pays in, every claim and every finished job pays out, the rest is free.
  lemma StepBooks(c: Config, s: State, a: Step)
    requires Inv(c, s) && Books(s) && Enabled(c, s, a)
    ensures Books(Apply(c, s, a))
    ensures Potential(Apply(c, s, a)) <= Potential(s) + StepCredit(a) - if IsProgress(a) then 1 else 0
  {
    if IsProgress(a) {
      ProgressKeepsBooks(c, s, a);
    } else if a.Create? {
      CreateKeepsBooks(c, s, a);
    } else {
      OtherKeepsBooks(c, s, a);
    }
  }

  lemma RunStepBooks(c: Config, r: Run, i: nat)
    requires IsRun(c, r) && i < |r.steps| && Books(r.states[i])
    ensures Books(r.states[i + 1])
    ensures Potential(r.states[i + 1])
            <= Potential(r.states[i]) + StepCredit(r.steps[i]) - if IsProgress(r.steps[i]) then 1 else 0
  {
    RunInv(c, r, i);
    assert StepAt(c, r, i);
    StepBooks(c, r.states[i], r.steps[i]);
  }

  lemma {:induction false} RunBooks(c: Config, r: Run, i: nat)
    requires IsRun(c, r) && i < |r.states|
    ensures Books(r.states[i])
  {
    if i > 0 {
      RunBooks(c, r, i - 1);
      RunStepBooks(c, r, i - 1);
    }
  }

  lemma PotentialNonNegative(c: Config, s: State)
    requires Rows(c, s) && Books(s)
    ensures Potential(s) >= 0
  {
    var ids := CreatedIds(s.log);
    var zero := (j: Job) => 0;
    forall i | 0 <= i < |ids|
      ensures ids[i] in s.jobs && zero(s.jobs[ids[i]]) <= Left(s.jobs[ids[i]])
    {
      assert ids[i] in s.jobs && RowOk(c.skew, s.clock, s.jobs[ids[i]]);
    }
    SumBelow(ids, s.jobs, zero, Left);
    SumZero(ids, s.jobs, zero);
  }

  lemma {:induction false} SumZero(ids: seq<Id>, jobs: map<Id, Job>, f: Job -> int)
    requires forall j :: f(j) == 0
    ensures Sum(ids, jobs, f) == 0
  {
    if ids != [] {
      SumZero(ids[..|ids| - 1], jobs, f);
    }
  }

  // Over any run, the executions started are at most the attempts allowed to the jobs created.
  lemma ClaimsWithinAllowance(c: Config, r: Run, i: nat)
    requires IsRun(c, r) && i < |r.states|
    ensures var s := r.states[i]; TotalClaims(s.log) <= Sum(CreatedIds(s.log), s.jobs, Allowed)
  {
    RunBooks(c, r, i);
    RunInv(c, r, i);
    var s := r.states[i];
    var ids := CreatedIds(s.log);
    forall k | 0 <= k < |ids|
      ensures ids[k] in s.jobs && Tries(s.jobs[ids[k]]) <= Allowed(s.jobs[ids[k]])
    {
      assert ids[k] in s.jobs && RowOk(c.skew, s.clock, s.jobs[ids[k]]);
    }
    SumBelow(ids, s.jobs, Tries, Allowed);
  }

  ghost function Progress(steps: seq<Step>): nat {
    if steps == [] then 0 else Progress(steps[..|steps| - 1]) + if IsProgress(steps[|steps| - 1]) then 1 else 0
  }

  ghost function Credit(steps: seq<Step>): int {
    if steps == [] then 0 else Credit(steps[..|steps| - 1]) + StepCredit(steps[|steps| - 1])
  }

  lemma {:induction false} PotentialPaysProgress(c: Config, r: Run, i: nat, j: nat)
    requires IsRun(c, r) && i <= j < |r.states|
    ensures Potential(r.states[j]) + Progress(r.steps[i..j]) <= Potential(r.states[i]) + Credit(r.steps[i..j])
  {
    if i < j {
      PotentialPaysProgress(c, r, i, j - 1);
      assert r.steps[i..j][..j - i - 1] == r.steps[i..j - 1];
      RunBooks(c, r, j - 1);
      RunStepBooks(c, r, j - 1);
    }
  }

  // From any point of a run, the claims and status updates still to come are bounded in advance by
  // what the present jobs have left and what later jobs bring with them.
  lemma ProgressIsBounded(c: Config, r: Run, i: nat, j: nat)
    requires IsRun(c, r) && i <= j < |r.states|
    ensures Progress(r.steps[i..j]) <= Potential(r.states[i]) + Credit(r.steps[i..j])
  {
    PotentialPaysProgress(c, r, i, j);
    RunInv(c, r, j);
    RunBooks(c, r, j);
    PotentialNonNegative(c, r.states[j]);
  }
}
