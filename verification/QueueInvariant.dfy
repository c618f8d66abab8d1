/**
 What every step of the queue keeps: ownership of claimed rows, coherence of
 rows, the event log and the results table. The proof of each part goes step
 by step; the row part goes through the automaton of Lifecycle.
 */
module QueueInvariant {
  import opened Prelude
  import opened Backoff
  import opened Jobs
  import opened Lifecycle
  import opened Queue

  // ---------- Reading the log and the results table ----------

  ghost function Claims(log: seq<Event>, id: Id): seq<int> {
    if log == [] then [] else
      var e, rest := log[|log| - 1], Claims(log[..|log| - 1], id);
      if e.Claimed? && e.id == id then rest + [e.attempt] else rest
  }

  ghost function Ends(log: seq<Event>, id: Id): seq<int> {
    if log == [] then [] else
      var e, rest := log[|log| - 1], Ends(log[..|log| - 1], id);
      if e.Ended? && e.id == id then rest + [e.attempt] else rest
  }

  datatype Ending = Ending(outcome: Outcome, now: Time)

  // How the attempts of a job ended, in their order.
  ghost function Endings(log: seq<Event>, id: Id): seq<Ending> {
    if log == [] then [] else
      var e, rest := log[|log| - 1], Endings(log[..|log| - 1], id);
      if e.Ended? && e.id == id then rest + [Ending(e.outcome, e.now)] else rest
  }

  ghost function ResultsOf(executions: seq<Execution>, id: Id): nat {
    if executions == [] then 0 else
      ResultsOf(executions[..|executions| - 1], id) + if executions[|executions| - 1].job == id then 1 else 0
  }

  // 1, 2, ..., n
  ghost function UpTo(n: nat): (r: seq<int>)
    ensures |r| == n && forall i | 0 <= i < n :: r[i] == i + 1
  {
    if n == 0 then [] else UpTo(n - 1) + [n]
  }

  lemma LogAppend(log: seq<Event>, e: Event)
    ensures forall id :: Claims(log + [e], id)
                         == if e.Claimed? && e.id == id then Claims(log, id) + [e.attempt] else Claims(log, id)
    ensures forall id :: Ends(log + [e], id)
                         == if e.Ended? && e.id == id then Ends(log, id) + [e.attempt] else Ends(log, id)
    ensures forall id :: Endings(log + [e], id)
                         == if e.Ended? && e.id == id then Endings(log, id) + [Ending(e.outcome, e.now)]
                            else Endings(log, id)
  {
    assert (log + [e])[..|log|] == log;
  }

  lemma ResultsAppend(executions: seq<Execution>, e: Execution)
    ensures forall id :: ResultsOf(executions + [e], id)
                         == ResultsOf(executions, id) + if e.job == id then 1 else 0
  {
    assert (executions + [e])[..|executions|] == executions;
  }

  // ---------- The invariant ----------

  ghost predicate HeldBy(s: State, id: Id, w: Wid) {
    w in s.workers && InFlight(s.workers[w]) && s.workers[w].job.id == id
  }

  // Every row is coherent and stored under its own id.
  ghost predicate Rows(c: Config, s: State) {
    forall id | id in s.jobs :: s.jobs[id].id == id && RowOk(c.skew, s.clock, s.jobs[id])
  }

  // Row locks are exactly the rows selected by some worker; a locked row is pending and due.
  ghost predicate Locks(s: State) {
    && (forall id | id in s.locks ::
          s.locks[id] in s.workers && s.workers[s.locks[id]].Selected? && s.workers[s.locks[id]].id == id)
    && (forall w | w in s.workers && s.workers[w].Selected? ::
          var x := s.workers[w];
          && x.id in s.locks && s.locks[x.id] == w
          && x.id in s.jobs && s.jobs[x.id].status.Pending?
          && s.jobs[x.id].runAt <= x.at && ClaimTimely(s.clock, s.jobs[x.id], x.at))
  }

  // A worker past its claim holds a running row identical to its snapshot, and holds it alone.
  ghost predicate Owners(c: Config, s: State) {
    && (forall w | w in s.workers && InFlight(s.workers[w]) :: OwnsRow(c, s, s.workers[w]))
    && (forall id, v, w | HeldBy(s, id, v) && HeldBy(s, id, w) :: v == w)
  }

  ghost predicate OwnsRow(c: Config, s: State, x: Worker)
    requires InFlight(x)
  {
    var j := x.job;
    && j.id in s.jobs && s.jobs[j.id] == j && j.status.Running? && j.id !in s.stranded
    && (x.Finishing? ==> WorkerTime(c.skew, s.clock, Some(j), x.now))
  }

  // A running row has a live holder or is stranded.
  ghost predicate Coverage(s: State) {
    && (forall id | id in s.stranded :: id in s.jobs && s.jobs[id].status.Running?)
    && (forall id | id in s.jobs && s.jobs[id].status.Running? ::
          id in s.stranded || exists w :: HeldBy(s, id, w))
  }

  ghost predicate Ownership(c: Config, s: State) {
    Locks(s) && Owners(c, s) && Coverage(s)
  }

  ghost function Attempts(s: State, id: Id): nat {
    if id in s.jobs then s.jobs[id].attempt else 0
  }

  // The log records the claims of a job as attempts 1..attempt, none before its backoff allows.
  ghost predicate ClaimLog(c: Config, s: State) {
    && (forall id :: Claims(s.log, id) == UpTo(Attempts(s, id)))
    && (forall i | 0 <= i < |s.log| && s.log[i].Claimed? :: ClaimOk(c, s, s.log[i]))
  }

  ghost predicate ClaimOk(c: Config, s: State, e: Event)
    requires e.Claimed?
  {
    && e.id in s.jobs
    && 1 <= e.attempt <= s.jobs[e.id].attempt
    && e.at <= s.clock
    && (e.attempt <= LAST_EXACT + 1 ==> e.at >= s.jobs[e.id].createdAt + EarliestClaim(e.attempt, c.skew))
  }

  // Attempts end in order, each at most once, and their outcomes are what rows and holders say.
  ghost predicate EndLog(s: State) {
    && (forall id :: Ends(s.log, id) == UpTo(|Endings(s.log, id)|))
    && (forall id | id !in s.jobs :: Endings(s.log, id) == [])
    && (forall id | id in s.jobs :: OutcomesMatchRow(s.jobs[id], Endings(s.log, id)))
    && (forall w | w in s.workers && InFlight(s.workers[w]) ::
          OutcomesMatchWorker(s.workers[w], Endings(s.log, s.workers[w].job.id)))
  }

  // The first n attempts failed.
  ghost predicate Failures(q: seq<Ending>, n: int) {
    n <= |q| && forall k | 0 <= k < n :: q[k].outcome.Failure?
  }

  ghost predicate OutcomesMatchRow(j: Job, q: seq<Ending>) {
    && |q| <= j.attempt
    && Failures(q, j.attempt - 1)
    && (!j.status.Running? ==> |q| == j.attempt)
    && (j.status.Completed? ==>
          |q| >= 1 && q[|q| - 1].outcome.Success? && j.completedAt == Some(q[|q| - 1].now))
    && (j.status.Failed? || (j.status.Pending? && j.attempt >= 1) ==>
          |q| >= 1 && q[|q| - 1].outcome.Failure? && j.error == Some(q[|q| - 1].outcome.message))
    && RunsAfter(j, q)
  }

  // How often a row has been scheduled anew.
  function Retries(j: Job): int {
    if j.status.Pending? then j.attempt else j.attempt - 1
  }

  // run_at is the creation time, or the clock reading of the last failure plus its delay.
  ghost predicate RunsAfter(j: Job, q: seq<Ending>) {
    var n := Retries(j);
    (n == 0 ==> j.runAt == j.createdAt) && (n >= 1 ==> n <= |q| && j.runAt == q[n - 1].now + Delay(n))
  }

  // The attempt being executed has not ended; the one being written has, with the outcome the worker holds.
  ghost predicate OutcomesMatchWorker(x: Worker, q: seq<Ending>)
    requires InFlight(x)
  {
    match x
    case Executing(job, _) => |q| == job.attempt - 1
    case Finishing(job, outcome, now) => |q| == job.attempt >= 1 && q[|q| - 1] == Ending(outcome, now)
  }

  // Rows of code_executions belong to code jobs of the same tenant, and their number per job
  // follows the state of the job and of its holder.
  ghost predicate Results(c: Config, s: State) {
    && (forall i | 0 <= i < |s.executions| ::
          var e := s.executions[i];
          e.job in s.jobs && s.jobs[e.job].jobType == CODE_JOB && s.jobs[e.job].tenant == e.tenant)
    && (forall id | id in s.jobs :: ResultsMatchRow(c, s.jobs[id], ResultsOf(s.executions, id)))
    && (forall w | w in s.workers && InFlight(s.workers[w]) ::
          ResultsMatchWorker(c, s.workers[w], ResultsOf(s.executions, s.workers[w].job.id)))
  }

  ghost predicate ResultsMatchRow(c: Config, j: Job, n: nat) {
    && n <= j.attempt
    && (j.status.Completed? && j.jobType == CODE_JOB ==> n >= 1)
    && (j.status.Completed? ==> j.jobType in REGISTERED)
    && (!c.lossyInserts ==> n <= 1 && (j.status.Pending? || j.status.Failed? ==> n == 0))
  }

  ghost predicate ResultsMatchWorker(c: Config, x: Worker, n: nat)
    requires InFlight(x)
  {
    match x
    case Executing(job, inserted) =>
      && (!inserted ==> n <= job.attempt - 1 && (!c.lossyInserts ==> n == 0))
      && (inserted ==> n >= 1)
    case Finishing(job, outcome, _) =>
      && (outcome.Success? && job.jobType == CODE_JOB ==> n >= 1)
      && (outcome.Success? ==> job.jobType in REGISTERED)
      && (outcome.Failure? && !c.lossyInserts ==> n == 0)
  }

  ghost predicate Inv(c: Config, s: State) {
    && Rows(c, s)
    && Ownership(c, s)
    && ClaimLog(c, s)
    && EndLog(s)
    && Results(c, s)
  }

  // ---------- Refinement: what a step does to one row ----------

  ghost function Row(s: State, id: Id): Option<Job> {
    if id in s.jobs then Some(s.jobs[id]) else None
  }

  ghost function FinishMove(x: Worker): Move
    requires x.Finishing?
  {
    match x.outcome
    case Success => Move.Complete(x.job.attempt, x.now)
    case Failure(message) =>
      if x.job.attempt < x.job.maxAttempts then Move.Retry(x.job.attempt, x.now, message)
      else Move.GiveUp(x.job.attempt, message)
  }

  // The move job `id` makes in step a, if it makes one: every other step is a stutter for it.
  ghost function MoveOf(s: State, a: Step, id: Id): Option<Move> {
    match a
    case Create(i, tenant, jobType, payload, maxAttempts) =>
      if i == id then Some(Move.Create(tenant, jobType, payload, maxAttempts, s.clock)) else None
    case CommitClaim(w) => ClaimMove(s, w, id)
    case ClaimReplyLost(w) => ClaimMove(s, w, id)
    case Update(w) =>
      if w in s.workers && s.workers[w].Finishing? && s.workers[w].job.id == id
      then Some(FinishMove(s.workers[w])) else None
    case _ => None
  }

  ghost function ClaimMove(s: State, w: Wid, id: Id): Option<Move> {
    if w in s.workers && s.workers[w].Selected? && s.workers[w].id == id
    then Some(Move.Claim(s.workers[w].at)) else None
  }

  // Each step of the queue is, for every job separately, one atomic move of its automaton or nothing.
  lemma StepRefinesLifecycle(c: Config, s: State, a: Step, id: Id)
    requires Rows(c, s) && Ownership(c, s) && Enabled(c, s, a)
    ensures Refines(c, s, a, id)
  {
    match a
    case Update(w) =>
      HolderRow(c, s, w);
      UpdateRefines(c, s, w, id);
    case CommitClaim(w) => ClaimRefines(c, s, a, w, id);
    case ClaimReplyLost(w) => ClaimRefines(c, s, a, w, id);
    case _ =>
  }

  ghost predicate Refines(c: Config, s: State, a: Step, id: Id)
    requires Enabled(c, s, a)
  {
    var row, row' := Row(s, id), Row(Apply(c, s, a), id);
    match MoveOf(s, a, id)
    case None => row' == row
    case Some(m) => CanMove(row, m) && Timely(c.skew, s.clock, row, m) && row' == Some(Moved(id, row, m))
  }

  lemma ClaimRefines(c: Config, s: State, a: Step, w: Wid, id: Id)
    requires Locks(s) && Enabled(c, s, a) && (a == CommitClaim(w) || a == ClaimReplyLost(w))
    ensures Refines(c, s, a, id)
  {
  }

  lemma UpdateRefines(c: Config, s: State, w: Wid, id: Id)
    requires Owners(c, s) && Enabled(c, s, Update(w)) && s.workers[w].job.completedAt.None?
    ensures Refines(c, s, Update(w), id)
  {
    assert OwnsRow(c, s, s.workers[w]);
  }

  // A claimed row has been started and not completed.
  lemma HolderRow(c: Config, s: State, w: Wid)
    requires Rows(c, s) && Owners(c, s) && w in s.workers && InFlight(s.workers[w])
    ensures OwnsRow(c, s, s.workers[w])
    ensures var j := s.workers[w].job; j.attempt >= 1 && j.startedAt.Some? && j.completedAt.None?
  {
    assert OwnsRow(c, s, s.workers[w]) && RowOk(c.skew, s.clock, s.workers[w].job);
  }

  // ---------- Preservation: rows ----------

  lemma RowsStep(c: Config, s: State, a: Step)
    requires Rows(c, s) && Ownership(c, s) && Enabled(c, s, a)
    ensures Rows(c, Apply(c, s, a))
  {
    var s' := Apply(c, s, a);
    forall id | id in s'.jobs
      ensures s'.jobs[id].id == id && RowOk(c.skew, s'.clock, s'.jobs[id])
    {
      StepRefinesLifecycle(c, s, a, id);
      RowStep(c, s, a, id);
    }
  }

  lemma RowStep(c: Config, s: State, a: Step, id: Id)
    requires Rows(c, s) && Enabled(c, s, a) && Refines(c, s, a, id)
    requires id in Apply(c, s, a).jobs
    ensures var s' := Apply(c, s, a); s'.jobs[id].id == id && RowOk(c.skew, s'.clock, s'.jobs[id])
  {
    if MoveOf(s, a, id).Some? {
      MoveKeepsRow(c.skew, s.clock, id, Row(s, id), MoveOf(s, a, id).value);
    } else {
      ClockKeepsRow(c.skew, s.clock, Apply(c, s, a).clock, s.jobs[id]);
    }
  }

  // ---------- Preservation: ownership ----------

  // Coverage survives a change of worker w when every running row is stranded, held by w
  // afterwards, or was already covered by somebody other than w.
  lemma CoverageTransfer(s: State, s': State, w: Wid)
    requires Coverage(s)
    requires forall v | v in s.workers && v != w :: v in s'.workers && s'.workers[v] == s.workers[v]
    requires forall id | id in s'.stranded :: id in s'.jobs && s'.jobs[id].status.Running?
    requires forall id | id in s'.jobs && s'.jobs[id].status.Running? ::
               || id in s'.stranded
               || HeldBy(s', id, w)
               || (id in s.jobs && s.jobs[id].status.Running? && id !in s.stranded && !HeldBy(s, id, w))
    ensures Coverage(s')
  {
    forall id | id in s'.jobs && s'.jobs[id].status.Running? && id !in s'.stranded && !HeldBy(s', id, w)
      ensures exists v :: HeldBy(s', id, v)
    {
      var v :| HeldBy(s, id, v);
      assert HeldBy(s', id, v);
    }
  }

  // Time passes, or rows are added: nobody's rows change.
  lemma GrowthKeepsOwnership(c: Config, s: State, s': State)
    requires Ownership(c, s)
    requires s'.workers == s.workers && s'.locks == s.locks && s'.stranded == s.stranded && s.clock <= s'.clock
    requires forall id | id in s.jobs :: id in s'.jobs && s'.jobs[id] == s.jobs[id]
    requires forall id | id in s'.jobs && id !in s.jobs :: s'.jobs[id].status.Pending?
    ensures Ownership(c, s')
  {
    assert forall id, w :: HeldBy(s', id, w) == HeldBy(s, id, w);
    forall w | w in s'.workers && InFlight(s'.workers[w])
      ensures OwnsRow(c, s', s'.workers[w])
    {
      assert OwnsRow(c, s, s.workers[w]);
    }
  }

  lemma SelectKeepsOwnership(c: Config, s: State, w: Wid, id: Id)
    requires Rows(c, s) && Ownership(c, s) && Enabled(c, s, Select(w, id))
    ensures Ownership(c, Apply(c, s, Select(w, id)))
  {
    var s' := Apply(c, s, Select(w, id));
    DueNow(c, s, id);
    SelectKeepsLocks(s, w, id, s');
    ReleaseKeepsOwners(c, s, w, s');
    CoverageTransfer(s, s', w);
  }

  lemma DueNow(c: Config, s: State, id: Id)
    requires Rows(c, s) && id in s.jobs
    ensures ClaimTimely(s.clock, s.jobs[id], s.clock)
  {
    assert RowOk(c.skew, s.clock, s.jobs[id]);
  }

  lemma SelectKeepsLocks(s: State, w: Wid, id: Id, s': State)
    requires Locks(s) && w in s.workers && s.workers[w].Idle? && Claimable(s, id)
    requires ClaimTimely(s.clock, s.jobs[id], s.clock)
    requires s' == SetWorker(s.(locks := s.locks[id := w]), w, Selected(id, s.clock))
    ensures Locks(s')
  {
  }

  // The claimed row was locked, hence pending, hence held by nobody.
  ghost predicate ClaimsRow(s: State, w: Wid, s': State)
    requires w in s.workers && s.workers[w].Selected? && s.workers[w].id in s.jobs
  {
    var id := s.workers[w].id;
    var row := ClaimedRow(s.jobs[id], s.workers[w].at);
    && s'.jobs == s.jobs[id := row] && s'.locks == s.locks - {id} && s'.clock == s.clock
    && w in s'.workers && s'.workers == s.workers[w := s'.workers[w]]
    && (|| (s'.workers[w] == Idle && s'.stranded == s.stranded + {id})
        || (s'.workers[w] == Executing(row, false) && s'.stranded == s.stranded))
  }

  lemma ClaimKeepsOwnership(c: Config, s: State, w: Wid, s': State)
    requires Rows(c, s) && Ownership(c, s) && w in s.workers && s.workers[w].Selected? && ClaimsRow(s, w, s')
    ensures Ownership(c, s')
  {
    var id := s.workers[w].id;
    assert s.jobs[id].status.Pending? && s.jobs[id].id == id;
    PendingHeldByNobody(c, s, id);
    ClaimKeepsLocks(s, w, s');
    ClaimKeepsOwners(c, s, w, s');
    ClaimKeepsCoverage(c, s, w, s');
  }

  lemma PendingHeldByNobody(c: Config, s: State, id: Id)
    requires Owners(c, s) && id in s.jobs && s.jobs[id].status.Pending?
    ensures forall v :: !HeldBy(s, id, v)
  {
  }

  lemma ClaimKeepsCoverage(c: Config, s: State, w: Wid, s': State)
    requires Coverage(s) && w in s.workers && s.workers[w].Selected? && s.workers[w].id in s.jobs
    requires s.jobs[s.workers[w].id].id == s.workers[w].id && s.jobs[s.workers[w].id].status.Pending?
    requires ClaimsRow(s, w, s')
    ensures Coverage(s')
  {
    assert s'.workers[w] != Idle ==> HeldBy(s', s.workers[w].id, w);
    CoverageTransfer(s, s', w);
  }

  lemma ClaimKeepsLocks(s: State, w: Wid, s': State)
    requires Locks(s) && w in s.workers && s.workers[w].Selected?
    requires var id := s.workers[w].id;
             && s'.jobs == s.jobs[id := ClaimedRow(s.jobs[id], s.workers[w].at)]
             && s'.locks == s.locks - {id} && s'.clock == s.clock
    requires w in s'.workers && !s'.workers[w].Selected? && s'.workers == s.workers[w := s'.workers[w]]
    ensures Locks(s')
  {
  }

  lemma ClaimKeepsOwners(c: Config, s: State, w: Wid, s': State)
    requires Owners(c, s) && w in s.workers && s.workers[w].Selected?
    requires var id := s.workers[w].id;
             && id in s.jobs && s.jobs[id].id == id && (forall v :: !HeldBy(s, id, v))
             && s'.jobs == s.jobs[id := ClaimedRow(s.jobs[id], s.workers[w].at)] && s'.clock == s.clock
             && (forall i | i != id :: i in s'.stranded <==> i in s.stranded)
             && w in s'.workers && s'.workers == s.workers[w := s'.workers[w]]
             && (s'.workers[w] == Idle || (s'.workers[w] == Executing(s'.jobs[id], false) && id !in s'.stranded))
    ensures Owners(c, s')
  {
    var id := s.workers[w].id;
    forall v | v in s'.workers && InFlight(s'.workers[v])
      ensures OwnsRow(c, s', s'.workers[v])
    {
      if v != w {
        assert OwnsRow(c, s, s.workers[v]) && HeldBy(s, s.workers[v].job.id, v);
      }
    }
    forall i, u, v | HeldBy(s', i, u) && HeldBy(s', i, v)
      ensures u == v
    {
      assert u != w ==> HeldBy(s, i, u);
      assert v != w ==> HeldBy(s, i, v);
    }
  }

  // Executing and finishing touch neither rows nor locks.
  lemma ExecutionKeepsOwnership(c: Config, s: State, w: Wid, x: Worker, s': State)
    requires Ownership(c, s) && w in s.workers && s.workers[w].Executing?
    requires InFlight(x) && x.job == s.workers[w].job && OwnsRow(c, s, x)
    requires s'.workers == s.workers[w := x]
    requires s'.jobs == s.jobs && s'.locks == s.locks && s'.stranded == s.stranded && s'.clock == s.clock
    ensures Ownership(c, s')
  {
    assert Locks(s');
    assert forall i, v :: HeldBy(s', i, v) == HeldBy(s, i, v);
    assert Owners(c, s');
    CoverageTransfer(s, s', w);
  }

  // The row written is the one the worker still holds, so no other worker notices.
  lemma UpdateKeepsOwnership(c: Config, s: State, w: Wid)
    requires Ownership(c, s) && Enabled(c, s, Update(w))
    ensures Ownership(c, Apply(c, s, Update(w)))
  {
    var s', x := Apply(c, s, Update(w)), s.workers[w];
    var row := UpdatedRow(x.job, FinishParams(x.job, x.outcome, x.now));
    assert OwnsRow(c, s, x) && HeldBy(s, x.job.id, w);
    assert s'.jobs == s.jobs[x.job.id := row] && !row.status.Running?;
    assert Locks(s');
    ReleaseKeepsOwners(c, s, w, s');
    CoverageTransfer(s, s', w);
  }

  // A worker that ends up holding nothing frees its own row and nobody else's.
  lemma ReleaseKeepsOwners(c: Config, s: State, w: Wid, s': State)
    requires Owners(c, s) && w in s.workers && w in s'.workers && !InFlight(s'.workers[w])
    requires s'.workers == s.workers[w := s'.workers[w]]
    requires s'.clock == s.clock
    requires forall id | id in s.jobs && !HeldBy(s, id, w) ::
               id in s'.jobs && s'.jobs[id] == s.jobs[id] && (id in s'.stranded <==> id in s.stranded)
    ensures Owners(c, s')
  {
    forall v | v in s'.workers && InFlight(s'.workers[v])
      ensures OwnsRow(c, s', s'.workers[v])
    {
      assert OwnsRow(c, s, s.workers[v]) && HeldBy(s, s.workers[v].job.id, v);
    }
    forall i, u, v | HeldBy(s', i, u) && HeldBy(s', i, v)
      ensures u == v
    {
      assert HeldBy(s, i, u) && HeldBy(s, i, v);
    }
  }

  // A worker that stops in flight leaves its row stranded.
  lemma StopKeepsOwnership(c: Config, s: State, w: Wid, s': State)
    requires Ownership(c, s) && w in s.workers && InFlight(s.workers[w])
    requires s' == SetWorker(s.(stranded := s.stranded + {s.workers[w].job.id}), w, Idle)
    ensures Ownership(c, s')
  {
    assert OwnsRow(c, s, s.workers[w]);
    assert Locks(s');
    ReleaseKeepsOwners(c, s, w, s');
    CoverageTransfer(s, s', w);
  }

  // A worker that stops before its claim commits only gives up its row lock.
  lemma RollbackKeepsOwnership(c: Config, s: State, w: Wid, s': State)
    requires Ownership(c, s) && w in s.workers && s.workers[w].Selected?
    requires s' == SetWorker(s.(locks := s.locks - {s.workers[w].id}), w, Idle)
    ensures Ownership(c, s')
  {
    assert Locks(s');
    ReleaseKeepsOwners(c, s, w, s');
    CoverageTransfer(s, s', w);
  }

  lemma CommitClaimsRow(c: Config, s: State, a: Step)
    requires Enabled(c, s, a) && (a.CommitClaim? || a.ClaimReplyLost?)
    ensures ClaimsRow(s, a.w, Apply(c, s, a))
  {
  }

  lemma OwnershipStep(c: Config, s: State, a: Step)
    requires Rows(c, s) && Ownership(c, s) && Enabled(c, s, a)
    ensures Ownership(c, Apply(c, s, a))
  {
    match a
    case Tick(_) => GrowthKeepsOwnership(c, s, Apply(c, s, a));
    case Create(_, _, _, _, _) => GrowthKeepsOwnership(c, s, Apply(c, s, a));
    case Select(w, id) => SelectKeepsOwnership(c, s, w, id);
    case NoRows(_) =>
    case CommitClaim(w) =>
      CommitClaimsRow(c, s, a);
      ClaimKeepsOwnership(c, s, w, Apply(c, s, a));
    case ClaimReplyLost(w) =>
      CommitClaimsRow(c, s, a);
      ClaimKeepsOwnership(c, s, w, Apply(c, s, a));
    case InsertResult(w) =>
      assert OwnsRow(c, s, s.workers[w]);
      ExecutionKeepsOwnership(c, s, w, Executing(s.workers[w].job, true), Apply(c, s, a));
    case ExecOk(w, now) =>
      EndKeepsOwnership(c, s, w, Success, now);
    case ExecFail(w, now, message) =>
      EndKeepsOwnership(c, s, w, Failure(message), now);
    case Update(w) => UpdateKeepsOwnership(c, s, w);
    case UpdateLost(w) => StopKeepsOwnership(c, s, w, Apply(c, s, a));
    case Crash(w) =>
      if s.workers[w].Selected? {
        RollbackKeepsOwnership(c, s, w, Apply(c, s, a));
      } else {
        StopKeepsOwnership(c, s, w, Apply(c, s, a));
      }
  }

  lemma EndKeepsOwnership(c: Config, s: State, w: Wid, outcome: Outcome, now: Time)
    requires Rows(c, s) && Ownership(c, s) && w in s.workers && s.workers[w].Executing? && Near(c, s.clock, now)
    ensures Ownership(c, EndExecution(s, w, outcome, now))
  {
    var j := s.workers[w].job;
    assert OwnsRow(c, s, s.workers[w]) && RowOk(c.skew, s.clock, j);
    ExecutionKeepsOwnership(c, s, w, Finishing(j, outcome, now), EndExecution(s, w, outcome, now));
  }

  // ---------- Preservation: the event log ----------

  // Steps that write no row, log nothing and give no worker anything new to hold.
  ghost predicate Quiet(s: State, s': State) {
    && s'.jobs == s.jobs && s'.log == s.log && s'.executions == s.executions && s.clock <= s'.clock
    && (forall w | w in s'.workers && InFlight(s'.workers[w]) :: w in s.workers && s'.workers[w] == s.workers[w])
  }

  lemma QuietSteps(c: Config, s: State, a: Step)
    requires Enabled(c, s, a) && (a.Tick? || a.Select? || a.NoRows? || a.UpdateLost? || a.Crash?)
    ensures Quiet(s, Apply(c, s, a))
  {
  }

  // Rows never disappear, keep their creation time, and attempts and time only grow.
  ghost predicate Grows(s: State, s': State) {
    && s.clock <= s'.clock
    && (forall id | id in s.jobs ::
          id in s'.jobs && s.jobs[id].attempt <= s'.jobs[id].attempt && s.jobs[id].createdAt == s'.jobs[id].createdAt)
  }

  lemma StepGrows(c: Config, s: State, a: Step)
    requires Rows(c, s) && Ownership(c, s) && Enabled(c, s, a)
    ensures Grows(s, Apply(c, s, a))
  {
    forall id | id in s.jobs
      ensures var s' := Apply(c, s, a);
              && id in s'.jobs && s.jobs[id].attempt <= s'.jobs[id].attempt
              && s.jobs[id].createdAt == s'.jobs[id].createdAt
    {
      StepRefinesLifecycle(c, s, a, id);
    }
  }

  ghost predicate ClaimsOk(c: Config, s: State, log: seq<Event>) {
    forall i | 0 <= i < |log| && log[i].Claimed? :: ClaimOk(c, s, log[i])
  }

  lemma ClaimsStayOk(c: Config, s: State, s': State)
    requires ClaimsOk(c, s, s.log) && Grows(s, s')
    ensures ClaimsOk(c, s', s.log)
  {
    forall i | 0 <= i < |s.log| && s.log[i].Claimed?
      ensures ClaimOk(c, s', s.log[i])
    {
      assert ClaimOk(c, s, s.log[i]);
    }
  }

  lemma ClaimLogsClaim(c: Config, s: State, w: Wid)
    requires Rows(c, s) && Locks(s) && ClaimLog(c, s) && w in s.workers && s.workers[w].Selected?
    requires Grows(s, TakeRow(s, w))
    ensures ClaimLog(c, TakeRow(s, w))
  {
    var s', id, at := TakeRow(s, w), s.workers[w].id, s.workers[w].at;
    ClaimsStayOk(c, s, s');
    NewClaimOk(c, s, w);
    ClaimCounted(s, s', id, at);
  }

  // The claim is logged with the next attempt number.
  lemma ClaimCounted(s: State, s': State, id: Id, at: Time)
    requires id in s.jobs && (forall other :: Claims(s.log, other) == UpTo(Attempts(s, other)))
    requires s'.jobs == s.jobs[id := ClaimedRow(s.jobs[id], at)]
    requires s'.log == s.log + [Claimed(id, s.jobs[id].attempt + 1, at)]
    ensures forall other :: Claims(s'.log, other) == UpTo(Attempts(s', other))
  {
    LogAppend(s.log, Claimed(id, s.jobs[id].attempt + 1, at));
  }

  // A pending row carries the backoff bound of the claim it is waiting for.
  lemma NewClaimOk(c: Config, s: State, w: Wid)
    requires Rows(c, s) && Locks(s) && w in s.workers && s.workers[w].Selected?
    ensures var s', id := TakeRow(s, w), s.workers[w].id;
            ClaimOk(c, s', Claimed(id, s'.jobs[id].attempt, s.workers[w].at))
  {
    assert RowOk(c.skew, s.clock, s.jobs[s.workers[w].id]);
  }

  lemma CommitKeepsClaimLog(c: Config, s: State, a: Step)
    requires Rows(c, s) && Ownership(c, s) && ClaimLog(c, s) && Enabled(c, s, a)
    requires a.CommitClaim? || a.ClaimReplyLost?
    ensures ClaimLog(c, Apply(c, s, a))
  {
    StepGrows(c, s, a);
    ClaimLogsClaim(c, s, a.w);
    ClaimLogFrame(c, TakeRow(s, a.w), Apply(c, s, a));
  }

  lemma UpdateKeepsClaimLog(c: Config, s: State, w: Wid)
    requires Rows(c, s) && Ownership(c, s) && ClaimLog(c, s) && Enabled(c, s, Update(w))
    ensures ClaimLog(c, Apply(c, s, Update(w)))
  {
    var s' := Apply(c, s, Update(w));
    StepGrows(c, s, Update(w));
    HolderRow(c, s, w);
    ClaimsStayOk(c, s, s');
    forall id
      ensures Claims(s'.log, id) == UpTo(Attempts(s', id))
    {
      UpdateRefines(c, s, w, id);
      assert Claims(s.log, id) == UpTo(Attempts(s, id));
    }
  }

  lemma CreateKeepsClaimLog(c: Config, s: State, a: Step)
    requires ClaimLog(c, s) && Enabled(c, s, a) && a.Create?
    ensures ClaimLog(c, Apply(c, s, a))
  {
    LogAppend(s.log, Created(a.id));
    ClaimsStayOk(c, s, Apply(c, s, a));
  }

  lemma OthersKeepClaimLog(c: Config, s: State, a: Step)
    requires ClaimLog(c, s) && Enabled(c, s, a)
    requires a.Tick? || a.Select? || a.NoRows? || a.UpdateLost? || a.Crash? || a.InsertResult?
    ensures ClaimLog(c, Apply(c, s, a))
  {
    if !a.InsertResult? {
      QuietSteps(c, s, a);
    }
    ClaimLogFrame(c, s, Apply(c, s, a));
  }

  lemma ClaimLogStep(c: Config, s: State, a: Step)
    requires Rows(c, s) && Ownership(c, s) && ClaimLog(c, s) && Enabled(c, s, a)
    ensures ClaimLog(c, Apply(c, s, a))
  {
    match a
    case CommitClaim(_) => CommitKeepsClaimLog(c, s, a);
    case ClaimReplyLost(_) => CommitKeepsClaimLog(c, s, a);
    case Update(w) => UpdateKeepsClaimLog(c, s, w);
    case Create(_, _, _, _, _) => CreateKeepsClaimLog(c, s, a);
    case ExecOk(w, now) => EndKeepsClaimLog(c, s, w, Success, now);
    case ExecFail(w, now, message) => EndKeepsClaimLog(c, s, w, Failure(message), now);
    case _ => OthersKeepClaimLog(c, s, a);
  }

  lemma EndKeepsClaimLog(c: Config, s: State, w: Wid, outcome: Outcome, now: Time)
    requires ClaimLog(c, s) && w in s.workers && s.workers[w].Executing?
    ensures ClaimLog(c, EndExecution(s, w, outcome, now))
  {
    LogAppend(s.log, Ended(s.workers[w].job.id, s.workers[w].job.attempt, outcome, now));
    ClaimsStayOk(c, s, EndExecution(s, w, outcome, now));
  }

  lemma ClaimLogFrame(c: Config, s: State, s': State)
    requires ClaimLog(c, s) && s'.log == s.log && s'.jobs == s.jobs && s.clock <= s'.clock
    ensures ClaimLog(c, s')
  {
    ClaimsStayOk(c, s, s');
    forall id
      ensures Claims(s'.log, id) == UpTo(Attempts(s', id))
    {
      assert Claims(s.log, id) == UpTo(Attempts(s, id));
    }
  }

  // ---------- Preservation: endings ----------

  // Nothing ends: rows and workers may only change to ones the outcomes still match.
  lemma EndLogFrame(s: State, s': State)
    requires EndLog(s)
    requires forall id :: Ends(s'.log, id) == Ends(s.log, id) && Endings(s'.log, id) == Endings(s.log, id)
    requires forall id | id in s.jobs :: id in s'.jobs
    requires forall id | id in s'.jobs ::
               || (id in s.jobs && s'.jobs[id] == s.jobs[id])
               || OutcomesMatchRow(s'.jobs[id], Endings(s.log, id))
    requires forall w | w in s'.workers && InFlight(s'.workers[w]) ::
               || (w in s.workers && s'.workers[w] == s.workers[w])
               || OutcomesMatchWorker(s'.workers[w], Endings(s.log, s'.workers[w].job.id))
    ensures EndLog(s')
  {
    forall id
      ensures Ends(s'.log, id) == UpTo(|Endings(s'.log, id)|)
    {
      assert Ends(s.log, id) == UpTo(|Endings(s.log, id)|);
    }
  }

  // The attempt that ends is the next one to end for its job; other jobs and their holders are not concerned.
  lemma EndKeepsEndLog(c: Config, s: State, w: Wid, outcome: Outcome, now: Time)
    requires Owners(c, s) && EndLog(s) && w in s.workers && s.workers[w].Executing?
    ensures EndLog(EndExecution(s, w, outcome, now))
  {
    var s', j := EndExecution(s, w, outcome, now), s.workers[w].job;
    assert OwnsRow(c, s, s.workers[w]) && HeldBy(s, j.id, w);
    assert OutcomesMatchWorker(s.workers[w], Endings(s.log, j.id));
    LogAppend(s.log, Ended(j.id, j.attempt, outcome, now));
    EndingGrows(s, s', j, outcome, now);
    forall v | v in s'.workers && InFlight(s'.workers[v])
      ensures OutcomesMatchWorker(s'.workers[v], Endings(s'.log, s'.workers[v].job.id))
    {
      assert v != w ==> HeldBy(s, s.workers[v].job.id, v);
      assert OutcomesMatchWorker(s.workers[v], Endings(s.log, s.workers[v].job.id));
    }
  }

  lemma EndingGrows(s: State, s': State, j: Job, outcome: Outcome, now: Time)
    requires EndLog(s) && s'.jobs == s.jobs && s'.log == s.log + [Ended(j.id, j.attempt, outcome, now)]
    requires j.id in s.jobs && s.jobs[j.id] == j && j.status.Running? && |Endings(s.log, j.id)| == j.attempt - 1
    ensures forall id :: Ends(s'.log, id) == UpTo(|Endings(s'.log, id)|)
    ensures forall id | id !in s'.jobs :: Endings(s'.log, id) == []
    ensures forall id | id in s'.jobs :: OutcomesMatchRow(s'.jobs[id], Endings(s'.log, id))
  {
    LogAppend(s.log, Ended(j.id, j.attempt, outcome, now));
    EndsGrow(s.log, j.id, j.attempt, outcome, now);
    RowOutcomesGrow(s, s', j, Ending(outcome, now));
  }

  lemma EndsGrow(log: seq<Event>, id: Id, attempt: nat, outcome: Outcome, now: Time)
    requires forall other :: Ends(log, other) == UpTo(|Endings(log, other)|)
    requires |Endings(log, id)| == attempt - 1
    ensures var log' := log + [Ended(id, attempt, outcome, now)];
            forall other :: Ends(log', other) == UpTo(|Endings(log', other)|)
  {
    LogAppend(log, Ended(id, attempt, outcome, now));
    assert UpTo(attempt) == UpTo(attempt - 1) + [attempt];
  }

  lemma RowOutcomesGrow(s: State, s': State, j: Job, e: Ending)
    requires s'.jobs == s.jobs && j.id in s.jobs && s.jobs[j.id] == j && j.status.Running?
    requires |Endings(s.log, j.id)| == j.attempt - 1
    requires forall id | id in s.jobs :: OutcomesMatchRow(s.jobs[id], Endings(s.log, id))
    requires forall id :: Endings(s'.log, id)
                          == if id == j.id then Endings(s.log, id) + [e] else Endings(s.log, id)
    ensures forall id | id in s'.jobs :: OutcomesMatchRow(s'.jobs[id], Endings(s'.log, id))
  {
    forall id | id in s'.jobs
      ensures OutcomesMatchRow(s'.jobs[id], Endings(s'.log, id))
    {
      assert OutcomesMatchRow(s.jobs[id], Endings(s.log, id));
    }
  }

  // A pending row is claimed when all its attempts have ended in failure.
  lemma ClaimKeepsEndLog(s: State, w: Wid, id: Id, at: Time, e: Event, s': State)
    requires EndLog(s) && id in s.jobs && s.jobs[id].id == id && s.jobs[id].status.Pending?
    requires s'.jobs == s.jobs[id := ClaimedRow(s.jobs[id], at)] && s'.log == s.log + [e] && !e.Ended?
    requires s'.workers == s.workers[w := Idle]
             || s'.workers == s.workers[w := Executing(ClaimedRow(s.jobs[id], at), false)]
    ensures EndLog(s')
  {
    assert OutcomesMatchRow(s.jobs[id], Endings(s.log, id));
    ClaimedOutcomes(s.jobs[id], at, Endings(s.log, id));
    LogKeepsOutcomes(s.log, e);
    EndLogFrame(s, s');
  }

  lemma CommitKeepsEndLog(c: Config, s: State, a: Step)
    requires Rows(c, s) && Locks(s) && EndLog(s) && Enabled(c, s, a) && (a.CommitClaim? || a.ClaimReplyLost?)
    ensures EndLog(Apply(c, s, a))
  {
    var id, at := s.workers[a.w].id, s.workers[a.w].at;
    var e := Claimed(id, s.jobs[id].attempt + 1, at);
    ClaimKeepsEndLog(s, a.w, id, at, e, Apply(c, s, a));
  }

  lemma LogKeepsOutcomes(log: seq<Event>, e: Event)
    requires !e.Ended?
    ensures forall id :: Ends(log + [e], id) == Ends(log, id) && Endings(log + [e], id) == Endings(log, id)
  {
    LogAppend(log, e);
  }

  lemma ClaimedOutcomes(j: Job, at: Time, q: seq<Ending>)
    requires OutcomesMatchRow(j, q) && j.status.Pending?
    ensures OutcomesMatchRow(ClaimedRow(j, at), q)
    ensures OutcomesMatchWorker(Executing(ClaimedRow(j, at), false), q)
  {
  }

  lemma UpdateKeepsEndLog(c: Config, s: State, w: Wid)
    requires Owners(c, s) && EndLog(s) && Enabled(c, s, Update(w))
    ensures EndLog(Apply(c, s, Update(w)))
  {
    var x := s.workers[w];
    assert OwnsRow(c, s, x);
    HolderOutcomes(s, w);
    WrittenOutcomes(x, Endings(s.log, x.job.id));
    EndLogFrame(s, Apply(c, s, Update(w)));
  }

  lemma HolderOutcomes(s: State, w: Wid)
    requires EndLog(s) && w in s.workers && InFlight(s.workers[w])
    requires var j := s.workers[w].job; j.id in s.jobs && s.jobs[j.id] == j
    ensures var j := s.workers[w].job;
            OutcomesMatchRow(j, Endings(s.log, j.id)) && OutcomesMatchWorker(s.workers[w], Endings(s.log, j.id))
  {
  }

  lemma WrittenOutcomes(x: Worker, q: seq<Ending>)
    requires x.Finishing? && x.job.status.Running? && OutcomesMatchRow(x.job, q) && OutcomesMatchWorker(x, q)
    ensures OutcomesMatchRow(UpdatedRow(x.job, FinishParams(x.job, x.outcome, x.now)), q)
  {
  }

  lemma OthersKeepEndLog(c: Config, s: State, a: Step)
    requires EndLog(s) && Enabled(c, s, a)
    requires a.Tick? || a.Select? || a.NoRows? || a.UpdateLost? || a.Crash? || a.InsertResult? || a.Create?
    ensures EndLog(Apply(c, s, a))
  {
    if a.Create? {
      LogKeepsOutcomes(s.log, Created(a.id));
    } else if a.InsertResult? {
      assert OutcomesMatchWorker(s.workers[a.w], Endings(s.log, s.workers[a.w].job.id));
    } else {
      QuietSteps(c, s, a);
    }
    EndLogFrame(s, Apply(c, s, a));
  }

  lemma EndLogStep(c: Config, s: State, a: Step)
    requires Rows(c, s) && Ownership(c, s) && EndLog(s) && Enabled(c, s, a)
    ensures EndLog(Apply(c, s, a))
  {
    match a
    case CommitClaim(_) => CommitKeepsEndLog(c, s, a);
    case ClaimReplyLost(_) => CommitKeepsEndLog(c, s, a);
    case ExecOk(w, now) => EndKeepsEndLog(c, s, w, Success, now);
    case ExecFail(w, now, message) => EndKeepsEndLog(c, s, w, Failure(message), now);
    case Update(w) => UpdateKeepsEndLog(c, s, w);
    case _ => OthersKeepEndLog(c, s, a);
  }

  // ---------- Preservation: results ----------

  // Nothing is inserted: rows and workers may only change to ones the counts still match.
  lemma ResultsFrame(c: Config, s: State, s': State)
    requires Results(c, s) && s'.executions == s.executions
    requires forall id | id in s.jobs :: id in s'.jobs && SameIdentity(s.jobs[id], s'.jobs[id])
    requires forall id | id in s'.jobs ::
               || (id in s.jobs && s'.jobs[id] == s.jobs[id])
               || ResultsMatchRow(c, s'.jobs[id], ResultsOf(s.executions, id))
    requires forall w | w in s'.workers && InFlight(s'.workers[w]) ::
               || (w in s.workers && s'.workers[w] == s.workers[w])
               || ResultsMatchWorker(c, s'.workers[w], ResultsOf(s.executions, s'.workers[w].job.id))
    ensures Results(c, s')
  {
  }

  lemma {:induction false} NoResults(executions: seq<Execution>, id: Id)
    requires forall i | 0 <= i < |executions| :: executions[i].job != id
    ensures ResultsOf(executions, id) == 0
  {
    if executions != [] {
      NoResults(executions[..|executions| - 1], id);
    }
  }

  lemma ClaimKeepsResults(c: Config, s: State, w: Wid, id: Id, at: Time, s': State)
    requires Results(c, s) && id in s.jobs && s.jobs[id].id == id && s.jobs[id].status.Pending?
    requires s'.jobs == s.jobs[id := ClaimedRow(s.jobs[id], at)] && s'.executions == s.executions
    requires s'.workers == s.workers[w := Idle]
             || s'.workers == s.workers[w := Executing(ClaimedRow(s.jobs[id], at), false)]
    ensures Results(c, s')
  {
    assert ResultsMatchRow(c, s.jobs[id], ResultsOf(s.executions, id));
    ResultsFrame(c, s, s');
  }

  lemma CommitKeepsResults(c: Config, s: State, a: Step)
    requires Rows(c, s) && Locks(s) && Results(c, s) && Enabled(c, s, a) && (a.CommitClaim? || a.ClaimReplyLost?)
    ensures Results(c, Apply(c, s, a))
  {
    ClaimKeepsResults(c, s, a.w, s.workers[a.w].id, s.workers[a.w].at, Apply(c, s, a));
  }

  lemma InsertKeepsResults(c: Config, s: State, w: Wid)
    requires Rows(c, s) && Ownership(c, s) && Results(c, s) && Enabled(c, s, InsertResult(w))
    ensures Results(c, Apply(c, s, InsertResult(w)))
  {
    var s', j := Apply(c, s, InsertResult(w)), s.workers[w].job;
    assert OwnsRow(c, s, s.workers[w]) && HeldBy(s, j.id, w);
    assert ResultsMatchWorker(c, s.workers[w], ResultsOf(s.executions, j.id));
    ResultsAppend(s.executions, Execution(j.id, j.tenant));
    forall id | id in s'.jobs
      ensures ResultsMatchRow(c, s'.jobs[id], ResultsOf(s'.executions, id))
    {
      assert ResultsMatchRow(c, s.jobs[id], ResultsOf(s.executions, id));
    }
    forall v | v in s'.workers && InFlight(s'.workers[v])
      ensures ResultsMatchWorker(c, s'.workers[v], ResultsOf(s'.executions, s'.workers[v].job.id))
    {
      assert v != w ==> HeldBy(s, s.workers[v].job.id, v);
      assert ResultsMatchWorker(c, s.workers[v], ResultsOf(s.executions, s.workers[v].job.id));
    }
  }

  lemma EndKeepsResults(c: Config, s: State, w: Wid, outcome: Outcome, now: Time)
    requires Results(c, s) && w in s.workers && s.workers[w].Executing?
    requires outcome.Success? ==> var x := s.workers[w];
                                  x.job.jobType in REGISTERED && (x.job.jobType == CODE_JOB ==> x.inserted)
    requires outcome.Failure? && s.workers[w].inserted ==> c.lossyInserts
    ensures Results(c, EndExecution(s, w, outcome, now))
  {
    var j := s.workers[w].job;
    assert ResultsMatchWorker(c, s.workers[w], ResultsOf(s.executions, j.id));
    assert ResultsMatchWorker(c, Finishing(j, outcome, now), ResultsOf(s.executions, j.id));
    ResultsFrame(c, s, EndExecution(s, w, outcome, now));
  }

  lemma UpdateKeepsResults(c: Config, s: State, w: Wid)
    requires Owners(c, s) && Results(c, s) && Enabled(c, s, Update(w)) && s.workers[w].job.attempt >= 1
    ensures Results(c, Apply(c, s, Update(w)))
  {
    var s', x := Apply(c, s, Update(w)), s.workers[w];
    var row := UpdatedRow(x.job, FinishParams(x.job, x.outcome, x.now));
    assert OwnsRow(c, s, x) && s'.jobs == s.jobs[x.job.id := row];
    FinishedRowMatches(c, x, ResultsOf(s.executions, x.job.id));
    ResultsFrame(c, s, s');
  }

  lemma FinishedRowMatches(c: Config, x: Worker, n: nat)
    requires x.Finishing? && x.job.attempt >= 1
    requires ResultsMatchRow(c, x.job, n) && ResultsMatchWorker(c, x, n)
    ensures ResultsMatchRow(c, UpdatedRow(x.job, FinishParams(x.job, x.outcome, x.now)), n)
  {
  }

  lemma CreateKeepsResults(c: Config, s: State, a: Step)
    requires Results(c, s) && Enabled(c, s, a) && a.Create?
    ensures Results(c, Apply(c, s, a))
  {
    NoResults(s.executions, a.id);
    ResultsFrame(c, s, Apply(c, s, a));
  }

  lemma ResultsStep(c: Config, s: State, a: Step)
    requires Rows(c, s) && Ownership(c, s) && Results(c, s) && Enabled(c, s, a)
    ensures Results(c, Apply(c, s, a))
  {
    match a
    case Create(_, _, _, _, _) => CreateKeepsResults(c, s, a);
    case CommitClaim(_) => CommitKeepsResults(c, s, a);
    case ClaimReplyLost(_) => CommitKeepsResults(c, s, a);
    case InsertResult(w) => InsertKeepsResults(c, s, w);
    case ExecOk(w, now) => EndKeepsResults(c, s, w, Success, now);
    case ExecFail(w, now, message) => EndKeepsResults(c, s, w, Failure(message), now);
    case Update(w) =>
      HolderRow(c, s, w);
      UpdateKeepsResults(c, s, w);
    case _ => QuietKeepsResults(c, s, a);
  }

  lemma QuietKeepsResults(c: Config, s: State, a: Step)
    requires Results(c, s) && Enabled(c, s, a) && (a.Tick? || a.Select? || a.NoRows? || a.UpdateLost? || a.Crash?)
    ensures Results(c, Apply(c, s, a))
  {
    QuietSteps(c, s, a);
    ResultsFrame(c, s, Apply(c, s, a));
  }

  // ---------- The invariant holds initially and every step keeps it ----------

  lemma InitInv(c: Config, s: State)
    requires Init(s)
    ensures Inv(c, s)
  {
  }

  lemma InvStep(c: Config, s: State, a: Step)
    requires Inv(c, s) && Enabled(c, s, a)
    ensures Inv(c, Apply(c, s, a))
  {
    RowsStep(c, s, a);
    OwnershipStep(c, s, a);
    ClaimLogStep(c, s, a);
    EndLogStep(c, s, a);
    ResultsStep(c, s, a);
  }
}
