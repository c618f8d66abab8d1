/**
 The life of one job as an automaton of its own, with atomic moves:

   pending k -> running k+1 -> completed | pending k+1 | failed

 A move out of running names the attempt k it was made for and is allowed
 only while the row is still running that attempt. This is the reference the
 interleaved queue is compared with.
 */
module Lifecycle {
  import opened Prelude
  import opened Backoff
  import opened Jobs
  import opened Payloads

  datatype Move =
    | Create(tenant: Id, jobType: string, payload: Object, maxAttempts: int, at: Time)
    | Claim(at: Time)
    | Complete(k: nat, now: Time)
    | Retry(k: nat, now: Time, message: string)
    | GiveUp(k: nat, message: string)

  ghost predicate CanMove(row: Option<Job>, m: Move) {
    match m
    case Create(_, _, _, maxAttempts, _) => row.None? && 1 <= maxAttempts <= INT32_MAX
    case Claim(at) => row.Some? && row.value.status.Pending? && row.value.runAt <= at
    case Complete(k, _) => row.Some? && row.value.status.Running? && row.value.attempt == k
    case Retry(k, _, _) =>
      row.Some? && row.value.status.Running? && row.value.attempt == k && k < row.value.maxAttempts
    case GiveUp(k, _) =>
      row.Some? && row.value.status.Running? && row.value.attempt == k && k >= row.value.maxAttempts
  }

  ghost function Moved(id: Id, row: Option<Job>, m: Move): (r: Job)
    requires CanMove(row, m)
  {
    match m
    case Create(tenant, jobType, payload, maxAttempts, at) =>
      Job(id, tenant, jobType, payload, Pending, 0, maxAttempts, None, at, None, None, at)
    case Claim(at) => row.value.(status := Running, attempt := row.value.attempt + 1, startedAt := Some(at))
    case Complete(_, now) => row.value.(status := Completed, error := None, completedAt := Some(now))
    case Retry(k, now, message) => row.value.(status := Pending, error := Some(message), runAt := now + Delay(k))
    case GiveUp(_, message) => row.value.(status := Failed, error := Some(message))
  }

  // The times a move may carry. The database clock stands at `clock`; the worker's own clock is
  // at most `skew` away from it and was read after the attempt had started.
  ghost predicate Timely(skew: nat, clock: Time, row: Option<Job>, m: Move) {
    match m
    case Create(_, _, _, _, at) => at == clock
    case Claim(at) => row.Some? && ClaimTimely(clock, row.value, at)
    case Complete(_, now) => WorkerTime(skew, clock, row, now)
    case Retry(_, now, _) => WorkerTime(skew, clock, row, now)
    case GiveUp(_, _) => true
  }

  ghost predicate ClaimTimely(clock: Time, j: Job, at: Time) {
    j.createdAt <= at <= clock && (j.startedAt.Some? ==> j.startedAt.value <= at)
  }

  ghost predicate WorkerTime(skew: nat, clock: Time, row: Option<Job>, now: Time) {
    row.Some? && row.value.startedAt.Some? && row.value.startedAt.value - skew <= now <= clock + skew
  }

  // Earliest time of the n-th claim, counted from the creation of the job.
  ghost function EarliestClaim(n: nat, skew: nat): int
    requires n >= 1
  {
    Floor(n - 1) - (n - 1) * skew
  }

  // Coherence of the columns of a row.
  ghost predicate RowOk(skew: nat, clock: Time, j: Job) {
    && 1 <= j.maxAttempts <= INT32_MAX
    && j.attempt <= j.maxAttempts
    && (j.status.Pending? ==> j.attempt < j.maxAttempts)
    && (j.status.Failed? ==> j.attempt == j.maxAttempts)
    && (!j.status.Pending? ==> j.attempt >= 1)
    && (j.startedAt.Some? <==> j.attempt >= 1)
    && (j.completedAt.Some? <==> j.status.Completed?)
    && (j.error.Some? <==> || j.status.Failed?
                           || (j.status.Pending? && j.attempt >= 1)
                           || (j.status.Running? && j.attempt >= 2))
    && j.createdAt <= clock
    && (j.startedAt.Some? ==> j.createdAt <= j.startedAt.value <= clock)
    && (!j.status.Pending? ==> j.runAt <= j.startedAt.value)
    && (j.status.Completed? ==> j.startedAt.value - skew <= j.completedAt.value <= clock + skew)
    && (j.attempt == 0 ==> j.runAt == j.createdAt)
    && BackoffChain(skew, j)
    && LongRetried(skew, j)
  }

  // From the 30th attempt on a row has been started so long after its creation that no delay, not even a
  // negative one, brings its next run_at back before it.
  ghost predicate LongRetried(skew: nat, j: Job)
    requires j.attempt >= 1 ==> j.startedAt.Some?
  {
    && (j.attempt > LAST_EXACT ==> j.startedAt.value >= j.createdAt + ALL_EXACT - LAST_EXACT * skew)
    && (skew == 0 ==> j.createdAt <= j.runAt)
  }

  // A pending row waits for its next attempt, any other row records the attempt it has used.
  ghost predicate BackoffChain(skew: nat, j: Job)
    requires !j.status.Pending? ==> j.attempt >= 1
  {
    var n := if j.status.Pending? then j.attempt + 1 else j.attempt;
    n <= LAST_EXACT + 1 ==> j.runAt >= j.createdAt + EarliestClaim(n, skew)
  }

  lemma ThirtiethClaim(skew: nat)
    ensures EarliestClaim(LAST_EXACT + 1, skew) == ALL_EXACT - LAST_EXACT * skew
  {
    FloorOfExact();
  }

  // Every timely move of the automaton keeps the row coherent.
  lemma MoveKeepsRow(skew: nat, clock: Time, id: Id, row: Option<Job>, m: Move)
    requires row.Some? ==> RowOk(skew, clock, row.value)
    requires CanMove(row, m) && Timely(skew, clock, row, m)
    ensures RowOk(skew, clock, Moved(id, row, m))
  {
    match m
    case Create(_, _, _, _, _) =>
    case Claim(at) => ClaimedLate(skew, clock, row.value, at);
    case Complete(_, _) =>
    case GiveUp(_, _) =>
    case Retry(_, now, _) => RetriedLate(skew, row.value, now);
  }

  lemma ClaimedLate(skew: nat, clock: Time, j: Job, at: Time)
    requires RowOk(skew, clock, j) && j.status.Pending? && j.runAt <= at && ClaimTimely(clock, j, at)
    ensures j.attempt >= LAST_EXACT ==> at >= j.createdAt + ALL_EXACT - LAST_EXACT * skew
  {
    if j.attempt == LAST_EXACT {
      ThirtiethClaim(skew);
    }
  }

  // A retry keeps the backoff chain while delays are exact, and never comes before the creation.
  lemma RetriedLate(skew: nat, j: Job, now: Time)
    requires j.attempt >= 1 && !j.status.Pending? && j.startedAt.Some? && now >= j.startedAt.value - skew
    requires BackoffChain(skew, j) && LongRetried(skew, j) && j.runAt <= j.startedAt.value
    ensures j.attempt <= LAST_EXACT ==> now + Delay(j.attempt) >= j.createdAt + EarliestClaim(j.attempt + 1, skew)
    ensures skew == 0 ==> j.createdAt <= now + Delay(j.attempt)
  {
    var k := j.attempt;
    if k <= LAST_EXACT {
      DelayExactIff(k);
      FloorStep(k);
      assert k * skew == (k - 1) * skew + skew;
      assert EarliestClaim(k + 1, skew) == EarliestClaim(k, skew) + Delay(k) - skew;
      DelayDoubles(k);
    } else {
      assert ALL_EXACT > TWO63;
    }
  }

  lemma ClockKeepsRow(skew: nat, clock: Time, later: Time, j: Job)
    requires RowOk(skew, clock, j) && clock <= later
    ensures RowOk(skew, later, j)
  {
  }

  // What no move ever changes, and what only grows.
  lemma MovePreserves(id: Id, row: Option<Job>, m: Move)
    requires row.Some? && CanMove(row, m)
    ensures var r := Moved(id, row, m);
            && SameIdentity(row.value, r)
            && row.value.attempt <= r.attempt
            && !row.value.status.Completed? && !row.value.status.Failed?
  {
  }

  ghost predicate SameIdentity(a: Job, b: Job) {
    && a.id == b.id && a.tenant == b.tenant && a.jobType == b.jobType && a.payload == b.payload
    && a.maxAttempts == b.maxAttempts && a.createdAt == b.createdAt
  }
}
