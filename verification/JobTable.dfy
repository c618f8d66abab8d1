/**
 The store: the jobs table changed in place, with its partial index on run_at
 over the pending rows, and the code_executions table.
 */
module JobTable {
  import opened Prelude
  import opened Jobs
  import opened Payloads
  import Queue

  // The partial index holds the pending rows and no others, in the order of run_at.
  ghost predicate IndexOk(jobs: map<Id, Job>, index: seq<Id>) {
    && Distinct(index)
    && (forall id :: id in index <==> id in jobs && jobs[id].status.Pending?)
    && (forall i, j | 0 <= i < j < |index| :: RunsBefore(jobs, index[i], index[j]))
  }

  ghost predicate RunsBefore(jobs: map<Id, Job>, a: Id, b: Id) {
    a in jobs && b in jobs && jobs[a].runAt <= jobs[b].runAt
  }

  // The rows the claim's subquery may return under the given row locks.
  ghost function View(jobs: map<Id, Job>, clock: Time, locks: map<Id, nat>): Queue.State {
    Queue.State(clock, jobs, locks, map[], [], [], {})
  }

  class Table {
    var clock: Time
    var jobs: map<Id, Job>
    var index: seq<Id>
    var executions: seq<Queue.Execution>

    ghost predicate Valid()
      reads this
    {
      IndexOk(jobs, index) && forall id | id in jobs :: jobs[id].id == id
    }

    constructor (now: Time)
      ensures Valid() && clock == now && jobs == map[] && executions == []
    {
      clock, jobs, index, executions := now, map[], [], [];
    }

    method AddToIndex(id: Id)
      requires id in jobs && id !in index && jobs[id].status.Pending?
      requires IndexOk(jobs - {id}, index)
      modifies this`index
      ensures IndexOk(jobs, index)
    {
      var i := 0;
      IndexedRowsExist(jobs - {id}, index);
      while i < |index| && jobs[index[i]].runAt <= jobs[id].runAt
        invariant 0 <= i <= |index|
        invariant forall k | 0 <= k < i :: RunsBefore(jobs, index[k], id)
      {
        i := i + 1;
      }
      ghost var was := index;
      index := index[..i] + [id] + index[i..];
      InsertKeepsOrder(jobs, was, i, id);
    }

    method DropFromIndex(id: Id)
      requires IndexOk(jobs, index) && id in index
      modifies this`index
      ensures IndexOk(jobs - {id}, index) && id !in index
    {
      var i := 0;
      while index[i] != id
        invariant 0 <= i < |index|
        invariant id in index[i..]
        decreases |index| - i
      {
        i := i + 1;
      }
      ghost var was := index;
      index := index[..i] + index[i + 1..];
      RemoveKeepsOrder(jobs, was, i);
    }

    // A new row with the column defaults, under a fresh id.
    method CreateJob(id: Id, tenant: Id, jobType: string, payload: Object, maxAttempts: int) returns (job: Job)
      requires Valid() && id !in jobs
      modifies this`jobs, this`index
      ensures Valid()
      ensures job == InsertedRow(id, tenant, jobType, payload, maxAttempts, clock)
      ensures jobs == old(jobs)[id := job]
    {
      job := InsertedRow(id, tenant, jobType, payload, maxAttempts, clock);
      assert id !in index;
      jobs := jobs[id := job];
      assert jobs - {id} == old(jobs);
      AddToIndex(id);
    }

    // The row a claim locks, answered from the index: the first unlocked entry, if it is due. It is a row
    // a scan of the full table may return, and there is none exactly when the scan finds none.
    method SelectForUpdate(locks: map<Id, nat>) returns (r: Option<Id>)
      requires Valid()
      ensures r.Some? ==> Queue.FirstClaimable(View(jobs, clock, locks), r.value)
      ensures r.None? <==> forall id | id in jobs :: !Queue.Claimable(View(jobs, clock, locks), id)
    {
      var i := 0;
      while i < |index| && index[i] in locks
        invariant 0 <= i <= |index|
        invariant forall k | 0 <= k < i :: index[k] in locks
      {
        i := i + 1;
      }
      LaterEntriesRunLater(jobs, index, i, locks);
      if i < |index| && jobs[index[i]].runAt <= clock {
        assert Queue.Claimable(View(jobs, clock, locks), index[i]);
        r := Some(index[i]);
      } else {
        r := None;
      }
    }

    // Claims that row and returns it as it then is.
    method ClaimNextJob(locks: map<Id, nat>) returns (job: Option<Job>)
      requires Valid()
      modifies this`jobs, this`index
      ensures Valid()
      ensures job.None? <==> forall id | id in old(jobs) :: !Queue.Claimable(View(old(jobs), clock, locks), id)
      ensures job.None? ==> jobs == old(jobs)
      ensures job.Some? ==>
                var id := job.value.id;
                && Queue.FirstClaimable(View(old(jobs), clock, locks), id)
                && job.value == ClaimedRow(old(jobs)[id], clock)
                && jobs == old(jobs)[id := job.value]
    {
      var r := SelectForUpdate(locks);
      if r.None? {
        return None;
      }
      var id := r.value;
      DropFromIndex(id);
      var row := ClaimedRow(jobs[id], clock);
      jobs := jobs[id := row];
      assert jobs - {id} == old(jobs) - {id};
      DropKeepsIndex(jobs, index, id);
      assert Queue.FirstClaimable(View(old(jobs), clock, locks), id);
      job := Some(row);
    }

    // Overwrites four columns of the row with that id, whatever its status, and returns it.
    method UpdateJobStatus(p: UpdateParams) returns (job: Option<Job>)
      requires Valid()
      modifies this`jobs, this`index
      ensures Valid()
      ensures jobs == UpdateTable(old(jobs), p)
      ensures job == if p.id in old(jobs) then Some(UpdatedRow(old(jobs)[p.id], p)) else None
    {
      if p.id !in jobs {
        return None;
      }
      if jobs[p.id].status.Pending? {
        DropFromIndex(p.id);
      } else {
        NotIndexed(jobs, index, p.id);
      }
      assert IndexOk(jobs - {p.id}, index);
      jobs := jobs[p.id := UpdatedRow(jobs[p.id], p)];
      assert jobs - {p.id} == old(jobs) - {p.id};
      if p.status.Pending? {
        AddToIndex(p.id);
      } else {
        DropKeepsIndex(jobs, index, p.id);
      }
      job := Some(jobs[p.id]);
    }

    // A job is found under its id and its own tenant.
    method GetJob(id: Id, tenant: Id) returns (job: Option<Job>)
      ensures job.Some? <==> id in jobs && jobs[id].tenant == tenant
      ensures job.Some? ==> job.value == jobs[id]
    {
      job := if id in jobs && jobs[id].tenant == tenant then Some(jobs[id]) else None;
    }

    // Appends the result of an execution.
    method InsertCodeExecution(job: Id, tenant: Id)
      modifies this`executions
      ensures executions == old(executions) + [Queue.Execution(job, tenant)]
    {
      executions := executions + [Queue.Execution(job, tenant)];
    }
  }

  lemma IndexedRowsExist(jobs: map<Id, Job>, index: seq<Id>)
    requires IndexOk(jobs, index)
    ensures forall k | 0 <= k < |index| :: index[k] in jobs && jobs[index[k]].status.Pending?
  {
    forall k | 0 <= k < |index|
      ensures index[k] in jobs && jobs[index[k]].status.Pending?
    {
      assert index[k] in index;
    }
  }

  lemma InsertKeepsOrder(jobs: map<Id, Job>, index: seq<Id>, i: nat, id: Id)
    requires id in jobs && jobs[id].status.Pending? && id !in index && IndexOk(jobs - {id}, index)
    requires i <= |index| && forall k | 0 <= k < i :: RunsBefore(jobs, index[k], id)
    requires i < |index| ==> RunsBefore(jobs, id, index[i])
    ensures IndexOk(jobs, index[..i] + [id] + index[i..])
  {
    var index' := index[..i] + [id] + index[i..];
    IndexedRowsExist(jobs - {id}, index);
    assert index == index[..i] + index[i..];
    forall x
      ensures x in index' <==> x in jobs && jobs[x].status.Pending?
    {
      assert x in index' <==> x in index || x == id;
      assert x in index <==> x in jobs - {id} && (jobs - {id})[x].status.Pending?;
    }
    forall a, b | 0 <= a < b < |index'|
      ensures index'[a] != index'[b] && RunsBefore(jobs, index'[a], index'[b])
    {
      InsertedPair(jobs, index, i, id, a, b);
    }
  }

  lemma InsertedPair(jobs: map<Id, Job>, index: seq<Id>, i: nat, id: Id, a: nat, b: nat)
    requires id in jobs && id !in index && IndexOk(jobs - {id}, index)
    requires i <= |index| && forall k | 0 <= k < i :: RunsBefore(jobs, index[k], id)
    requires i < |index| ==> RunsBefore(jobs, id, index[i])
    requires a < b <= |index|
    ensures var index' := index[..i] + [id] + index[i..];
            index'[a] != index'[b] && RunsBefore(jobs, index'[a], index'[b])
  {
    var p, q := if a <= i then a else a - 1, if b <= i then b else b - 1;
    if a == i {
      assert q > i ==> RunsBefore(jobs - {id}, index[i], index[q]);
    } else if b == i {
      assert RunsBefore(jobs, index[p], id);
    } else {
      assert RunsBefore(jobs - {id}, index[p], index[q]);
    }
  }

  lemma RemoveKeepsOrder(jobs: map<Id, Job>, index: seq<Id>, i: nat)
    requires IndexOk(jobs, index) && i < |index|
    ensures var id := index[i]; IndexOk(jobs - {id}, index[..i] + index[i + 1..])
    ensures index[i] !in index[..i] + index[i + 1..]
  {
    var id, index' := index[i], index[..i] + index[i + 1..];
    RemovedMembers(index, i);
    forall a, b | 0 <= a < b < |index'|
      ensures index'[a] != index'[b] && RunsBefore(jobs - {id}, index'[a], index'[b])
    {
      var p, q := if a < i then a else a + 1, if b < i then b else b + 1;
      assert index'[a] == index[p] && index'[b] == index[q];
      assert RunsBefore(jobs, index[p], index[q]);
    }
  }

  lemma RemovedMembers(index: seq<Id>, i: nat)
    requires i < |index| && forall a, b | 0 <= a < b < |index| :: index[a] != index[b]
    ensures forall x :: x in index[..i] + index[i + 1..] <==> x in index && x != index[i]
  {
    assert index == index[..i] + [index[i]] + index[i + 1..];
  }

  // A row that is not pending needs no entry.
  lemma DropKeepsIndex(jobs: map<Id, Job>, index: seq<Id>, id: Id)
    requires IndexOk(jobs - {id}, index) && id in jobs && !jobs[id].status.Pending?
    ensures IndexOk(jobs, index)
  {
    forall x
      ensures x in index <==> x in jobs && jobs[x].status.Pending?
    {
      assert x in index <==> x in jobs - {id} && (jobs - {id})[x].status.Pending?;
    }
    forall i, j | 0 <= i < j < |index|
      ensures RunsBefore(jobs, index[i], index[j])
    {
      assert RunsBefore(jobs - {id}, index[i], index[j]);
    }
  }

  lemma NotIndexed(jobs: map<Id, Job>, index: seq<Id>, id: Id)
    requires IndexOk(jobs, index) && id in jobs && !jobs[id].status.Pending?
    ensures IndexOk(jobs - {id}, index) && id !in index
  {
    forall x
      ensures x in index <==> x in jobs - {id} && jobs[x].status.Pending?
    {
      assert x in index <==> x in jobs && jobs[x].status.Pending?;
    }
    forall i, j | 0 <= i < j < |index|
      ensures RunsBefore(jobs - {id}, index[i], index[j])
    {
      assert RunsBefore(jobs, index[i], index[j]) && index[i] in index && index[j] in index;
    }
  }

  // Every claimable row has an entry at or after the first unlocked one, so it runs no earlier.
  lemma LaterEntriesRunLater(jobs: map<Id, Job>, index: seq<Id>, i: nat, locks: map<Id, nat>)
    requires IndexOk(jobs, index) && i <= |index| && forall k | 0 <= k < i :: index[k] in locks
    ensures forall id | id in jobs && jobs[id].status.Pending? && id !in locks ::
              i < |index| && index[i] in jobs && jobs[index[i]].runAt <= jobs[id].runAt
  {
    forall id | id in jobs && jobs[id].status.Pending? && id !in locks
      ensures i < |index| && index[i] in jobs && jobs[index[i]].runAt <= jobs[id].runAt
    {
      assert id in index;
      var k :| 0 <= k < |index| && index[k] == id;
      assert k >= i;
      assert k > i ==> RunsBefore(jobs, index[i], index[k]);
    }
  }
}
