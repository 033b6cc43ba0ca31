/** The two stores of agent jobs: a map in memory (packages/agent-service/src/store.ts) and a
    conditional update in Postgres (packages/persistence/src/repository.ts). */
module JobStore {
  import opened Basics
  import opened Jobs
  import opened JobOperations
  import opened JobHistory

  type JobTable = map<string, Job>

  /** Another job already carries the request id. */
  predicate RequestIdTaken(jobs: JobTable, j: Job) {
    j.requestId.Some? && exists id :: id in jobs && id != j.id && jobs[id].requestId == j.requestId
  }

  function Expected(j: Job, expected: Option<int>): int {
    if expected.Some? then expected.value else j.revision - 1
  }

  /** What `save` does to the stored jobs: compare and swap on the revision. */
  ghost function SaveJob(jobs: JobTable, j: Job, expected: Option<int>): Result<JobTable, ServiceError> {
    if !Valid(j) then Err(Invalid)
    else if RequestIdTaken(jobs, j) then Err(RequestTaken)
    else if j.id in jobs && (jobs[j.id].revision != Expected(j, expected) || j.revision <= Expected(j, expected)) then Err(Conflict)
    else Ok(jobs[j.id := j])
  }

  /** Every job is stored under its own id, and request ids are unique. */
  ghost predicate Keyed(jobs: JobTable) {
    && (forall id :: id in jobs ==> jobs[id].id == id)
    && (forall id, other :: (id in jobs && other in jobs && jobs[id].requestId.Some?
                             && jobs[id].requestId == jobs[other].requestId) ==> id == other)
  }

  ghost predicate StoreSound(jobs: JobTable) {
    Keyed(jobs) && forall id :: id in jobs ==> Sound(jobs[id])
  }

  /** `b` is a later version of `a`, or `a` itself. */
  ghost predicate Later(a: Job, b: Job) {
    b == a || (b.revision > a.revision && Kept(a, b))
  }

  /** How a store may change: jobs are added, and replaced by later versions. */
  ghost predicate Evolves(before: JobTable, after: JobTable) {
    StoreSound(after) && forall id :: id in before ==> id in after && Later(before[id], after[id])
  }

  lemma LaterTransitive(a: Job, b: Job, c: Job)
    requires Later(a, b) && Later(b, c)
    ensures Later(a, c)
  {}

  lemma EvolvesReflexive(jobs: JobTable)
    requires StoreSound(jobs)
    ensures Evolves(jobs, jobs)
  {}

  lemma EvolvesTransitive(a: JobTable, b: JobTable, c: JobTable)
    requires Evolves(a, b) && Evolves(b, c)
    ensures Evolves(a, c)
  {
    forall id | id in a ensures id in c && Later(a[id], c[id]) {
      LaterTransitive(a[id], b[id], c[id]);
    }
  }

  lemma ReplacingEvolves(jobs: JobTable, next: Job)
    requires StoreSound(jobs) && Sound(next) && next.id in jobs && Later(jobs[next.id], next)
    ensures Evolves(jobs, jobs[next.id := next])
  {
    var after := jobs[next.id := next];
    assert next.requestId == jobs[next.id].requestId;
    forall id | id in jobs ensures Later(jobs[id], after[id]) {}
  }

  lemma SwapAccepted(jobs: JobTable, loaded: Job, next: Job)
    requires Keyed(jobs) && Valid(next) && next.id == loaded.id && next.requestId == loaded.requestId
    requires next.revision > loaded.revision && loaded.id in jobs
    requires jobs[loaded.id].requestId == loaded.requestId
    ensures var saved := SaveJob(jobs, next, Some(loaded.revision));
            saved == if jobs[loaded.id].revision == loaded.revision then Ok(jobs[loaded.id := next]) else Err(Conflict)
  {}

  lemma FollowsMeans(loaded: Job, c: Computed)
    requires Follows(loaded, c) && c.Ok? && c.value.Save?
    ensures var next := c.value.job;
            && Sound(next) && Valid(next) && c.value.expected == loaded.revision && next.revision > loaded.revision
            && next.id == loaded.id && next.requestId == loaded.requestId && Later(loaded, next)
  {}

  /** A sound record under a fresh id is accepted unless its request id is taken. */
  lemma SavingAFreshJob(jobs: JobTable, j: Job)
    requires StoreSound(jobs) && Sound(j) && j.id !in jobs
    ensures var saved := SaveJob(jobs, j, None);
            && (saved.Ok? <==> j.requestId.None? || forall other :: other in jobs ==> jobs[other].requestId != j.requestId)
            && (saved.Ok? ==> saved.value == jobs[j.id := j] && Evolves(jobs, saved.value))
  {}

  /** The jobs other clients store while this one awaits. */
  type Others = (nat, JobTable) -> JobTable

  /** Whatever the other clients do, the store evolves. */
  ghost predicate Fair(others: Others) {
    forall n, jobs :: StoreSound(jobs) ==> Evolves(jobs, others(n, jobs))
  }

  class InMemoryJobStore {
    var jobs: JobTable
    const others: Others
    var awaits: nat

    constructor (others: Others)
      requires Fair(others)
      ensures jobs == map[] && this.others == others && Running()
    {
      jobs, awaits := map[], 0;
      this.others := others;
    }

    ghost predicate Running()
      reads this
    {
      Fair(others) && StoreSound(jobs)
    }

    /** Lets the other clients run. */
    method Await()
      requires Running()
      modifies this
      ensures Running() && Evolves(old(jobs), jobs) && jobs == others(old(awaits), old(jobs))
    {
      var after := others(awaits, jobs);
      assert Evolves(jobs, after);
      jobs := after;
      awaits := awaits + 1;
    }

    method Get(id: string) returns (j: Option<Job>)
      ensures j == if id in jobs then Some(jobs[id]) else None
    {
      return if id in jobs then Some(jobs[id]) else None;
    }

    method GetByRequestId(requestId: string) returns (j: Option<Job>)
      ensures j.None? ==> forall id :: id in jobs ==> jobs[id].requestId != Some(requestId)
      ensures j.Some? ==> j.value in jobs.Values && j.value.requestId == Some(requestId)
    {
      var ids := jobs.Keys;
      while ids != {}
        invariant ids <= jobs.Keys
        invariant forall id :: id in jobs && id !in ids ==> jobs[id].requestId != Some(requestId)
        decreases ids
      {
        var id :| id in ids;
        if jobs[id].requestId == Some(requestId) {
          return Some(jobs[id]);
        }
        ids := ids - {id};
      }
      return None;
    }

    method Save(j: Job, expectedRevision: Option<int>) returns (r: Result<Job, ServiceError>)
      requires Keyed(jobs)
      modifies this`jobs
      ensures var saved := SaveJob(old(jobs), j, expectedRevision);
              match saved
              case Ok(after) => r == Ok(j) && jobs == after
              case Err(e) => r == Err(e) && jobs == old(jobs)
    {
      if !Valid(j) {
        return Err(Invalid);
      }
      if j.requestId.Some? {
        var existing := GetByRequestId(j.requestId.value);
        if existing.Some? && existing.value.id != j.id {
          assert RequestIdTaken(jobs, j);
          return Err(RequestTaken);
        }
      }
      assert !RequestIdTaken(jobs, j);
      var expected := if expectedRevision.Some? then expectedRevision.value else j.revision - 1;
      if j.id in jobs && (jobs[j.id].revision != expected || j.revision <= expected) {
        return Err(Conflict);
      }
      jobs := jobs[j.id := j];
      return Ok(j);
    }
  }

  /** The table of agent jobs. Its unique index on request ids is checked when a row is written. */
  class PostgresJobStore {
    var rows: JobTable

    /** `updateMany` on the rows with the id and the revision; gives the number of rows changed,
        or None when the index is violated. */
    method UpdateMany(j: Job, revision: int) returns (count: Option<nat>)
      modifies this
      ensures var matches := j.id in old(rows) && old(rows)[j.id].revision == revision;
              && count == (if !matches then Some(0) else if RequestIdTaken(old(rows), j) then None else Some(1))
              && rows == if count == Some(1) then old(rows)[j.id := j] else old(rows)
    {
      if j.id !in rows || rows[j.id].revision != revision {
        return Some(0);
      }
      if RequestIdTaken(rows, j) {
        return None;
      }
      rows := rows[j.id := j];
      return Some(1);
    }

    /** Accepts what the store in memory accepts, with the same result. Only when both the
        revision and the request id stand in the way do the two name different reasons. */
    method SaveAgentJob(j: Job, expectedRevision: Option<int>) returns (r: Result<Job, ServiceError>)
      requires forall id :: id in rows ==> rows[id].revision >= 0
      modifies this
      ensures var saved := SaveJob(old(rows), j, expectedRevision);
              match saved
              case Ok(after) => r == Ok(j) && rows == after
              case Err(e) => rows == old(rows) && (r == Err(e) || (e == RequestTaken && r == Err(Conflict)))
    {
      if !Valid(j) {
        return Err(Invalid);
      }
      if j.id !in rows {
        if RequestIdTaken(rows, j) {
          return Err(RequestTaken);
        }
        rows := rows[j.id := j];
      } else {
        var expected := if expectedRevision.Some? then expectedRevision.value else j.revision - 1;
        if expected < 0 || j.revision <= expected {
          return Err(Conflict);
        }
        var count := UpdateMany(j, expected);
        if count.None? {
          return Err(RequestTaken);
        }
        if count.value != 1 {
          return Err(Conflict);
        }
      }
      return Ok(j);
    }
  }
}
