/** The agent service itself (packages/agent-service/src/service.ts): each method loads a job,
    awaits what its ports answer while other clients go on, and saves what it computed. */
module AgentService {
  import opened Basics
  import opened RescueActions
  import opened Jobs
  import opened JobOperations
  import opened JobHistory
  import opened JobStore
  import opened JobResults
  import JobOutcomes
  import Planner
  import Simulator

  /** Saving the computed step `c` against the table `before` gives `r` and `after`. */
  ghost predicate PerformedWith(j: Job, c: Computed, before: JobTable, after: JobTable, r: Result<Job, ServiceError>) {
    match c
    case Err(e) => r == Err(e) && after == before
    case Ok(Keep(same)) => r == Ok(same) && after == before
    case Ok(Save(next, _)) =>
      j.id in before
      && if before[j.id] == j then r == Ok(next) && after == before[j.id := next]
         else r == Err(Conflict) && after == before
  }

  /** Performing `op` on the snapshot `j` against the table `before` gives `r` and `after`. */
  ghost predicate Performed(j: Job, op: Op, before: JobTable, after: JobTable, r: Result<Job, ServiceError>) {
    forall c :: c == Apply(op, j) ==> PerformedWith(j, c, before, after, r)
  }

  lemma PerformedMeans(j: Job, op: Op, before: JobTable, after: JobTable, r: Result<Job, ServiceError>)
    requires Performed(j, op, before, after, r)
    ensures PerformedWith(j, Apply(op, j), before, after, r)
  {}

  /** The record `next` is saved over `j` exactly if `j` is still the stored record. */
  ghost predicate SavedOver(j: Job, next: Job, before: JobTable, after: JobTable, r: Result<Job, ServiceError>) {
    && j.id in before
    && if before[j.id] == j then r == Ok(next) && after == before[j.id := next] else r == Err(Conflict) && after == before
  }

  lemma PerformedSaves(j: Job, op: Op, next: Job, before: JobTable, after: JobTable, r: Result<Job, ServiceError>)
    requires Performed(j, op, before, after, r) && SavesAs(Apply(op, j), j, next)
    ensures SavedOver(j, next, before, after, r)
  {
    PerformedMeans(j, op, before, after, r);
  }

  lemma PerformedRefuses(j: Job, op: Op, before: JobTable, after: JobTable, r: Result<Job, ServiceError>)
    requires Performed(j, op, before, after, r) && Apply(op, j).Err?
    ensures r == Err(Apply(op, j).error) && after == before
  {
    PerformedMeans(j, op, before, after, r);
  }

  /** A copy of a job that was stored at some time, and the table that has evolved since. */
  ghost predicate IsSnapshot(j: Job, jobs: JobTable) {
    StoreSound(jobs) && Sound(j) && j.id in jobs && Later(j, jobs[j.id])
  }

  lemma SnapshotOf(jobs: JobTable, id: string)
    requires StoreSound(jobs) && id in jobs
    ensures IsSnapshot(jobs[id], jobs) && jobs[id].id == id
  {}

  lemma SnapshotEvolves(j: Job, before: JobTable, after: JobTable)
    requires IsSnapshot(j, before) && Evolves(before, after)
    ensures IsSnapshot(j, after)
  {
    LaterTransitive(j, before[j.id], after[j.id]);
  }

  lemma PerformedEvolves(j: Job, op: Op, before: JobTable, after: JobTable, r: Result<Job, ServiceError>)
    requires IsSnapshot(j, before) && Performed(j, op, before, after, r)
    ensures Evolves(before, after)
    ensures r.Ok? ==> IsSnapshot(r.value, after) && r.value.id == j.id
    ensures r == Err(Conflict) ==> before[j.id].revision > j.revision
  {
    PerformedMeans(j, op, before, after, r);
    var c := Apply(op, j);
    EvolvesReflexive(before);
    OperationsFollow(op, j);
    if c.Ok? && c.value.Save? && before[j.id] == j {
      SavedEvolves(j, c, before);
    }
  }

  /** Saving a computed step accepts it exactly when the snapshot is still the stored record. */
  lemma SnapshotSaves(j: Job, c: Computed, jobs: JobTable)
    requires IsSnapshot(j, jobs) && Follows(j, c) && c.Ok? && c.value.Save?
    ensures SaveJob(jobs, c.value.job, Some(c.value.expected))
         == if jobs[j.id] == j then Ok(jobs[j.id := c.value.job]) else Err(Conflict)
    ensures Keyed(jobs)
  {
    FollowsMeans(j, c);
    SwapAccepted(jobs, j, c.value.job);
  }

  lemma SavedEvolves(j: Job, c: Computed, before: JobTable)
    requires IsSnapshot(j, before) && Follows(j, c) && c.Ok? && c.value.Save? && before[j.id] == j
    ensures Evolves(before, before[j.id := c.value.job]) && IsSnapshot(c.value.job, before[j.id := c.value.job])
    ensures c.value.job.id == j.id
  {}

  /** validateIdempotentIncidentScope. */
  predicate SameIncidentScope(existing: Job, requested: Option<Incident>) {
    match (existing.incident, requested)
    case (None, None) => true
    case (Some(a), Some(b)) =>
      && a.chainId == b.chainId && SameText(a.sourceAddress, b.sourceAddress)
      && SameText(a.destinationAddress, b.destinationAddress)
      && a.accepted == b.accepted && a.statementVersion == b.statementVersion
    case _ => false
  }

  const MAXIMUM_ATTEMPTS: nat := 5

  class AgentIncidentService {
    const store: InMemoryJobStore

    constructor (store: InMemoryJobStore)
      ensures this.store == store
    {
      this.store := store;
    }

    /** Computes on a snapshot and saves the result. */
    method Perform(j: Job, op: Op) returns (r: Result<Job, ServiceError>)
      requires store.Running() && IsSnapshot(j, store.jobs)
      modifies store
      ensures store.Running() && Evolves(old(store.jobs), store.jobs)
      ensures Performed(j, op, old(store.jobs), store.jobs, r)
      ensures r.Ok? ==> IsSnapshot(r.value, store.jobs) && r.value.id == j.id
    {
      var c := Apply(op, j);
      OperationsFollow(op, j);
      match c {
        case Err(e) => r := Err(e);
        case Ok(Keep(same)) => r := Ok(same);
        case Ok(Save(next, expected)) =>
          SnapshotSaves(j, c, store.jobs);
          r := store.Save(next, Some(expected));
      }
      PerformedEvolves(j, op, old(store.jobs), store.jobs, r);
    }

    /** Loads a job. */
    method RequireJob(jobId: string) returns (r: Result<Job, ServiceError>, ghost loaded: JobTable)
      requires store.Running()
      modifies store
      ensures store.Running() && store.jobs == loaded && Evolves(old(store.jobs), loaded)
      ensures r == if jobId in loaded then Ok(loaded[jobId]) else Err(NotFound)
      ensures r.Ok? ==> IsSnapshot(r.value, store.jobs) && r.value.id == jobId
    {
      store.Await();
      var found := store.Get(jobId);
      loaded := store.jobs;
      if found.Some? {
        SnapshotOf(store.jobs, jobId);
      }
      return if found.Some? then Ok(found.value) else Err(NotFound), loaded;
    }

    /** Other clients run while a port is asked. */
    method AskPort(j: Job)
      requires store.Running() && IsSnapshot(j, store.jobs)
      modifies store
      ensures store.Running() && Evolves(old(store.jobs), store.jobs) && IsSnapshot(j, store.jobs)
    {
      ghost var before := store.jobs;
      store.Await();
      SnapshotEvolves(j, before, store.jobs);
    }

    /** Asks a port, then computes on the snapshot and saves. */
    method Attempt(j: Job, op: Op) returns (r: Result<Job, ServiceError>, ghost before: JobTable)
      requires store.Running() && IsSnapshot(j, store.jobs)
      modifies store
      ensures store.Running() && Evolves(old(store.jobs), before) && Evolves(old(store.jobs), store.jobs)
      ensures IsSnapshot(j, before) && IsSnapshot(j, store.jobs) && Performed(j, op, before, store.jobs, r)
      ensures r.Ok? ==> IsSnapshot(r.value, store.jobs) && r.value.id == j.id
      ensures r == Err(Conflict) ==>
                before[j.id].revision > j.revision && store.jobs[j.id].revision > j.revision
    {
      AskPort(j);
      before := store.jobs;
      r := Perform(j, op);
      PerformedEvolves(j, op, before, store.jobs, r);
      EvolvesTransitive(old(store.jobs), before, store.jobs);
      SnapshotEvolves(j, before, store.jobs);
    }

    /** Load, ask, compute and save: the shape of every single-step operation. */
    method LoadAndPerform(jobId: string, op: Op) returns (r: Result<Job, ServiceError>, ghost loaded: JobTable, ghost before: JobTable)
      requires store.Running()
      modifies store
      ensures store.Running() && Evolves(old(store.jobs), store.jobs)
      ensures Evolves(old(store.jobs), loaded)
      ensures jobId !in loaded ==> r == Err(NotFound)
      ensures jobId in loaded ==> Performed(loaded[jobId], op, before, store.jobs, r) && Evolves(loaded, before)
    {
      var job;
      job, loaded := RequireJob(jobId);
      if job.Err? {
        return Err(NotFound), loaded, loaded;
      }
      r, before := Attempt(job.value, op);
      EvolvesTransitive(old(store.jobs), loaded, store.jobs);
    }

    /** createIncident: a request id that is already known gives the existing job, and must be for
        the same incident. */
    method CreateIncident(id: string, requestId: Option<string>, incident: Option<Incident>)
      returns (r: Result<Job, ServiceError>, ghost before: JobTable)
      requires store.Running() && forall n, jobs :: id !in jobs ==> id !in store.others(n, jobs)
      requires id !in store.jobs
      modifies store
      ensures store.Running() && Evolves(old(store.jobs), before) && Evolves(before, store.jobs)
      ensures r.Ok? ==>
                || (id !in before && r == NewJob(id, requestId, incident) && store.jobs == before[id := r.value])
                || (r.value in before.Values && requestId.Some? && r.value.requestId == requestId
                    && SameIncidentScope(r.value, incident) && store.jobs == before)
      ensures r.Err? ==> store.jobs == before && r.error == OutOfScope && requestId.Some?
                         && exists j :: j in before.Values && j.requestId == requestId && !SameIncidentScope(j, incident)
    {
      store.Await();
      if requestId.Some? {
        var existing := store.GetByRequestId(requestId.value);
        if existing.Some? {
          before := store.jobs;
          EvolvesReflexive(before);
          return if SameIncidentScope(existing.value, incident) then Ok(existing.value) else Err(OutOfScope), before;
        }
      }
      ghost var checked := store.jobs;
      var created := NewJob(id, requestId, incident);
      NewJobIsSound(id, requestId, incident);
      store.Await();
      before := store.jobs;
      EvolvesTransitive(old(store.jobs), checked, before);
      SavingAFreshJob(store.jobs, created.value);
      r := store.Save(created.value, None);
      if r.Err? {
        EvolvesReflexive(before);
        var existing := store.GetByRequestId(requestId.value);
        return if SameIncidentScope(existing.value, incident) then Ok(existing.value) else Err(OutOfScope), before;
      }
    }

    /** analyseIncident: starts the analysis, then records the scan or fails the job; None is an
        analyzer that throws. */
    method AnalyseIncident(jobId: string, supplied: Option<Incident>, answer: Option<Planner.Scan>)
      returns (r: Result<Job, ServiceError>, ghost loaded: JobTable, ghost asked: JobTable,
               ghost started: Result<Job, ServiceError>, ghost saved: JobTable, ghost before: JobTable)
      requires store.Running()
      modifies store
      ensures store.Running() && Evolves(old(store.jobs), store.jobs) && Evolves(old(store.jobs), loaded)
      ensures jobId !in loaded ==> started == Err(NotFound)
      ensures jobId in loaded ==> Evolves(loaded, asked) && StartedAs(loaded[jobId], supplied, asked, saved, started)
      ensures started.Err? ==> r == started && store.jobs == saved
      ensures started.Ok? ==>
                && started.value.id == jobId && jobId in saved && saved[jobId] == started.value && Evolves(saved, before)
                && SavedOver(started.value, Analysed(started.value, answer), before, store.jobs, r)
    {
      r, loaded, asked := LoadAndPerform(jobId, OpStartAnalysis(supplied));
      started, saved, before := r, store.jobs, store.jobs;
      if jobId in loaded {
        SnapshotOf(loaded, jobId);
        StartSaved(loaded[jobId], supplied, asked, saved, started);
      }
      if r.Err? {
        return;
      }
      var job := r.value;
      AnalysisStarted(loaded[jobId], supplied, loaded, asked, store.jobs, r);
      var op := if answer.Some? then OpRecordScan(answer.value) else OpFail(AnalysisFailed, ANALYSIS_FAILED);
      r, before := Attempt(job, op);
      EvolvesTransitive(old(store.jobs), saved, store.jobs);
      ScanSaved(job, answer, before, store.jobs, r);
    }

    /** generatePlan; None is a planner that throws. */
    method GeneratePlan(jobId: string, answer: Option<Simulator.SealedPlan>)
      returns (r: Result<Job, ServiceError>, ghost loaded: JobTable, ghost before: JobTable)
      requires store.Running()
      modifies store
      ensures store.Running() && Evolves(old(store.jobs), store.jobs) && Evolves(old(store.jobs), loaded)
      ensures jobId !in loaded ==> r == Err(NotFound)
      ensures jobId in loaded ==>
                var j := loaded[jobId];
                var ready := j.status.ANALYSING? && j.incident.Some? && j.scan.Some?;
                && (!ready ==> r == Err(NotAllowed) && store.jobs == loaded)
                && (ready ==> Evolves(loaded, before) && SavedOver(j, Planned(j, answer), before, store.jobs, r))
    {
      var job;
      job, loaded := RequireJob(jobId);
      before := loaded;
      if job.Err? {
        return Err(NotFound), loaded, before;
      }
      var j := job.value;
      if !j.status.ANALYSING? || j.incident.None? || j.scan.None? {
        return Err(NotAllowed), loaded, before;
      }
      var op := if answer.Some? then OpRecordPlan(answer.value) else OpFail(PlanFailed, PLAN_FAILED);
      r, before := Attempt(j, op);
      EvolvesTransitive(old(store.jobs), loaded, store.jobs);
      PlanSaved(j, answer, before, store.jobs, r);
    }

    /** simulatePlan; None is a simulator that throws. */
    method SimulatePlan(jobId: string, answer: Option<SimulationReport>)
      returns (r: Result<Job, ServiceError>, ghost loaded: JobTable, ghost before: JobTable)
      requires store.Running()
      modifies store
      ensures store.Running() && Evolves(old(store.jobs), store.jobs) && Evolves(old(store.jobs), loaded)
      ensures jobId !in loaded ==> r == Err(NotFound)
      ensures jobId in loaded ==>
                var j := loaded[jobId];
                var ready := j.status.PLAN_READY? && j.plan.Some?;
                && (!ready ==> r == Err(NotAllowed) && store.jobs == loaded)
                && (ready ==> Evolves(loaded, before) && SavedOver(j, SimulatedAs(j, answer), before, store.jobs, r))
    {
      var job;
      job, loaded := RequireJob(jobId);
      before := loaded;
      if job.Err? {
        return Err(NotFound), loaded, before;
      }
      var j := job.value;
      if !j.status.PLAN_READY? || j.plan.None? {
        return Err(NotAllowed), loaded, before;
      }
      var op := if answer.Some? then OpRecordSimulation(answer.value) else OpFail(SimulationFailed, SIMULATION_FAILED);
      r, before := Attempt(j, op);
      EvolvesTransitive(old(store.jobs), loaded, store.jobs);
      SimulationSaved(j, answer, before, store.jobs, r);
    }

    /** Failing a job that another client has changed is refused. */
    method FailStale(j: Job) returns (r: Result<Job, ServiceError>, ghost last: JobTable)
      requires store.Running() && IsSnapshot(j, store.jobs) && store.jobs[j.id] != j
      modifies store
      ensures store.Running() && Evolves(old(store.jobs), store.jobs) && j.id in store.jobs
      ensures Evolves(old(store.jobs), last) && store.jobs == last
      ensures store.jobs[j.id].revision > j.revision && (r == Ok(j) || r.Err?)
    {
      ghost var held := store.jobs;
      r, last := Attempt(j, OpFail(MonitorFailed, RESCUE_FAILED));
      assert Later(held[j.id], last[j.id]);
      StaleIsRefused(j, OpFail(MonitorFailed, RESCUE_FAILED), last, store.jobs, r);
    }

    /** Observes and saves. A save that conflicts is followed by an attempt to fail the job, which
        is refused as well: a poll never fails a job that another client has changed. `before` and
        `last` are the tables just before its first and its last save. */
    method Poll(j: Job, op: Op) returns (r: Result<Job, ServiceError>, ghost before: JobTable, ghost last: JobTable)
      requires store.Running() && IsSnapshot(j, store.jobs) && (op.OpObserve? || op.OpFail?)
      modifies store
      ensures store.Running() && Evolves(old(store.jobs), before) && Evolves(old(store.jobs), store.jobs)
      ensures j.id in before && j.id in store.jobs
      ensures before[j.id] == j ==> Performed(j, op, before, store.jobs, r)
      ensures before[j.id] != j ==>
                && Evolves(before, last) && store.jobs == last && last[j.id].revision > j.revision
                && (r == Ok(j) || r.Err?)
    {
      r, before := Attempt(j, op);
      last := before;
      EvolvesReflexive(before);
      ghost var after := store.jobs;
      if before[j.id] != j {
        StaleIsRefused(j, op, before, after, r);
      }
      if r == Err(Conflict) && op.OpObserve? {
        r, last := FailStale(j);
        EvolvesTransitive(old(store.jobs), after, store.jobs);
      }
    }

    /** monitorRescue; None is a monitor that throws. */
    method MonitorRescue(jobId: string, answer: Option<Observation>)
      returns (r: Result<Job, ServiceError>, ghost loaded: JobTable, ghost before: JobTable, ghost last: JobTable)
      requires store.Running()
      modifies store
      ensures store.Running() && Evolves(old(store.jobs), store.jobs) && Evolves(old(store.jobs), loaded)
      ensures jobId !in loaded ==> r == Err(NotFound)
      ensures jobId in loaded ==>
                var j := loaded[jobId];
                && (IsTerminal(j.status) ==> r == Ok(j) && store.jobs == loaded)
                && (!IsTerminal(j.status) && (!AwaitsBuyer(j.status) || j.plan.None?) ==>
                      r == Err(NotAllowed) && store.jobs == loaded)
                && (AwaitsBuyer(j.status) && j.plan.Some? ==>
                      && Evolves(loaded, before) && jobId in before && jobId in store.jobs
                      && (before[jobId] == j ==>
                            SavedOver(j, if answer.Some? then ObservedAs(j, answer.value) else Failed(j, MonitorFailed, RESCUE_FAILED),
                                      before, store.jobs, r))
                      && (before[jobId] != j ==>
                            && Evolves(before, last) && store.jobs == last && last[jobId].revision > j.revision
                            && (r == Ok(j) || r.Err?)))
    {
      var job;
      job, loaded := RequireJob(jobId);
      before, last := loaded, loaded;
      if job.Err? {
        return Err(NotFound), loaded, before, last;
      }
      var j := job.value;
      if IsTerminal(j.status) {
        return Ok(j), loaded, before, last;
      }
      if !AwaitsBuyer(j.status) || j.plan.None? {
        return Err(NotAllowed), loaded, before, last;
      }
      var op := if answer.Some? then OpObserve(answer.value) else OpFail(MonitorFailed, RESCUE_FAILED);
      r, before, last := Poll(j, op);
      EvolvesTransitive(old(store.jobs), loaded, store.jobs);
      if before[jobId] == j {
        ObservationSaved(j, answer, before, store.jobs, r);
      }
    }

    /** getDashboardUrl. */
    method GetDashboardUrl(jobId: string, url: string)
      returns (r: Result<string, ServiceError>, ghost loaded: JobTable, ghost before: JobTable)
      requires store.Running()
      modifies store
      ensures r.Ok? <==> jobId in loaded && jobId in before && before[jobId] == loaded[jobId]
      ensures r.Ok? ==>
                store.jobs == before[jobId := loaded[jobId].(dashboardUrl := Some(url), revision := loaded[jobId].revision + 1)]
      ensures store.Running() && Evolves(old(store.jobs), store.jobs)
      ensures r.Ok? ==> r.value == url && jobId in store.jobs && store.jobs[jobId].dashboardUrl == Some(url)
    {
      var saved;
      saved, loaded, before := LoadAndPerform(jobId, OpSetDashboard(url));
      if jobId in loaded {
        SnapshotOf(loaded, jobId);
        DashboardSaved(loaded[jobId], url, before, store.jobs, saved);
      }
      return if saved.Err? then Err(saved.error) else Ok(url), loaded, before;
    }

    /** Validates every package and their order, as getSigningPackages does. */
    method ValidatePackages(j: Job, packages: seq<Package>, now: int) returns (ok: bool)
      requires CanIssue(j)
      ensures ok <==> Validated(j, packages, |packages|, now)
    {
      var actions := j.plan.value.plan.actions;
      var previous := -1;
      NothingToValidate(j, packages, now);
      for n := 0 to |packages|
        invariant Validated(j, packages, n, now)
        invariant previous == PreviousIndex(actions, packages, n)
      {
        var current := IndexOf(actions, packages[n].actionId);
        ValidatedStep(j, packages, n, now);
        if !PackageMatches(j, packages[n], now) || current < 0 || current <= previous {
          return false;
        }
        previous := current;
      }
      return true;
    }

    /** getSigningPackages: the packages already issued while none has expired, otherwise newly
        built ones, after a fresh simulation if one is needed. None is a port that throws. */
    method GetSigningPackages(jobId: string, now: int, resimulated: Option<SimulationReport>, built: Option<seq<Package>>)
      returns (r: Result<seq<Package>, ServiceError>, ghost issued: Option<Job>,
               ghost loaded: JobTable, ghost first: JobTable, ghost second: JobTable)
      requires store.Running()
      modifies store
      ensures store.Running() && Evolves(old(store.jobs), store.jobs)
      ensures jobId !in loaded ==> r == Err(NotFound)
      ensures jobId in loaded ==> r == PackagesGiven(loaded[jobId], now, resimulated, built, first, second)
      ensures r.Ok? ==>
                && issued.Some? && issued.value.id == jobId && IsSnapshot(issued.value, store.jobs) && Issued(issued.value) == r.value
                && PackageListValid(r.value) && forall p :: p in r.value ==> p.expiresAt > now
    {
      var job;
      job, loaded := RequireJob(jobId);
      issued, first, second := None, loaded, loaded;
      if job.Err? {
        return Err(NotFound), issued, loaded, first, second;
      }
      var j := job.value;
      var persisted := Issued(j);
      if persisted != [] && forall i :: 0 <= i < |persisted| ==> persisted[i].expiresAt > now {
        IssuedListValid(j);
        return Ok(persisted), Some(j), loaded, first, second;
      }
      if !CanIssue(j) {
        return Err(NotAllowed), issued, loaded, first, second;
      }
      var base;
      base, first := SimulateAgain(j, now, resimulated);
      second := store.jobs;
      EvolvesTransitive(old(store.jobs), loaded, store.jobs);
      if base.None? || built.None? {
        return Err(PackagesUnavailable), issued, loaded, first, second;
      }
      ghost var held := store.jobs;
      r, issued, second := Issue(base.value, built.value, now);
      EvolvesTransitive(old(store.jobs), held, store.jobs);
    }

    /** Simulates the plan again, if the packages have expired or the simulation soon will. */
    method SimulateAgain(j: Job, now: int, resimulated: Option<SimulationReport>) returns (base: Option<Job>, ghost first: JobTable)
      requires store.Running() && IsSnapshot(j, store.jobs) && CanIssue(j)
      modifies store
      ensures store.Running() && Evolves(old(store.jobs), store.jobs)
      ensures base == Base(j, now, resimulated, first)
      ensures base.Some? ==> base.value.id == j.id && IsSnapshot(base.value, store.jobs) && CanIssue(base.value)
    {
      first := store.jobs;
      EvolvesReflexive(store.jobs);
      if Issued(j) == [] && IsFresh(j.simulation.value, now + 30_000) {
        return Some(j), first;
      }
      if resimulated.None? {
        return None, first;
      }
      var job;
      job, first := Attempt(j, OpResimulate(resimulated.value));
      ResimulationSaved(j, resimulated.value, first, store.jobs, job);
      return if job.Err? then None else Some(job.value), first;
    }

    /** Validates the packages that were built, and saves them. */
    method Issue(j: Job, built: seq<Package>, now: int)
      returns (r: Result<seq<Package>, ServiceError>, ghost issued: Option<Job>, ghost second: JobTable)
      requires store.Running() && IsSnapshot(j, store.jobs) && CanIssue(j)
      modifies store
      ensures store.Running() && Evolves(old(store.jobs), store.jobs)
      ensures r == if PackagesFit(j, built, now) && j.id in second && second[j.id] == j then Ok(built) else Err(PackagesUnavailable)
      ensures r.Ok? ==>
                && issued.Some? && issued.value.id == j.id && IsSnapshot(issued.value, store.jobs) && Issued(issued.value) == r.value
                && PackageListValid(r.value) && forall p :: p in r.value ==> p.expiresAt > now
    {
      second, issued := store.jobs, None;
      EvolvesReflexive(store.jobs);
      if !PackageListValid(built) {
        UnvalidatedDoNotFit(j, built, now);
        return Err(PackagesUnavailable), issued, second;
      }
      NothingToValidate(j, built, now);
      var ok := ValidatePackages(j, built, now);
      if !ok {
        UnvalidatedDoNotFit(j, built, now);
        return Err(PackagesUnavailable), issued, second;
      }
      var job;
      job, second := Attempt(j, OpIssuePackages(built, now));
      IssueSaved(j, built, now, second, store.jobs, job);
      if job.Err? {
        return Err(PackagesUnavailable), issued, second;
      }
      IssuingIssues(j, built, now, second, store.jobs, job);
      return Ok(built), Some(job.value), second;
    }

    /** retryJobMutation: conflicts are retried with a fresh copy, at most five times in all. It
        gives up only after that many saves by other clients. */
    method RetryJobMutation(jobId: string, op: nat -> Op, initial: Option<Job>)
      returns (r: Result<Job, ServiceError>, ghost snapshot: Option<Job>, ghost attempt: nat, ghost before: JobTable)
      requires store.Running()
      requires initial.Some? ==> IsSnapshot(initial.value, store.jobs) && initial.value.id == jobId
      modifies store
      ensures store.Running() && Evolves(old(store.jobs), store.jobs)
      ensures snapshot.None? ==> r == Err(NotFound)
      ensures snapshot.Some? ==>
                && attempt < MAXIMUM_ATTEMPTS && snapshot.value.id == jobId && IsSnapshot(snapshot.value, before)
                && Performed(snapshot.value, op(attempt), before, store.jobs, r)
      ensures r.Ok? ==>
                && IsSnapshot(r.value, store.jobs) && r.value.id == jobId
                && LaterThanFirst(initial, old(store.jobs), jobId, r.value)
      ensures r == Err(Conflict) ==>
                && attempt == MAXIMUM_ATTEMPTS - 1 && jobId in store.jobs
                && store.jobs[jobId].revision >= FirstRevision(initial, old(store.jobs), jobId) + MAXIMUM_ATTEMPTS
    {
      snapshot, attempt, before := None, 0, store.jobs;
      EvolvesReflexive(store.jobs);
      var job := initial;
      var n := 0;
      while true
        invariant n < MAXIMUM_ATTEMPTS && store.Running() && Evolves(old(store.jobs), store.jobs)
        invariant RevisionReached(jobId, store.jobs, FirstRevision(initial, old(store.jobs), jobId), n)
        invariant job.Some? ==> n == 0 && job == initial && IsSnapshot(job.value, store.jobs)
        invariant job.None? ==> n > 0 || initial.None?
        decreases MAXIMUM_ATTEMPTS - n
      {
        ghost var entry := store.jobs;
        if job.None? {
          var found;
          ghost var loaded;
          found, loaded := RequireJob(jobId);
          EvolvesTransitive(old(store.jobs), entry, loaded);
          RevisionsGrow(jobId, entry, loaded, FirstRevision(initial, old(store.jobs), jobId), n);
          if found.Err? {
            return Err(NotFound), None, n, loaded;
          }
          job := Some(found.value);
        }
        ghost var held := store.jobs;
        SnapshotIsLater(initial, old(store.jobs), held, jobId, job.value, n);
        snapshot, attempt := job, n;
        r, before := Attempt(job.value, op(n));
        EvolvesTransitive(old(store.jobs), held, store.jobs);
        if r.Ok? {
          PerformedIsLater(job.value, op(n), before, store.jobs, r);
          LaterStillThanFirst(initial, old(store.jobs), jobId, job.value, r.value);
        }
        if r != Err(Conflict) || n == MAXIMUM_ATTEMPTS - 1 {
          return;
        }
        n := n + 1;
        job := None;
      }
    }

    /** recordBuyerExecutionReport; the verifier is asked again on every attempt. */
    method RecordBuyerExecutionReport(jobId: string, report: Report, verified: nat -> Result<Observation, VerifierError>)
      returns (r: Result<Job, ServiceError>, ghost snapshot: Option<Job>, ghost attempt: nat, ghost before: JobTable)
      requires store.Running()
      modifies store
      ensures store.Running() && Evolves(old(store.jobs), store.jobs)
      ensures snapshot.None? ==> r == Err(NotFound)
      ensures snapshot.Some? ==>
                snapshot.value.id == jobId && IsSnapshot(snapshot.value, before)
                && RecordedAs(snapshot.value, report, verified(attempt), before, store.jobs, r)
      ensures r.Ok? ==> IsSnapshot(r.value, store.jobs) && r.value.id == jobId && ReceiptsConfirmed(r.value, report)
      ensures r.Ok? && jobId in old(store.jobs) ==> Later(old(store.jobs)[jobId], r.value)
      ensures r.Ok? ==> verified(attempt).Ok? || IsTerminal(r.value.status)
      ensures r.Err? && r.error.Verifier? ==> verified(attempt) == Err(r.error.error)
    {
      r, snapshot, attempt, before := RetryJobMutation(jobId, Reporting(report, verified), None);
      if snapshot.Some? {
        ReportAsVerified(snapshot.value, report, verified(attempt), before, store.jobs, r);
        ReportRecorded(snapshot.value, report, verified(attempt), before, store.jobs, r);
      }
      if r.Ok? {
        ReportingConfirms(snapshot.value, report, verified, attempt, before, store.jobs, r);
      }
    }

    /** recordBuyerReceiptSubmission. */
    method RecordBuyerReceiptSubmission(jobId: string, packageId: string, hash: string)
      returns (r: Result<Job, ServiceError>, ghost snapshot: Option<Job>, ghost before: JobTable)
      requires store.Running()
      modifies store
      ensures store.Running() && Evolves(old(store.jobs), store.jobs)
      ensures snapshot.None? ==> r == Err(NotFound)
      ensures snapshot.Some? ==>
                && snapshot.value.id == jobId && IsSnapshot(snapshot.value, before)
                && RegisteredAs(snapshot.value, packageId, hash, before, store.jobs, r)
      ensures r.Ok? ==> Registered(r.value, hash, packageId) && jobId in store.jobs && Registered(store.jobs[jobId], hash, packageId)
      ensures r.Ok? && !Registered(snapshot.value, hash, packageId) ==>
                AwaitsBuyer(r.value.status)
                && Submissions(r.value) == Submissions(snapshot.value) + [Submission(packageId, hash, PENDING)]
    {
      ghost var attempt;
      r, snapshot, attempt, before := RetryJobMutation(jobId, Registering(packageId, hash), None);
      if snapshot.Some? {
        RegistrationSaved(snapshot.value, packageId, hash, before, store.jobs, r);
      }
      if r.Ok? {
        RegisteringRegisters(snapshot.value, packageId, hash, before, store.jobs, r);
        StillRegistered(r.value, store.jobs[jobId], hash, packageId);
      }
    }

    /** reconcileBuyerReceiptSubmission. */
    method ReconcileBuyerReceiptSubmission(jobId: string, packageId: string, hash: string, verified: nat -> Result<Observation, VerifierError>)
      returns (status: SubmissionStatus, r: Result<Job, ServiceError>, ghost loaded: JobTable, ghost answer: Result<Job, ServiceError>)
      requires store.Running()
      modifies store
      ensures store.Running() && Evolves(old(store.jobs), store.jobs) && Evolves(old(store.jobs), loaded)
      ensures jobId !in loaded ==> r == Err(NotFound)
      ensures jobId in loaded && !Registered(loaded[jobId], hash, packageId) ==> r == Err(NotAllowed) && store.jobs == loaded
      ensures jobId in loaded && Registered(loaded[jobId], hash, packageId) ==>
                if HasStatus(loaded[jobId], packageId, hash, PENDING) then SettledAs(loaded[jobId], answer, status, r)
                else r == Ok(loaded[jobId]) && store.jobs == loaded
      ensures r.Ok? ==>
                Registered(r.value, hash, packageId) && IsSnapshot(r.value, store.jobs) && HasStatus(r.value, packageId, hash, status)
    {
      var job;
      answer := Err(NotFound);
      job, loaded := RequireJob(jobId);
      if job.Err? {
        return PENDING, job, loaded, answer;
      }
      var j := job.value;
      var submission := FindSubmission(Submissions(j), hash);
      FoundIsRegistered(j, hash);
      if submission.None? || submission.value.packageId != packageId {
        OnlyBinding(j, hash, packageId);
        return PENDING, Err(NotAllowed), loaded, answer;
      }
      OnlySubmission(j, submission.value, hash);
      if !submission.value.status.PENDING? {
        OneStatus(j, packageId, hash, submission.value.status);
        return submission.value.status, Ok(j), loaded, answer;
      }
      ghost var snapshot, attempt, before, reported;
      status, r, answer, snapshot, attempt, before, reported := Settle(j, packageId, hash, verified);
      EvolvesTransitive(old(store.jobs), loaded, store.jobs);
    }

    /** Has a pending receipt verified, and records what became of it. */
    method Settle(j: Job, packageId: string, hash: string, verified: nat -> Result<Observation, VerifierError>)
      returns (status: SubmissionStatus, r: Result<Job, ServiceError>, ghost answer: Result<Job, ServiceError>,
               ghost snapshot: Option<Job>, ghost attempt: nat, ghost before: JobTable, ghost reported: JobTable)
      requires store.Running()
      requires IsSnapshot(j, store.jobs) && j == store.jobs[j.id] && Registered(j, hash, packageId)
      requires HasStatus(j, packageId, hash, PENDING)
      modifies store
      ensures store.Running() && Evolves(old(store.jobs), store.jobs)
      ensures SettledAs(j, answer, status, r)
      ensures var report := ReportForSubmission(j, packageId, hash);
              if report.None? then answer == Err(NoPackage)
              else if snapshot.None? then answer == Err(NotFound)
              else snapshot.value.id == j.id && RecordedAs(snapshot.value, report.value, verified(attempt), before, reported, answer)
      ensures r.Ok? ==> Registered(r.value, hash, packageId) && IsSnapshot(r.value, store.jobs) && HasStatus(r.value, packageId, hash, status)
      ensures r.Ok? ==> ReportForSubmission(j, packageId, hash).Some? && AsAnswered(status, verified, r.value)
    {
      var report := ReportForSubmission(j, packageId, hash);
      snapshot, attempt, before, reported := None, 0, store.jobs, store.jobs;
      if report.None? {
        return PENDING, Err(NoPackage), Err(NoPackage), snapshot, attempt, before, reported;
      }
      ghost var start := store.jobs;
      r, snapshot, attempt, before := RecordBuyerExecutionReport(j.id, report.value, verified);
      answer, reported := r, store.jobs;
      SnapshotEvolves(j, start, reported);
      if r.Ok? {
        StillRegistered(j, r.value, hash, packageId);
        ConfirmedStatus(r.value, report.value, packageId, hash);
        return CONFIRMED, r, answer, snapshot, attempt, before, reported;
      }
      if r.error == Verifier(ReceiptPending) {
        return PENDING, Ok(j), answer, snapshot, attempt, before, reported;
      }
      if r.error != Verifier(ReceiptReverted) && r.error != Verifier(ReceiptRejected) {
        return PENDING, r, answer, snapshot, attempt, before, reported;
      }
      status := if r.error == Verifier(ReceiptReverted) then SubmissionStatus.REVERTED else REJECTED;
      ghost var marked, table;
      r, marked, table := SetReceiptSubmissionStatus(j, packageId, hash, status);
      EvolvesTransitive(start, reported, store.jobs);
    }

    /** setReceiptSubmissionStatus: the first attempt uses the copy at hand. */
    method SetReceiptSubmissionStatus(j: Job, packageId: string, hash: string, status: SubmissionStatus)
      returns (r: Result<Job, ServiceError>, ghost snapshot: Option<Job>, ghost before: JobTable)
      requires store.Running() && IsSnapshot(j, store.jobs) && Registered(j, hash, packageId)
      modifies store
      ensures store.Running() && Evolves(old(store.jobs), store.jobs)
      ensures snapshot.None? ==> r == Err(NotFound)
      ensures snapshot.Some? ==>
                snapshot.value.id == j.id && SavedOver(snapshot.value, Marked(snapshot.value, packageId, hash, status), before, store.jobs, r)
      ensures r.Ok? ==>
                Registered(r.value, hash, packageId) && IsSnapshot(r.value, store.jobs) && HasStatus(r.value, packageId, hash, status)
    {
      ghost var attempt;
      r, snapshot, attempt, before := RetryJobMutation(j.id, Setting(packageId, hash, status), Some(j));
      if snapshot.Some? {
        MarkSaved(snapshot.value, packageId, hash, status, before, store.jobs, r);
      }
      if r.Ok? {
        StatusIsSet(snapshot.value, packageId, hash, status, before, store.jobs, r);
        StillRegistered(j, r.value, hash, packageId);
      }
    }
  }

  /** Which status a receipt is settled on: confirmed by an accepted report, and else what the verifier
      says; any other refusal is passed on. */
  ghost predicate SettledAs(j: Job, answer: Result<Job, ServiceError>, status: SubmissionStatus, r: Result<Job, ServiceError>) {
    match answer
    case Ok(_) => status.CONFIRMED? && r == answer
    case Err(Verifier(ReceiptPending)) => status.PENDING? && r == Ok(j)
    case Err(Verifier(ReceiptReverted)) => status.REVERTED?
    case Err(Verifier(ReceiptRejected)) => status.REJECTED?
    case Err(_) => r == answer
  }

  lemma OnlyBinding(j: Job, hash: string, packageId: string)
    requires Valid(j)
    requires var found := FindSubmission(Submissions(j), hash); found.None? || found.value.packageId != packageId
    ensures !Registered(j, hash, packageId)
  {
    FoundIsRegistered(j, hash);
    if Registered(j, hash, packageId) {
      var bound := FindSubmission(Submissions(j), hash).value.packageId;
      KeptOneBinding(j, hash, bound);
    }
  }

  lemma OneStatus(j: Job, packageId: string, hash: string, status: SubmissionStatus)
    requires Registered(j, hash, packageId) && HasStatus(j, packageId, hash, status)
    ensures HasStatus(j, packageId, hash, PENDING) <==> status.PENDING?
  {}

  /** The new status is the one an answer of the verifier gave. */
  ghost predicate AsAnswered(status: SubmissionStatus, verified: nat -> Result<Observation, VerifierError>, j: Job) {
    match status
    case PENDING => exists n :: verified(n) == Err(ReceiptPending)
    case REVERTED => exists n :: verified(n) == Err(ReceiptReverted)
    case REJECTED => exists n :: verified(n) == Err(ReceiptRejected)
    case CONFIRMED => IsTerminal(j.status) || exists n :: verified(n).Ok?
  }

  // ----- retries

  ghost function FirstRevision(initial: Option<Job>, jobs: JobTable, jobId: string): int {
    if initial.Some? then initial.value.revision else if jobId in jobs then jobs[jobId].revision else 0
  }

  /** After n conflicts the stored job has moved at least n revisions on. */
  ghost predicate RevisionReached(jobId: string, jobs: JobTable, first: int, n: nat) {
    if jobId in jobs then jobs[jobId].revision >= first + n else n == 0 && first == 0
  }

  lemma RevisionsGrow(jobId: string, before: JobTable, after: JobTable, first: int, n: nat)
    requires RevisionReached(jobId, before, first, n) && Evolves(before, after)
    ensures RevisionReached(jobId, after, first, n)
  {}

  ghost predicate LaterThanFirst(initial: Option<Job>, jobs: JobTable, jobId: string, j: Job) {
    && (initial.Some? ==> Later(initial.value, j))
    && (initial.None? && jobId in jobs ==> Later(jobs[jobId], j))
  }

  /** The copy an attempt works on is no older than the first one. */
  lemma SnapshotIsLater(initial: Option<Job>, start: JobTable, held: JobTable, jobId: string, j: Job, n: nat)
    requires initial.Some? ==> IsSnapshot(initial.value, start) && initial.value.id == jobId
    requires Evolves(start, held) && jobId in held && RevisionReached(jobId, held, FirstRevision(initial, start, jobId), n)
    requires j == held[jobId] || (n == 0 && initial == Some(j))
    ensures LaterThanFirst(initial, start, jobId, j)
    ensures j.revision >= FirstRevision(initial, start, jobId) + n
  {
    if initial.Some? && j == held[jobId] {
      assert Later(start[jobId], held[jobId]);
      LaterTransitive(initial.value, start[jobId], held[jobId]);
    }
    if initial.None? && jobId in start {
      assert Later(start[jobId], held[jobId]);
    }
  }

  lemma LaterStillThanFirst(initial: Option<Job>, start: JobTable, jobId: string, j: Job, k: Job)
    requires LaterThanFirst(initial, start, jobId, j) && Later(j, k)
    ensures LaterThanFirst(initial, start, jobId, k)
  {}

  lemma PerformedIsLater(j: Job, op: Op, before: JobTable, after: JobTable, r: Result<Job, ServiceError>)
    requires IsSnapshot(j, before) && Performed(j, op, before, after, r) && r.Ok?
    ensures Later(j, r.value)
  {
    PerformedMeans(j, op, before, after, r);
    OperationsFollow(op, j);
    FollowsIsLater(j, Apply(op, j));
  }

  lemma FollowsIsLater(j: Job, c: Computed)
    requires Follows(j, c) && c.Ok?
    ensures Later(j, c.value.job)
  {}

  // ----- what single operations save

  lemma SimulationSaved(j: Job, answer: Option<SimulationReport>, before: JobTable, after: JobTable, r: Result<Job, ServiceError>)
    requires Sound(j) && j.status.PLAN_READY? && j.plan.Some?
    requires Performed(j, if answer.Some? then OpRecordSimulation(answer.value) else OpFail(SimulationFailed, SIMULATION_FAILED),
                       before, after, r)
    ensures SavedOver(j, SimulatedAs(j, answer), before, after, r)
  {
    var op := if answer.Some? then OpRecordSimulation(answer.value) else OpFail(SimulationFailed, SIMULATION_FAILED);
    SimulationResult(j, answer);
    PerformedSaves(j, op, SimulatedAs(j, answer), before, after, r);
  }

  lemma PlanSaved(j: Job, answer: Option<Simulator.SealedPlan>, before: JobTable, after: JobTable, r: Result<Job, ServiceError>)
    requires Sound(j) && j.status.ANALYSING? && j.incident.Some? && j.scan.Some?
    requires Performed(j, if answer.Some? then OpRecordPlan(answer.value) else OpFail(PlanFailed, PLAN_FAILED), before, after, r)
    ensures SavedOver(j, Planned(j, answer), before, after, r)
  {
    var op := if answer.Some? then OpRecordPlan(answer.value) else OpFail(PlanFailed, PLAN_FAILED);
    PlanResult(j, answer);
    PerformedSaves(j, op, Planned(j, answer), before, after, r);
  }

  /** The start of an analysis: saved as ANALYSING with its incident, or refused without a change. */
  ghost predicate StartedAs(j: Job, supplied: Option<Incident>, before: JobTable, after: JobTable, r: Result<Job, ServiceError>) {
    if CanAnalyse(j, supplied)
    then SavedOver(j, Stepped(j.(incident := Scoped(j, supplied)), ANALYSING, ANALYSIS_STARTED), before, after, r)
    else r.Err? && r.error != Conflict && after == before
  }

  lemma StartSaved(j: Job, supplied: Option<Incident>, before: JobTable, after: JobTable, r: Result<Job, ServiceError>)
    requires Sound(j) && Performed(j, OpStartAnalysis(supplied), before, after, r)
    ensures StartedAs(j, supplied, before, after, r)
  {
    AnalysisResult(j, supplied);
    if CanAnalyse(j, supplied) {
      PerformedSaves(j, OpStartAnalysis(supplied), Stepped(j.(incident := Scoped(j, supplied)), ANALYSING, ANALYSIS_STARTED),
                     before, after, r);
    } else {
      PerformedRefuses(j, OpStartAnalysis(supplied), before, after, r);
    }
  }

  lemma ScanSaved(j: Job, answer: Option<Planner.Scan>, before: JobTable, after: JobTable, r: Result<Job, ServiceError>)
    requires Sound(j) && j.status.ANALYSING?
    requires Performed(j, if answer.Some? then OpRecordScan(answer.value) else OpFail(AnalysisFailed, ANALYSIS_FAILED), before, after, r)
    ensures SavedOver(j, Analysed(j, answer), before, after, r)
  {
    var op := if answer.Some? then OpRecordScan(answer.value) else OpFail(AnalysisFailed, ANALYSIS_FAILED);
    ScanResult(j, answer);
    PerformedSaves(j, op, Analysed(j, answer), before, after, r);
  }

  lemma ObservationSaved(j: Job, answer: Option<Observation>, before: JobTable, after: JobTable, r: Result<Job, ServiceError>)
    requires Sound(j) && AwaitsBuyer(j.status) && j.plan.Some?
    requires Performed(j, if answer.Some? then OpObserve(answer.value) else OpFail(MonitorFailed, RESCUE_FAILED), before, after, r)
    ensures SavedOver(j, if answer.Some? then ObservedAs(j, answer.value) else Failed(j, MonitorFailed, RESCUE_FAILED), before, after, r)
  {
    if answer.Some? {
      ObserveResult(j, answer.value);
      PerformedSaves(j, OpObserve(answer.value), ObservedAs(j, answer.value), before, after, r);
    } else {
      FailSaves(j, j, MonitorFailed, RESCUE_FAILED);
      PerformedSaves(j, OpFail(MonitorFailed, RESCUE_FAILED), Failed(j, MonitorFailed, RESCUE_FAILED), before, after, r);
    }
  }

  // ----- what single operations give

  predicate IsFresh(report: SimulationReport, until: int) {
    var executable := Filter((x: Recorded) => x.result.actionId in report.executableActionIds, report.results);
    && |executable| == |ToSet(report.executableActionIds)|
    && forall x :: x in executable ==> x.result.expiresAt > until
  }

  /** How a fresh report is meant: every executable action has a result, and they all last longer. */
  ghost predicate AllLast(report: SimulationReport, until: int) {
    && (forall id :: id in report.executableActionIds ==> exists x :: x in report.results && x.result.actionId == id)
    && forall x :: x in report.results && x.result.actionId in report.executableActionIds ==> x.result.expiresAt > until
  }

  function ResultIds(results: seq<Recorded>): seq<string> {
    seq(|results|, i requires 0 <= i < |results| => results[i].result.actionId)
  }

  /** The count of results decides it, when no two of them are of one action. */
  lemma FreshMeans(report: SimulationReport, until: int)
    requires Distinct(ResultIds(report.results))
    ensures IsFresh(report, until) <==> AllLast(report, until)
  {
    var keep := (x: Recorded) => x.result.actionId in report.executableActionIds;
    var executable := Filter(keep, report.results);
    var found, wanted := ToSet(ResultIds(executable)), ToSet(report.executableActionIds);
    FilteredIds(keep, report.results);
    DistinctCount(ResultIds(executable));
    forall id ensures id in found <==> id in wanted && exists x :: x in report.results && x.result.actionId == id {
      if id in found {
        var i :| 0 <= i < |executable| && ResultIds(executable)[i] == id;
        assert executable[i] in executable;
      }
      if x :| x in report.results && x.result.actionId == id && id in wanted {
        var i :| 0 <= i < |executable| && executable[i] == x;
        assert ResultIds(executable)[i] == id;
      }
    }
    assert found <= wanted;
    if |found| == |wanted| {
      SubsetSameSize(found, wanted);
      assert forall id :: id in report.executableActionIds <==> id in wanted;
    }
    assert IsFresh(report, until) <==> found == wanted && forall x :: x in executable ==> x.result.expiresAt > until;
  }

  lemma {:induction false} DistinctCons(x: string, s: seq<string>)
    ensures Distinct([x] + s) <==> Distinct(s) && x !in s
  {
    var all := [x] + s;
    assert forall i :: 0 <= i < |s| ==> all[i + 1] == s[i];
    if Distinct(all) {
      forall i | 0 <= i < |s| ensures s[i] != x {
        assert all[0] != all[i + 1];
      }
    }
  }

  lemma {:induction false} IdsOfSome(some: seq<Recorded>, all: seq<Recorded>, id: string)
    requires forall x :: x in some ==> x in all
    ensures id in ResultIds(some) ==> id in ResultIds(all)
  {
    if id in ResultIds(some) {
      var i :| 0 <= i < |some| && ResultIds(some)[i] == id;
      assert some[i] in all;
      var k :| 0 <= k < |all| && all[k] == some[i];
      assert ResultIds(all)[k] == id;
    }
  }

  lemma {:induction false} FilteredIds(keep: Recorded -> bool, results: seq<Recorded>)
    requires Distinct(ResultIds(results))
    ensures Distinct(ResultIds(Filter(keep, results)))
  {
    if results == [] {
    } else {
      var id, rest := results[0].result.actionId, Filter(keep, results[1..]);
      assert ResultIds(results) == [id] + ResultIds(results[1..]);
      DistinctCons(id, ResultIds(results[1..]));
      FilteredIds(keep, results[1..]);
      IdsOfSome(rest, results[1..], id);
      DistinctCons(id, ResultIds(rest));
      assert ResultIds([results[0]] + rest) == [id] + ResultIds(rest);
      assert Filter(keep, results) == if keep(results[0]) then [results[0]] + rest else rest;
    }
  }

  ghost predicate AllMatch(j: Job, packages: seq<Package>, n: nat, now: int)
    requires n <= |packages|
  {
    forall i :: 0 <= i < n ==> PackageMatches(j, packages[i], now)
  }

  /** The first n packages match the job and follow the plan. */
  ghost predicate Validated(j: Job, packages: seq<Package>, n: nat, now: int)
    requires n <= |packages| && CanIssue(j)
  {
    AllMatch(j, packages, n, now) && InPlanOrder(j.plan.value.plan.actions, packages[..n])
  }

  function PreviousIndex(actions: seq<RescueAction>, packages: seq<Package>, n: nat): int
    requires n <= |packages|
  {
    if n == 0 then -1 else IndexOf(actions, packages[n - 1].actionId)
  }

  lemma {:induction false} NothingToValidate(j: Job, packages: seq<Package>, now: int)
    requires CanIssue(j)
    ensures Validated(j, packages, 0, now)
    ensures Validated(j, packages, |packages|, now) <==>
            (forall i :: 0 <= i < |packages| ==> PackageMatches(j, packages[i], now)) && InPlanOrder(j.plan.value.plan.actions, packages)
  {
    assert packages[..|packages|] == packages;
  }

  lemma {:induction false} MatchStep(j: Job, packages: seq<Package>, n: nat, now: int)
    requires n < |packages|
    ensures AllMatch(j, packages, n + 1, now) <==> AllMatch(j, packages, n, now) && PackageMatches(j, packages[n], now)
    ensures AllMatch(j, packages, |packages|, now) ==> AllMatch(j, packages, n + 1, now)
  {}

  lemma {:induction false} ValidatedStep(j: Job, packages: seq<Package>, n: nat, now: int)
    requires n < |packages| && CanIssue(j) && Validated(j, packages, n, now)
    ensures var actions := j.plan.value.plan.actions;
            Validated(j, packages, n + 1, now) <==>
            PackageMatches(j, packages[n], now) && IndexOf(actions, packages[n].actionId) > PreviousIndex(actions, packages, n)
    ensures Validated(j, packages, |packages|, now) ==> Validated(j, packages, n + 1, now)
  {
    MatchStep(j, packages, n, now);
    OrderExtends(j.plan.value.plan.actions, packages, n);
    assert packages[..|packages|] == packages;
  }

  lemma {:induction false} OrderExtends(actions: seq<RescueAction>, packages: seq<Package>, n: nat)
    requires n < |packages| && InPlanOrder(actions, packages[..n])
    ensures InPlanOrder(actions, packages[..n + 1]) <==>
            IndexOf(actions, packages[n].actionId) > PreviousIndex(actions, packages, n)
    ensures InPlanOrder(actions, packages) ==> InPlanOrder(actions, packages[..n + 1])
  {}

  lemma IssuedListValid(j: Job)
    requires Valid(j) && Issued(j) != []
    ensures PackageListValid(Issued(j))
  {}

  lemma IssuingIssues(j: Job, packages: seq<Package>, now: int, before: JobTable, after: JobTable, r: Result<Job, ServiceError>)
    requires Performed(j, OpIssuePackages(packages, now), before, after, r) && r.Ok?
    ensures Issued(r.value) == packages && PackageListValid(packages) && forall p :: p in packages ==> p.expiresAt > now
  {
    PerformedMeans(j, OpIssuePackages(packages, now), before, after, r);
  }

  function Reporting(report: Report, verified: nat -> Result<Observation, VerifierError>): nat -> Op {
    (n: nat) => OpRecordReport(report, verified(n))
  }

  function Registering(packageId: string, hash: string): nat -> Op {
    n => OpRegisterReceipt(packageId, hash)
  }

  function Setting(packageId: string, hash: string, status: SubmissionStatus): nat -> Op {
    n => OpSetReceiptStatus(packageId, hash, status)
  }

  /** Every receipt a report names is confirmed. */
  ghost predicate ReceiptsConfirmed(j: Job, report: Report) {
    forall s :: (s in Submissions(j) && s.packageId == report.packageId
                 && Lower(s.transactionHash) in LowerSet(report.transactionHashes)) ==> s.status.CONFIRMED?
  }

  lemma ConfirmingConfirms(j: Job, report: Report, next: Job)
    requires var receipts := ConfirmedReceipts(j, report.packageId, report.transactionHashes);
             next.receiptSubmissions == if receipts.Some? then receipts else j.receiptSubmissions
    ensures ReceiptsConfirmed(next, report)
  {}

  lemma VerifiedReportReceipts(j: Job, report: Report, o: Observation)
    requires j.plan.Some? && RecordVerified(j, report, o).Ok?
    ensures var receipts := ConfirmedReceipts(j, report.packageId, report.transactionHashes);
            RecordVerified(j, report, o).value.job.receiptSubmissions == if receipts.Some? then receipts else j.receiptSubmissions
  {
    PhaseIsReachable(j, Union(CompletedIds(j), o.completedActionIds));
    JobOutcomes.AdvanceChanges(j, Merged(j, o), ConfirmedReceipts(j, report.packageId, report.transactionHashes));
  }

  lemma RetriedReportReceipts(j: Job, report: Report)
    requires RetryReport(j, report).Ok?
    ensures var receipts := ConfirmedReceipts(j, report.packageId, report.transactionHashes);
            RetryReport(j, report).value.job.receiptSubmissions == if receipts.Some? then receipts else j.receiptSubmissions
  {}

  /** A report that is accepted confirms its receipts. */
  lemma ReportConfirms(j: Job, report: Report, verified: Result<Observation, VerifierError>)
    requires RecordReport(j, report, verified).Ok?
    ensures ReceiptsConfirmed(RecordReport(j, report, verified).value.job, report)
  {
    if AwaitsBuyer(j.status) {
      VerifiedReportReceipts(j, report, verified.value);
    } else {
      RetriedReportReceipts(j, report);
    }
    ConfirmingConfirms(j, report, RecordReport(j, report, verified).value.job);
  }

  lemma AppliedReportConfirms(j: Job, op: Op)
    requires op.OpRecordReport? && Apply(op, j).Ok?
    ensures ReceiptsConfirmed(Apply(op, j).value.job, op.buyerReport)
  {
    ReportConfirms(j, op.buyerReport, op.verified);
  }

  lemma ReportOutcome(j: Job, op: Op)
    requires op.OpRecordReport?
    ensures var c := Apply(op, j);
            && (c.Err? && c.error.Verifier? ==> op.verified == Err(c.error.error))
            && (c.Ok? && !IsTerminal(j.status) ==> op.verified.Ok?)
            && (c.Ok? && IsTerminal(j.status) ==> IsTerminal(c.value.job.status))
  {}

  lemma ReportAsVerified(j: Job, report: Report, verified: Result<Observation, VerifierError>,
                         before: JobTable, after: JobTable, r: Result<Job, ServiceError>)
    requires Performed(j, OpRecordReport(report, verified), before, after, r)
    ensures r.Ok? ==> verified.Ok? || IsTerminal(r.value.status)
    ensures r.Err? && r.error.Verifier? ==> verified == Err(r.error.error)
  {
    var op := OpRecordReport(report, verified);
    PerformedMeans(j, op, before, after, r);
    ReportOutcome(j, op);
    AnswerAsComputed(j, Apply(op, j), verified, before, after, r);
  }

  /** What recording a report gives: a refusal, with the verifier's own if it was asked; nothing new; or
      a record with the report in it. */
  ghost predicate RecordedAs(j: Job, report: Report, verified: Result<Observation, VerifierError>,
                             before: JobTable, after: JobTable, r: Result<Job, ServiceError>) {
    && (!Acceptable(j, report, verified) ==> r.Err? && after == before)
    && (AwaitsBuyer(j.status) && j.plan.Some? && (exists p :: ReportsOn(j, p, report)) && verified.Err? ==>
          r == Err(Verifier(verified.error)))
    && (Acceptable(j, report, verified) && NothingNew(j, report) ==> r == Ok(j) && after == before)
    && (Acceptable(j, report, verified) && !NothingNew(j, report) ==>
          exists next :: ReportedAs(j, report, verified, next) && SavedOver(j, next, before, after, r))
  }

  lemma ReportRecorded(j: Job, report: Report, verified: Result<Observation, VerifierError>,
                       before: JobTable, after: JobTable, r: Result<Job, ServiceError>)
    requires Sound(j) && Performed(j, OpRecordReport(report, verified), before, after, r)
    ensures RecordedAs(j, report, verified, before, after, r)
  {
    var op := OpRecordReport(report, verified);
    PerformedMeans(j, op, before, after, r);
    ReportAcceptedIff(j, report, verified);
    if Acceptable(j, report, verified) {
      var next := ReportResult(j, report, verified);
      if !NothingNew(j, report) {
        PerformedSaves(j, op, next, before, after, r);
      }
    }
  }

  lemma AnswerAsComputed(j: Job, c: Computed, verified: Result<Observation, VerifierError>,
                         before: JobTable, after: JobTable, r: Result<Job, ServiceError>)
    requires PerformedWith(j, c, before, after, r)
    requires c.Ok? && IsTerminal(j.status) ==> IsTerminal(c.value.job.status)
    requires c.Err? && c.error.Verifier? ==> verified == Err(c.error.error)
    requires c.Ok? && !IsTerminal(j.status) ==> verified.Ok?
    ensures r.Ok? ==> verified.Ok? || IsTerminal(r.value.status)
    ensures r.Err? && r.error.Verifier? ==> verified == Err(r.error.error)
  {
    PerformedAsComputed(j, c, before, after, r);
  }

  lemma PerformedAsComputed(j: Job, c: Computed, before: JobTable, after: JobTable, r: Result<Job, ServiceError>)
    requires PerformedWith(j, c, before, after, r)
    ensures r.Ok? ==> c.Ok? && r.value == c.value.job
    ensures r.Err? && r.error != Conflict ==> c == Err(r.error)
  {}

  lemma ReportingConfirms(j: Job, report: Report, verified: nat -> Result<Observation, VerifierError>, n: nat,
                          before: JobTable, after: JobTable, r: Result<Job, ServiceError>)
    requires Performed(j, OpRecordReport(report, verified(n)), before, after, r) && r.Ok?
    ensures ReceiptsConfirmed(r.value, report)
  {
    var op := OpRecordReport(report, verified(n));
    PerformedMeans(j, op, before, after, r);
    PerformedAsComputed(j, Apply(op, j), before, after, r);
    AppliedReportConfirms(j, op);
  }

  lemma RegisteringRegisters(j: Job, packageId: string, hash: string, before: JobTable, after: JobTable, r: Result<Job, ServiceError>)
    requires Performed(j, OpRegisterReceipt(packageId, hash), before, after, r) && r.Ok?
    ensures Registered(r.value, hash, packageId)
    ensures !Registered(j, hash, packageId) ==>
              AwaitsBuyer(r.value.status) && Submissions(r.value) == Submissions(j) + [Submission(packageId, hash, PENDING)]
  {
    PerformedMeans(j, OpRegisterReceipt(packageId, hash), before, after, r);
    var existing := FindSubmission(Submissions(j), hash);
    if existing.Some? {
      var i :| 0 <= i < |Submissions(j)| && Submissions(j)[i] == existing.value;
    } else {
      assert Submissions(r.value)[|Submissions(j)|] == Submission(packageId, hash, PENDING);
    }
  }

  lemma StillRegistered(a: Job, b: Job, hash: string, packageId: string)
    requires Later(a, b) && Registered(a, hash, packageId)
    ensures Registered(b, hash, packageId)
  {}

  lemma OnlySubmission(j: Job, s: Submission, hash: string)
    requires Valid(j) && s in Submissions(j) && SameText(s.transactionHash, hash)
    ensures Registered(j, hash, s.packageId)
    ensures forall t :: t in Submissions(j) && SameText(t.transactionHash, hash) ==> t == s
  {}

  /** The receipt registered for this package has this status. */
  ghost predicate HasStatus(j: Job, packageId: string, hash: string, status: SubmissionStatus) {
    forall s :: (s in Submissions(j) && s.packageId == packageId && SameText(s.transactionHash, hash)) ==> s.status == status
  }

  lemma ConfirmedStatus(j: Job, report: Report, packageId: string, hash: string)
    requires ReceiptsConfirmed(j, report) && report.packageId == packageId && report.transactionHashes == [hash]
    ensures HasStatus(j, packageId, hash, CONFIRMED)
  {}

  lemma StatusIsSet(j: Job, packageId: string, hash: string, status: SubmissionStatus,
                    before: JobTable, after: JobTable, r: Result<Job, ServiceError>)
    requires Performed(j, OpSetReceiptStatus(packageId, hash, status), before, after, r) && r.Ok?
    ensures HasStatus(r.value, packageId, hash, status)
  {
    PerformedMeans(j, OpSetReceiptStatus(packageId, hash, status), before, after, r);
    var changed := WithStatus(Submissions(j), packageId, hash, status);
    assert Submissions(r.value) == changed;
  }

  /** reportForReceiptSubmission: the report that the service writes for a registered receipt. */
  function ReportForSubmission(j: Job, packageId: string, hash: string): (r: Option<Report>)
    ensures r.Some? ==> r.value.packageId == packageId && r.value.transactionHashes == [hash]
  {
    var p := FindPackage(Issued(j), packageId);
    if p.None? || j.simulation.None? || FindRecorded(j.simulation.value.results, p.value.resultId).None? then None
    else Some(Report(packageId, j.id, p.value.incidentId, p.value.planId, p.value.planHash, p.value.actionId, p.value.route,
                     p.value.chainId, p.value.sourceAddress, p.value.destinationAddress, [hash]))
  }

  /** Such a report is always within the scope of its package. */
  lemma WrittenReportsAreInScope(j: Job, packageId: string, hash: string)
    requires ReportForSubmission(j, packageId, hash).Some?
    ensures ReportedPackage(j, ReportForSubmission(j, packageId, hash).value) == FindPackage(Issued(j), packageId)
  {}

  lemma StaleStep(j: Job, c: Computed, before: JobTable, after: JobTable, r: Result<Job, ServiceError>)
    requires IsSnapshot(j, before) && PerformedWith(j, c, before, after, r) && Follows(j, c) && before[j.id] != j
    ensures after == before && after[j.id].revision > j.revision && (r == Ok(j) || r.Err?)
  {}

  lemma StaleIsRefused(j: Job, op: Op, before: JobTable, after: JobTable, r: Result<Job, ServiceError>)
    requires IsSnapshot(j, before) && Performed(j, op, before, after, r) && before[j.id] != j
    ensures after == before && after[j.id].revision > j.revision && (r == Ok(j) || r.Err?)
  {
    PerformedMeans(j, op, before, after, r);
    OperationsFollow(op, j);
    StaleStep(j, Apply(op, j), before, after, r);
  }

  lemma AnalysisStarts(j: Job, supplied: Option<Incident>)
    ensures StartAnalysis(j, supplied).Ok? ==>
              StartAnalysis(j, supplied).value.Save? && StartAnalysis(j, supplied).value.job.status.ANALYSING?
  {}

  lemma AnalysisStarted(j: Job, supplied: Option<Incident>, loaded: JobTable, before: JobTable, after: JobTable, r: Result<Job, ServiceError>)
    requires IsSnapshot(j, loaded) && Evolves(loaded, before) && Performed(j, OpStartAnalysis(supplied), before, after, r) && r.Ok?
    ensures IsSnapshot(r.value, after) && r.value.id == j.id && after[j.id] == r.value && r.value.status.ANALYSING?
  {
    SnapshotEvolves(j, loaded, before);
    PerformedEvolves(j, OpStartAnalysis(supplied), before, after, r);
    PerformedMeans(j, OpStartAnalysis(supplied), before, after, r);
    AnalysisStarts(j, supplied);
  }

  lemma DashboardSaved(j: Job, url: string, before: JobTable, after: JobTable, r: Result<Job, ServiceError>)
    requires Sound(j) && Performed(j, OpSetDashboard(url), before, after, r)
    ensures SavedOver(j, j.(dashboardUrl := Some(url), revision := j.revision + 1), before, after, r)
  {
    DashboardResult(j, url);
    PerformedSaves(j, OpSetDashboard(url), j.(dashboardUrl := Some(url), revision := j.revision + 1), before, after, r);
  }

  lemma MarkSaved(j: Job, packageId: string, hash: string, status: SubmissionStatus,
                  before: JobTable, after: JobTable, r: Result<Job, ServiceError>)
    requires Sound(j) && Performed(j, OpSetReceiptStatus(packageId, hash, status), before, after, r)
    ensures SavedOver(j, Marked(j, packageId, hash, status), before, after, r)
  {
    MarkingResult(j, packageId, hash, status);
    PerformedSaves(j, OpSetReceiptStatus(packageId, hash, status), Marked(j, packageId, hash, status), before, after, r);
  }

  predicate HasPackage(j: Job, packageId: string) {
    exists p :: p in Issued(j) && p.packageId == packageId
  }

  /** What registering a receipt gives: a new pending one, nothing new, or a refusal. */
  ghost predicate RegisteredAs(j: Job, packageId: string, hash: string, before: JobTable, after: JobTable, r: Result<Job, ServiceError>) {
    && (NotRegistered(j, hash) ==>
          if CanRegister(j, packageId) then
            SavedOver(j, j.(receiptSubmissions := Some(Submissions(j) + [Submission(packageId, hash, PENDING)]), revision := j.revision + 1),
                      before, after, r)
          else r.Err? && after == before)
    && (forall bound :: Registered(j, hash, bound) ==>
          && after == before
          && r == if !HasPackage(j, packageId) then Err(NoPackage) else if bound == packageId then Ok(j) else Err(HashTaken))
  }

  lemma RegistrationSaved(j: Job, packageId: string, hash: string, before: JobTable, after: JobTable, r: Result<Job, ServiceError>)
    requires Sound(j) && Performed(j, OpRegisterReceipt(packageId, hash), before, after, r)
    ensures RegisteredAs(j, packageId, hash, before, after, r)
  {
    var op := OpRegisterReceipt(packageId, hash);
    if NotRegistered(j, hash) {
      NewRegistrationSaved(j, packageId, hash, before, after, r);
    }
    forall bound | Registered(j, hash, bound)
      ensures after == before
      ensures r == if !HasPackage(j, packageId) then Err(NoPackage) else if bound == packageId then Ok(j) else Err(HashTaken)
    {
      RegisteringAgain(j, packageId, hash, bound);
      PerformedMeans(j, op, before, after, r);
    }
  }

  lemma NewRegistrationSaved(j: Job, packageId: string, hash: string, before: JobTable, after: JobTable, r: Result<Job, ServiceError>)
    requires Sound(j) && NotRegistered(j, hash) && Performed(j, OpRegisterReceipt(packageId, hash), before, after, r)
    ensures if CanRegister(j, packageId) then
              SavedOver(j, j.(receiptSubmissions := Some(Submissions(j) + [Submission(packageId, hash, PENDING)]), revision := j.revision + 1),
                        before, after, r)
            else r.Err? && after == before
  {
    var op := OpRegisterReceipt(packageId, hash);
    RegisteringResult(j, packageId, hash);
    if CanRegister(j, packageId) {
      PerformedSaves(j, op, j.(receiptSubmissions := Some(Submissions(j) + [Submission(packageId, hash, PENDING)]), revision := j.revision + 1),
                     before, after, r);
    } else {
      PerformedRefuses(j, op, before, after, r);
    }
  }

  // ----- signing packages

  ghost predicate NoneExpired(packages: seq<Package>, now: int) {
    packages != [] && forall i :: 0 <= i < |packages| ==> packages[i].expiresAt > now
  }

  ghost predicate NeedsSimulation(j: Job, now: int)
    requires j.simulation.Some?
  {
    Issued(j) != [] || !IsFresh(j.simulation.value, now + 30_000)
  }

  /** The record packages are issued for: the loaded one, or the loaded one simulated again. */
  ghost function Base(j: Job, now: int, resimulated: Option<SimulationReport>, first: JobTable): Option<Job>
    requires CanIssue(j)
  {
    if !NeedsSimulation(j, now) then Some(j)
    else if resimulated.Some? && ReportFits(j.plan.value, resimulated.value) && !resimulated.value.status.AllFailed?
            && j.id in first && first[j.id] == j
    then Some(Resimulated(j, resimulated.value))
    else None
  }

  /** What asking for packages gives: those issued while none has expired, otherwise the ones built, when
      they fit the job and no other client has saved it in between. */
  ghost function PackagesGiven(j: Job, now: int, resimulated: Option<SimulationReport>, built: Option<seq<Package>>,
                               first: JobTable, second: JobTable): Result<seq<Package>, ServiceError> {
    if NoneExpired(Issued(j), now) then Ok(Issued(j))
    else if !CanIssue(j) then Err(NotAllowed)
    else
      var base := Base(j, now, resimulated, first);
      if base.Some? && built.Some? && PackagesFit(base.value, built.value, now) && j.id in second && second[j.id] == base.value
      then Ok(built.value) else Err(PackagesUnavailable)
  }

  lemma ResimulationSaved(j: Job, s: SimulationReport, before: JobTable, after: JobTable, r: Result<Job, ServiceError>)
    requires Sound(j) && CanIssue(j) && Performed(j, OpResimulate(s), before, after, r)
    ensures if ReportFits(j.plan.value, s) && !s.status.AllFailed? then SavedOver(j, Resimulated(j, s), before, after, r)
            else r.Err? && after == before
  {
    ResimulationResult(j, s);
    if ReportFits(j.plan.value, s) && !s.status.AllFailed? {
      PerformedSaves(j, OpResimulate(s), Resimulated(j, s), before, after, r);
    } else {
      PerformedRefuses(j, OpResimulate(s), before, after, r);
    }
  }

  lemma IssueSaved(j: Job, packages: seq<Package>, now: int, before: JobTable, after: JobTable, r: Result<Job, ServiceError>)
    requires Sound(j) && CanIssue(j) && Performed(j, OpIssuePackages(packages, now), before, after, r)
    ensures if PackagesFit(j, packages, now) then SavedOver(j, IssuedAs(j, packages), before, after, r) else r.Err? && after == before
  {
    IssueResult(j, packages, now);
    if PackagesFit(j, packages, now) {
      PerformedSaves(j, OpIssuePackages(packages, now), IssuedAs(j, packages), before, after, r);
    } else {
      PerformedRefuses(j, OpIssuePackages(packages, now), before, after, r);
    }
  }

  lemma UnvalidatedDoNotFit(j: Job, packages: seq<Package>, now: int)
    requires Sound(j) && CanIssue(j) && (!PackageListValid(packages) || !Validated(j, packages, |packages|, now))
    ensures !PackagesFit(j, packages, now)
  {
    NothingToValidate(j, packages, now);
    PackagesFitIff(j, packages, now);
  }
}
