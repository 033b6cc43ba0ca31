/** What a finished rescue means in the live deployment, whose reports come from the simulator and
    whose monitor only reviews (apps/web/src/lib/agent-runtime.ts:369-417). */
module JobOutcomes {
  import opened Basics
  import opened RescueActions
  import opened Jobs
  import opened JobOperations
  import opened JobHistory
  import opened JobStore
  import opened JobRuns
  import opened JobResults
  import opened LiveSimulation
  import BuyerReports
  import Planner
  import Simulator
  import LocalProvider

  ghost predicate WithinPlan(report: SimulationReport, p: RescueActions.Plan) {
    && (forall id :: id in report.executableActionIds ==> id in ActionIdsOf(p))
    && (forall id :: id in report.excludedActionIds ==> id in ActionIdsOf(p))
  }

  const REVIEW_ONLY: Observation := Observation(WAITING_FOR_USER, [], [], [])

  /** The ports of the live deployment. */
  ghost predicate Live(op: Op, j: Job) {
    match op
    case OpRecordSimulation(report) => j.plan.Some? ==> FromSimulator(j.plan.value, report)
    case OpResimulate(report) => j.plan.Some? ==> FromSimulator(j.plan.value, report)
    case OpObserve(o) => o == REVIEW_ONLY
    case _ => true
  }

  ghost predicate Issues(j: Job, id: string) {
    exists i :: 0 <= i < |Issued(j)| && Issued(j)[i].actionId == id
  }

  ghost predicate EverythingDone(j: Job) {
    j.plan.Some? && forall a :: a in j.plan.value.plan.actions ==> a.id in CompletedIds(j)
  }

  ghost predicate IssuedDoneOthersNot(j: Job) {
    && j.plan.Some? && j.simulation.Some?
    && (forall p :: p in Issued(j) ==> p.actionId in CompletedIds(j))
    && exists a :: a in j.plan.value.plan.actions
                   && (a.id in j.simulation.value.excludedActionIds || !Issues(j, a.id))
  }

  ghost predicate SimulationFits(j: Job) {
    j.simulation.Some? && j.plan.Some? ==>
      Covers(j.simulation.value, j.plan.value.plan) && WithinPlan(j.simulation.value, j.plan.value.plan)
  }

  /** What the final status says. */
  ghost predicate OutcomeTrue(j: Job) {
    && SimulationFits(j)
    && (j.status.COMPLETED? ==> EverythingDone(j))
    && (j.status.PARTIAL? ==> IssuedDoneOthersNot(j))
  }

  // ----- one operation

  ghost predicate TrueAfter(c: Computed) {
    c.Ok? ==> OutcomeTrue(c.value.job)
  }

  lemma UpdateTrue(j: Job, patched: Job)
    requires OutcomeTrue(j) && patched.status == j.status && SimulationFits(patched)
    requires IsTerminal(j.status) ==> OutcomeKept(j, patched)
    ensures TrueAfter(UpdateJob(j, patched, j.revision))
  {}

  lemma SaveTrue(j: Job, to: Status, reason: Reason, patched: Job)
    requires SimulationFits(patched) && !to.COMPLETED? && !to.PARTIAL?
    ensures TrueAfter(SaveTransition(j, to, reason, patched))
  {}

  lemma FailTrue(j: Job, code: ErrorCode, reason: Reason, patched: Job)
    requires OutcomeTrue(j) && SimulationFits(patched)
    ensures TrueAfter(FailJob(j, code, reason, patched))
  {
    if !j.status.FAILED? {
      SaveTrue(j, FAILED, reason, patched.(error := Some(code)));
    }
  }

  lemma PlanTrue(j: Job, sealed: Simulator.SealedPlan)
    requires Sound(j) && OutcomeTrue(j)
    ensures TrueAfter(RecordPlan(j, sealed))
  {}

  lemma SimulationTrue(j: Job, report: SimulationReport)
    requires Sound(j) && OutcomeTrue(j) && (j.plan.Some? ==> Covers(report, j.plan.value.plan))
    ensures TrueAfter(RecordSimulation(j, report)) && TrueAfter(Resimulate(j, report))
  {
    var patched := j.(simulation := Some(report));
    FailTrue(j, SimulationFailed, SIMULATION_FAILED, j);
    if j.plan.Some? && SimulationMatches(j.plan.value, report) {
      FailTrue(j, SimulationFailed, SIMULATION_FAILED, patched);
      SaveTrue(j, WAITING_FOR_USER, Reason.SIMULATION_READY, patched);
      if CanIssue(j) {
        UpdateTrue(j, patched);
      }
    }
  }

  lemma LiveReportCovers(j: Job, report: SimulationReport)
    requires Valid(j) && j.plan.Some? && FromSimulator(j.plan.value, report)
    ensures Covers(report, j.plan.value.plan)
  {
    SimulatedReportsCover(j.plan.value, report);
  }

  lemma LiveSimulationTrue(j: Job, report: SimulationReport)
    requires Sound(j) && OutcomeTrue(j) && (j.plan.Some? ==> FromSimulator(j.plan.value, report))
    ensures TrueAfter(RecordSimulation(j, report)) && TrueAfter(Resimulate(j, report))
  {
    if j.plan.Some? {
      LiveReportCovers(j, report);
    }
    SimulationTrue(j, report);
  }

  lemma ObserveTrue(j: Job)
    requires OutcomeTrue(j)
    ensures TrueAfter(Observe(j, REVIEW_ONLY))
  {}

  /** The phase of a merged observation is right about the plan. */
  lemma PhaseIsRight(j: Job, o: Observation, receipts: Option<seq<Submission>>, done: Job)
    requires SimulationFits(j) && j.plan.Some? && j.simulation.Some?
    requires done.plan == j.plan && done.simulation == j.simulation && Issued(done) == Issued(j)
    requires done.monitor == Some(Merged(j, o)) && done.status == Merged(j, o).phase
    ensures OutcomeTrue(done)
  {
    var completed := CompletedIds(done);
    var report := j.simulation.value;
    if done.status.COMPLETED? {
      forall a | a in j.plan.value.plan.actions ensures a.id in completed {
        assert a.id in report.executableActionIds;
        var k :| 0 <= k < |report.executableActionIds| && report.executableActionIds[k] == a.id;
        var i :| 0 <= i < |Issued(j)| && Issued(j)[i].actionId == report.executableActionIds[k];
      }
    }
    if done.status.PARTIAL? {
      var a := NotDone(j);
      assert Issued(done) == Issued(j);
    }
  }

  /** If something is uncovered or excluded, some action of the plan is. */
  lemma NotDone(j: Job) returns (a: RescueAction)
    requires SimulationFits(j) && j.plan.Some? && j.simulation.Some? && (Uncovered(j) || HasExcluded(j))
    ensures a in j.plan.value.plan.actions
    ensures a.id in j.simulation.value.excludedActionIds || !Issues(j, a.id)
  {
    var report := j.simulation.value;
    var id;
    if HasExcluded(j) {
      id := report.excludedActionIds[0];
      assert id in report.excludedActionIds;
    } else {
      var k :| 0 <= k < |report.executableActionIds|
               && forall i :: 0 <= i < |Issued(j)| ==> Issued(j)[i].actionId != report.executableActionIds[k];
      id := report.executableActionIds[k];
      assert id in report.executableActionIds;
    }
    a :| a in j.plan.value.plan.actions && a.id == id;
  }

  ghost predicate Arrives(j: Job, o: Observation, receipts: Option<seq<Submission>>, next: Job) {
    && next.receiptSubmissions == (if receipts.Some? then receipts else j.receiptSubmissions)
    && next.plan == j.plan && next.simulation == j.simulation && Issued(next) == Issued(j)
    && next.monitor == Some(o) && next.status == o.phase
  }

  lemma ForwardChanges(j: Job, from: Status, to: Status, reason: Reason)
    requires Forward(j, from, to, reason).Ok?
    ensures var next := Forward(j, from, to, reason).value;
            next == j.(status := next.status, history := next.history, revision := next.revision)
  {}

  lemma ArriveChanges(j: Job, at: Job, o: Observation, receipts: Option<seq<Submission>>)
    requires at == j.(status := at.status, history := at.history, revision := at.revision)
    requires Arrive(at, o, receipts, j.revision).Ok?
    ensures Arrive(at, o, receipts, j.revision).value.Save? && Arrives(j, o, receipts, Arrive(at, o, receipts, j.revision).value.job)
  {}

  lemma FinishChanges(j: Job, at: Job, o: Observation, receipts: Option<seq<Submission>>)
    requires at == j.(status := at.status, history := at.history, revision := at.revision)
    requires IsTerminal(o.phase) && Finish(at, o, receipts, j.revision).Ok?
    ensures Finish(at, o, receipts, j.revision).value.Save? && Arrives(j, o, receipts, Finish(at, o, receipts, j.revision).value.job)
  {}

  /** What advancing to an observation changes. */
  lemma AdvanceChanges(j: Job, o: Observation, receipts: Option<seq<Submission>>)
    requires (AwaitsBuyer(o.phase) || IsTerminal(o.phase)) && AdvanceToObservation(j, o, receipts).Ok?
    ensures var step := AdvanceToObservation(j, o, receipts).value;
            step.Save? && Arrives(j, o, receipts, step.job)
  {
    if o.phase.WAITING_FOR_USER? {
      ArriveChanges(j, j, o, receipts);
    } else {
      ForwardChanges(j, WAITING_FOR_USER, SIGNING, SIGNING_OBSERVED);
      var signing := Forward(j, WAITING_FOR_USER, SIGNING, SIGNING_OBSERVED).value;
      if o.phase.SIGNING? {
        ArriveChanges(j, signing, o, receipts);
      } else {
        ForwardChanges(signing, SIGNING, EXECUTING, EXECUTION_OBSERVED);
        if o.phase.EXECUTING? {
          ArriveChanges(j, TowardsExecution(j).value, o, receipts);
        } else {
          FinishChanges(j, TowardsExecution(j).value, o, receipts);
        }
      }
    }
  }

  lemma VerifiedTrue(j: Job, report: Report, o: Observation)
    requires OutcomeTrue(j) && j.plan.Some? && j.simulation.Some?
    ensures TrueAfter(RecordVerified(j, report, o))
  {
    var receipts := ConfirmedReceipts(j, report.packageId, report.transactionHashes);
    PhaseIsReachable(j, Union(CompletedIds(j), o.completedActionIds));
    if RecordVerified(j, report, o).Ok? {
      AdvanceChanges(j, Merged(j, o), receipts);
      PhaseIsRight(j, o, receipts, RecordVerified(j, report, o).value.job);
    }
  }

  lemma ReportTrue(j: Job, report: Report, verified: Result<Observation, VerifierError>)
    requires Sound(j) && OutcomeTrue(j)
    ensures TrueAfter(RecordReport(j, report, verified))
  {
    var receipts := ConfirmedReceipts(j, report.packageId, report.transactionHashes);
    if j.status.COMPLETED? || j.status.PARTIAL? {
      if receipts.Some? {
        UpdateTrue(j, j.(receiptSubmissions := receipts));
      }
    } else if AwaitsBuyer(j.status) && verified.Ok? && Issued(j) != [] && j.plan.Some? {
      VerifiedTrue(j, report, verified.value);
    }
  }

  lemma IssueTrue(j: Job, packages: seq<Package>, now: int)
    requires OutcomeTrue(j)
    ensures TrueAfter(IssuePackages(j, packages, now))
  {}

  lemma ReceiptTrue(j: Job, packageId: string, hash: string, status: SubmissionStatus)
    requires OutcomeTrue(j)
    ensures TrueAfter(RegisterReceipt(j, packageId, hash)) && TrueAfter(SetReceiptStatus(j, packageId, hash, status))
  {
    UpdateTrue(j, j);
    UpdateTrue(j, j.(receiptSubmissions := Some(WithStatus(Submissions(j), packageId, hash, status))));
    UpdateTrue(j, j.(receiptSubmissions := Some(Submissions(j) + [Submission(packageId, hash, PENDING)])));
  }

  lemma EarlyTrue(j: Job, supplied: Option<Incident>, scan: Planner.Scan)
    requires Sound(j) && OutcomeTrue(j)
    ensures TrueAfter(StartAnalysis(j, supplied)) && TrueAfter(RecordScan(j, scan))
  {}

  /** Every operation keeps the outcome true. */
  lemma OperationsKeepOutcome(op: Op, j: Job)
    requires Sound(j) && OutcomeTrue(j) && Live(op, j)
    ensures TrueAfter(Apply(op, j))
  {
    match op {
      case OpStartAnalysis(supplied) => EarlyTrue(j, supplied, Planner.Scan("", "", 0, "", false, 0, [], []));
      case OpRecordScan(scan) => EarlyTrue(j, None, scan);
      case OpRecordPlan(sealed) => PlanTrue(j, sealed);
      case OpRecordSimulation(report) => LiveSimulationTrue(j, report);
      case OpResimulate(report) => LiveSimulationTrue(j, report);
      case OpIssuePackages(packages, now) => IssueTrue(j, packages, now);
      case OpSetDashboard(url) => UpdateTrue(j, j.(dashboardUrl := Some(url)));
      case OpObserve(_) => ObserveTrue(j);
      case OpRecordReport(report, verified) => ReportTrue(j, report, verified);
      case OpRegisterReceipt(packageId, hash) => ReceiptTrue(j, packageId, hash, PENDING);
      case OpSetReceiptStatus(packageId, hash, status) => ReceiptTrue(j, packageId, hash, status);
      case OpFail(code, reason) => FailTrue(j, code, reason, j);
    }
  }

  // ----- every run

  ghost predicate TrueLog(log: Log) {
    log.Then? ==> OutcomeTrue(log.commit.job) && TrueLog(log.before)
  }

  ghost predicate LiveEvent(w: World, e: Event) {
    e.Run? && e.client in w.clients ==> Live(e.op, w.clients[e.client].job)
  }

  /** Every operation of the run is one of the live deployment. */
  ghost predicate LiveRun(w: World, events: seq<Event>)
    decreases |events|
  {
    events != [] ==>
      LiveRun(w, events[..|events| - 1]) && LiveEvent(After(w, events[..|events| - 1]), events[|events| - 1])
  }

  lemma {:induction false} LatestTrue(a: Log, b: Log, id: string)
    requires IsPrefix(a, b) && TrueLog(b) && Latest(a, id).Some?
    ensures OutcomeTrue(Latest(a, id).value)
    decreases b, a
  {
    if a != b {
      LatestTrue(a, b.before, id);
    } else if a.commit.job.id != id {
      LatestTrue(a.before, a.before, id);
    }
  }

  lemma StepKeepsTrueLog(w: World, e: Event)
    requires Inv(w) && TrueLog(w.log) && LiveEvent(w, e)
    ensures TrueLog(Next(w, e).log)
  {
    if e.Run? && e.client in w.clients {
      SnapshotTrue(w, e.client);
      OperationsKeepOutcome(e.op, w.clients[e.client].job);
      AttemptKeepsTrueLog(w, e.client, Apply(e.op, w.clients[e.client].job));
    }
  }

  lemma SnapshotTrue(w: World, client: nat)
    requires Inv(w) && TrueLog(w.log) && client in w.clients
    ensures Sound(w.clients[client].job) && OutcomeTrue(w.clients[client].job)
  {
    assert SnapshotOk(w, client);
    SnapshotIsEarlier(w, client);
    LatestTrue(w.clients[client].since, w.log, w.clients[client].job.id);
  }

  lemma AttemptKeepsTrueLog(w: World, client: nat, c: Computed)
    requires TrueLog(w.log) && TrueAfter(c)
    ensures TrueLog(Attempt(w, client, c).log)
  {}

  lemma {:induction false} RunIsTrue(events: seq<Event>)
    requires LiveRun(EMPTY, events)
    ensures TrueLog(After(EMPTY, events).log)
    decreases |events|
  {
    if events == [] {
    } else {
      RunIsTrue(events[..|events| - 1]);
      EveryRun(events[..|events| - 1]);
      StepKeepsTrueLog(After(EMPTY, events[..|events| - 1]), events[|events| - 1]);
    }
  }

  lemma StoredIsTrue(w: World, id: string)
    requires Inv(w) && TrueLog(w.log) && id in w.store
    ensures OutcomeTrue(w.store[id])
  {
    LatestTrue(w.log, w.log, id);
  }

  /** In every run of the live deployment a job that is COMPLETED has every action of its plan
      in its completed set, and one that is PARTIAL has all issued packages completed while some
      action was excluded or never issued. */
  lemma FinishedJobsTellTheTruth(events: seq<Event>, id: string)
    requires LiveRun(EMPTY, events) && id in After(EMPTY, events).store
    ensures OutcomeTrue(After(EMPTY, events).store[id])
  {
    RunIsTrue(events);
    EveryRun(events);
    StoredIsTrue(After(EMPTY, events), id);
  }

  // ----- a simulation of the live deployment

  /** The simulator's reports are always about the plan they were asked for. */
  lemma {:induction false} SimulatorReportsFit(sealed: Simulator.SealedPlan, report: SimulationReport)
    requires DistinctIds(sealed.plan.actions) && FromSimulator(sealed, report)
    ensures ReportFits(sealed, report)
  {
    var actions := sealed.plan.actions;
    var p, client, clock, results :| SimulatedBy(sealed, report, p, client, clock, results);
    ReportedIdsSplit(sealed, report);
    forall i | 0 <= i < |report.results|
      ensures var x := report.results[i];
              && x.result.planId == sealed.plan.id && Lower(x.result.planHash) == Lower(sealed.integrityHash)
              && x.result.actionId in IdSet(actions)
    {
      ResultsAboutPlan(sealed, p, client, clock, results, i);
      assert actions[i] in actions;
    }
  }

  /** In the live deployment a simulation leaves the job waiting for its buyer, with this report,
      exactly when some action's simulation succeeded or there is nothing to do; otherwise it fails it. */
  lemma LiveSimulationOutcome(j: Job, report: SimulationReport)
    requires Valid(j) && j.status.PLAN_READY? && j.plan.Some? && FromSimulator(j.plan.value, report)
    ensures SimulatedAs(j, Some(report))
         == if SomethingSucceeds(report) || j.plan.value.plan.actions == []
            then Stepped(j.(simulation := Some(report)), WAITING_FOR_USER, Reason.SIMULATION_READY)
            else Failed(j.(simulation := Some(report)), SimulationFailed, SIMULATION_FAILED)
  {
    SimulatorReportsFit(j.plan.value, report);
    FailedExactlyWithoutSuccess(j.plan.value, report);
  }

  // ----- the review-only monitor

  lemma FailSucceeds(j: Job, code: ErrorCode, reason: Reason)
    requires Valid(j) && !IsTerminal(j.status)
    ensures FailJob(j, code, reason, j).Ok? && FailJob(j, code, reason, j).value.Save?
    ensures FailJob(j, code, reason, j).value.job.status == FAILED
  {
    var next := j.(error := Some(code), status := FAILED, revision := j.revision + 1,
                   history := BuyerReports.Extend(j.history, j.status, FAILED, reason));
    BuyerReports.ExtendValid(j.history, j.status, FAILED, reason);
    assert Issued(next) == Issued(j);
    assert Valid(next);
  }

  /** The review-only monitor always answers that the buyer is awaited. A poll therefore leaves a
      job alone only before signing; once signing or execution has been observed, it fails the job. */
  lemma ReviewOnlyPollFailsLaterJobs(j: Job)
    requires Valid(j) && AwaitsBuyer(j.status) && j.plan.Some?
    ensures Observe(j, REVIEW_ONLY).Ok? && Observe(j, REVIEW_ONLY).value.Save?
    ensures Observe(j, REVIEW_ONLY).value.job.status == if j.status.WAITING_FOR_USER? then WAITING_FOR_USER else FAILED
  {
    if j.status.WAITING_FOR_USER? {
      BuyerReports.ArriveSucceeds(j, REVIEW_ONLY, None, j.revision);
    } else {
      FailSucceeds(j, MonitorFailed, RESCUE_FAILED);
    }
  }
}
