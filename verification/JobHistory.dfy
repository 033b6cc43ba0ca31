/** What every operation of the agent service keeps of the job it starts from. */
module JobHistory {
  import opened Basics
  import opened RescueActions
  import opened Jobs
  import opened JobOperations
  import Planner
  import Simulator

  predicate BeforePlan(s: Status) {
    s.RECEIVED? || s.WAITING_FOR_SOURCE? || s.ANALYSING?
  }

  /** What holds of every job the service ever stores. */
  ghost predicate Sound(j: Job) {
    Valid(j) && FollowsTable(j.history) && (j.plan.Some? ==> !BeforePlan(j.status))
  }

  ghost predicate ReceiptsKept(a: seq<Submission>, b: seq<Submission>) {
    && |a| <= |b|
    && forall i :: 0 <= i < |a| ==> b[i].packageId == a[i].packageId && b[i].transactionHash == a[i].transactionHash
  }

  /** Once there is a plan, the incident, the scan and the plan stay. */
  ghost predicate ScopeKept(a: Job, b: Job) {
    a.plan.Some? ==> b.incident == a.incident && b.scan == a.scan && b.plan == a.plan
  }

  /** A finished job keeps its status and all that its outcome rests on. */
  ghost predicate OutcomeKept(a: Job, b: Job) {
    IsTerminal(a.status) ==>
      && b.status == a.status && b.history == a.history
      && b.plan == a.plan && b.monitor == a.monitor && b.simulation == a.simulation && Issued(b) == Issued(a)
  }

  /** What a later version `b` of a job keeps of an earlier one. */
  ghost predicate Kept(a: Job, b: Job) {
    && b.id == a.id && b.requestId == a.requestId
    && a.history <= b.history
    && ScopeKept(a, b) && OutcomeKept(a, b)
    && ReceiptsKept(Submissions(a), Submissions(b))
  }

  lemma KeptTransitive(a: Job, b: Job, c: Job)
    requires Kept(a, b) && Kept(b, c)
    ensures Kept(a, c)
  {}

  /** A patch that no operation goes beyond. */
  ghost predicate Patched(j: Job, patched: Job) {
    && patched.id == j.id && patched.requestId == j.requestId
    && ScopeKept(j, patched) && ReceiptsKept(Submissions(j), Submissions(patched))
  }

  lemma TransitionKeeps(j: Job, to: Status, reason: Reason, patched: Job)
    requires Sound(j) && Patched(j, patched) && TransitionJob(j, to, reason, patched).Ok?
    requires patched.plan.Some? ==> !BeforePlan(to)
    ensures var next := TransitionJob(j, to, reason, patched).value;
            Sound(next) && Kept(j, next) && next.revision == j.revision + 1
  {}

  /** What is saved replaces exactly the loaded revision and keeps what must be kept. */
  ghost predicate Follows(j: Job, c: Computed) {
    match c
    case Ok(Save(next, expected)) => expected == j.revision && next.revision > j.revision && Sound(next) && Kept(j, next)
    case Ok(Keep(same)) => same == j
    case Err(_) => true
  }

  lemma FailFollows(j: Job, code: ErrorCode, reason: Reason, patched: Job)
    requires Sound(j) && Patched(j, patched) && (patched.plan.Some? ==> j.plan.Some?)
    ensures Follows(j, FailJob(j, code, reason, patched))
  {
    var failing := patched.(error := Some(code));
    if !j.status.FAILED? && TransitionJob(j, FAILED, reason, failing).Ok? {
      TransitionKeeps(j, FAILED, reason, failing);
    }
  }

  lemma SaveFollows(j: Job, to: Status, reason: Reason, patched: Job)
    requires Sound(j) && Patched(j, patched) && (patched.plan.Some? ==> !BeforePlan(to))
    ensures Follows(j, SaveTransition(j, to, reason, patched))
  {
    if TransitionJob(j, to, reason, patched).Ok? {
      TransitionKeeps(j, to, reason, patched);
    }
  }

  lemma UpdateFollows(j: Job, patched: Job)
    requires Sound(j) && Patched(j, patched) && OutcomeKept(j, patched)
    requires patched.status == j.status && patched.history == j.history
    requires patched.plan.Some? ==> !BeforePlan(j.status)
    ensures Follows(j, UpdateJob(j, patched, j.revision))
  {}

  // ----- advancing to an observation

  lemma ForwardKeeps(j: Job, from: Status, to: Status, reason: Reason)
    requires Sound(j) && !BeforePlan(to) && Forward(j, from, to, reason).Ok?
    ensures var next := Forward(j, from, to, reason).value;
            && Sound(next) && Kept(j, next) && next.revision >= j.revision
            && next == j.(status := next.status, history := next.history, revision := next.revision)
            && (next.status != j.status ==> j.status == from && next.status == to)
  {
    if j.status == from {
      TransitionKeeps(j, to, reason, j);
    }
  }

  lemma ArriveFollows(j: Job, at: Job, o: Observation, receipts: Option<seq<Submission>>)
    requires Sound(at) && Kept(j, at) && at.revision >= j.revision && !IsTerminal(at.status)
    requires receipts.Some? ==> ReceiptsKept(Submissions(at), receipts.value)
    ensures Follows(j, Arrive(at, o, receipts, j.revision))
  {}

  lemma TowardsExecutionKeeps(j: Job)
    requires Sound(j) && TowardsExecution(j).Ok?
    ensures var next := TowardsExecution(j).value;
            && Sound(next) && Kept(j, next) && next.revision >= j.revision
            && next == j.(status := next.status, history := next.history, revision := next.revision)
            && (IsTerminal(next.status) ==> next.status == j.status)
  {
    var signing := Forward(j, WAITING_FOR_USER, SIGNING, SIGNING_OBSERVED).value;
    ForwardKeeps(j, WAITING_FOR_USER, SIGNING, SIGNING_OBSERVED);
    ForwardKeeps(signing, SIGNING, EXECUTING, EXECUTION_OBSERVED);
    KeptTransitive(j, signing, TowardsExecution(j).value);
  }

  lemma FinishFollows(j: Job, at: Job, o: Observation, receipts: Option<seq<Submission>>)
    requires Sound(at) && Kept(j, at) && at.revision >= j.revision && IsTerminal(o.phase)
    requires receipts.Some? ==> ReceiptsKept(Submissions(at), receipts.value)
    ensures Follows(j, Finish(at, o, receipts, j.revision))
  {
    var patched := Patch(at, o, receipts);
    if TransitionJob(at, o.phase, TerminalReason(o.phase), patched).Ok? {
      TransitionKeeps(at, o.phase, TerminalReason(o.phase), patched);
      KeptTransitive(j, at, TransitionJob(at, o.phase, TerminalReason(o.phase), patched).value);
    }
  }

  lemma AdvanceFollows(j: Job, o: Observation, receipts: Option<seq<Submission>>)
    requires Sound(j) && AwaitsBuyer(j.status) && (AwaitsBuyer(o.phase) || IsTerminal(o.phase))
    requires receipts.Some? ==> ReceiptsKept(Submissions(j), receipts.value)
    ensures Follows(j, AdvanceToObservation(j, o, receipts))
  {
    if o.phase.WAITING_FOR_USER? {
      ArriveFollows(j, j, o, receipts);
    } else if o.phase.SIGNING? {
      var signing := Forward(j, WAITING_FOR_USER, SIGNING, SIGNING_OBSERVED);
      if signing.Ok? {
        ForwardKeeps(j, WAITING_FOR_USER, SIGNING, SIGNING_OBSERVED);
        ArriveFollows(j, signing.value, o, receipts);
      }
    } else if TowardsExecution(j).Ok? {
      TowardsExecutionKeeps(j);
      if o.phase.EXECUTING? {
        ArriveFollows(j, TowardsExecution(j).value, o, receipts);
      } else {
        FinishFollows(j, TowardsExecution(j).value, o, receipts);
      }
    }
  }

  lemma ConfirmedKept(j: Job, packageId: string, hashes: seq<string>)
    ensures var receipts := ConfirmedReceipts(j, packageId, hashes);
            receipts.Some? ==> ReceiptsKept(Submissions(j), receipts.value)
  {}

  // ----- every operation

  lemma AnalysisFollows(j: Job, supplied: Option<Incident>)
    requires Sound(j)
    ensures Follows(j, StartAnalysis(j, supplied))
  {}

  lemma ScanFollows(j: Job, scan: Planner.Scan)
    requires Sound(j)
    ensures Follows(j, RecordScan(j, scan))
  {}

  lemma PlanFollows(j: Job, sealed: Simulator.SealedPlan)
    requires Sound(j)
    ensures Follows(j, RecordPlan(j, sealed))
  {
    FailFollows(j, PlanFailed, PLAN_FAILED, j);
    if j.status.ANALYSING? {
      SaveFollows(j, PLAN_READY, PLAN_GENERATED, j.(plan := Some(sealed)));
    }
  }

  lemma SimulationFollows(j: Job, report: SimulationReport)
    requires Sound(j)
    ensures Follows(j, RecordSimulation(j, report))
  {
    var patched := j.(simulation := Some(report));
    FailFollows(j, SimulationFailed, SIMULATION_FAILED, j);
    if j.status.PLAN_READY? {
      FailFollows(j, SimulationFailed, SIMULATION_FAILED, patched);
      SaveFollows(j, WAITING_FOR_USER, Reason.SIMULATION_READY, patched);
    }
  }

  lemma ResimulationFollows(j: Job, report: SimulationReport)
    requires Sound(j)
    ensures Follows(j, Resimulate(j, report))
  {}

  lemma IssueFollows(j: Job, packages: seq<Package>, now: int)
    requires Sound(j)
    ensures Follows(j, IssuePackages(j, packages, now))
  {}

  lemma ObserveFollows(j: Job, o: Observation)
    requires Sound(j)
    ensures Follows(j, Observe(j, o))
  {
    FailFollows(j, MonitorFailed, RESCUE_FAILED, j);
    if AwaitsBuyer(j.status) && (AwaitsBuyer(o.phase) || IsTerminal(o.phase)) {
      AdvanceFollows(j, o, None);
    }
  }

  lemma PhaseIsReachable(j: Job, completed: seq<string>)
    ensures AwaitsBuyer(PhaseAfter(j, completed)) || IsTerminal(PhaseAfter(j, completed))
  {}

  lemma ReportFollows(j: Job, report: Report, verified: Result<Observation, VerifierError>)
    requires Sound(j)
    ensures Follows(j, RecordReport(j, report, verified))
  {
    ConfirmedKept(j, report.packageId, report.transactionHashes);
    var receipts := ConfirmedReceipts(j, report.packageId, report.transactionHashes);
    if j.status.COMPLETED? || j.status.PARTIAL? {
      if receipts.Some? {
        UpdateFollows(j, j.(receiptSubmissions := receipts));
      }
    } else if AwaitsBuyer(j.status) && verified.Ok? {
      AdvanceFollows(j, Merged(j, verified.value), receipts);
    }
  }

  lemma ReceiptFollows(j: Job, packageId: string, hash: string, status: SubmissionStatus)
    requires Sound(j)
    ensures Follows(j, RegisterReceipt(j, packageId, hash)) && Follows(j, SetReceiptStatus(j, packageId, hash, status))
  {
    UpdateFollows(j, j.(receiptSubmissions := Some(WithStatus(Submissions(j), packageId, hash, status))));
    UpdateFollows(j, j);
    if AwaitsBuyer(j.status) {
      UpdateFollows(j, j.(receiptSubmissions := Some(Submissions(j) + [Submission(packageId, hash, PENDING)])));
    }
  }

  /** Whatever an operation saves replaces exactly the revision it was computed from, has a
      greater revision, and keeps the job's identity, history, receipts, scope and outcome. */
  lemma OperationsFollow(op: Op, j: Job)
    requires Sound(j)
    ensures Follows(j, Apply(op, j))
  {
    match op {
      case OpStartAnalysis(supplied) => AnalysisFollows(j, supplied);
      case OpRecordScan(scan) => ScanFollows(j, scan);
      case OpRecordPlan(sealed) => PlanFollows(j, sealed);
      case OpRecordSimulation(report) => SimulationFollows(j, report);
      case OpResimulate(report) => ResimulationFollows(j, report);
      case OpIssuePackages(packages, now) => IssueFollows(j, packages, now);
      case OpSetDashboard(url) => UpdateFollows(j, j.(dashboardUrl := Some(url)));
      case OpObserve(observation) => ObserveFollows(j, observation);
      case OpRecordReport(report, verified) => ReportFollows(j, report, verified);
      case OpRegisterReceipt(packageId, hash) => ReceiptFollows(j, packageId, hash, PENDING);
      case OpSetReceiptStatus(packageId, hash, status) => ReceiptFollows(j, packageId, hash, status);
      case OpFail(code, reason) => FailFollows(j, code, reason, j);
    }
  }

  lemma NewJobIsSound(id: string, requestId: Option<string>, incident: Option<Incident>)
    ensures var created := NewJob(id, requestId, incident);
            created.Ok? && Sound(created.value) && created.value.id == id && created.value.requestId == requestId
  {}

  /** The package a receipt is registered for. */
  ghost predicate Registered(j: Job, hash: string, packageId: string) {
    exists i :: 0 <= i < |Submissions(j)| && SameText(Submissions(j)[i].transactionHash, hash)
                && Submissions(j)[i].packageId == packageId
  }

  /** A registered receipt is neither lost nor rebound to another package. */
  lemma ReceiptsStayRegistered(a: Job, b: Job, hash: string, packageId: string)
    requires Kept(a, b) && Valid(b) && Registered(a, hash, packageId)
    ensures Registered(b, hash, packageId)
    ensures forall q :: Registered(b, hash, q) ==> q == packageId
  {}
}
