/** The rescue job of the agent service: its data, the rules every stored job obeys
    (packages/agent-service/src/schemas.ts) and its lifecycle (packages/agent-service/src/lifecycle.ts). */
module Jobs {
  import opened Basics
  import opened RescueActions
  import Planner
  import Simulator

  datatype Status =
    | RECEIVED | WAITING_FOR_SOURCE | ANALYSING | PLAN_READY | WAITING_FOR_USER
    | SIGNING | EXECUTING | COMPLETED | PARTIAL | FAILED

  datatype Reason =
    | JOB_CREATED | SOURCE_REQUIRED | ANALYSIS_STARTED | ANALYSIS_FAILED | PLAN_GENERATED | PLAN_FAILED
    | SIMULATION_READY | SIMULATION_FAILED | SIGNING_OBSERVED | EXECUTION_OBSERVED
    | RESCUE_COMPLETED | RESCUE_PARTIAL | RESCUE_FAILED

  datatype Transition = Transition(sequence: int, from: Option<Status>, to: Status, reason: Reason)

  datatype Incident = Incident(
    id: string, chainId: nat, sourceAddress: string, destinationAddress: string, accepted: bool, statementVersion: string)

  datatype Recorded = Recorded(id: string, providerId: string, result: Simulator.SimulationResult)

  datatype SimulationReport = SimulationReport(
    providerId: string,
    status: Simulator.ReportStatus, results: seq<Recorded>, executableActionIds: seq<string>, excludedActionIds: seq<string>)

  datatype Route = ERC3009 | ERC2612 | DAI_PERMIT | ERC4494

  /** An issued signing package. For ERC-4494 `contractAddress` is the collection and `quantity`
      the token id, otherwise they are the token and the amount. */
  datatype Package = Package(
    packageId: string, jobId: string, incidentId: string, planId: string, planHash: string, actionId: string, route: Route,
    chainId: nat, sourceAddress: string, destinationAddress: string, observedAtBlock: nat, expiresAt: int,
    resultId: string, providerId: string, resultExpiresAt: int, contractAddress: string, quantity: nat)

  datatype SubmissionStatus = PENDING | CONFIRMED | REVERTED | REJECTED

  datatype Submission = Submission(packageId: string, transactionHash: string, status: SubmissionStatus)

  datatype Observation = Observation(
    phase: Status, completedActionIds: seq<string>, failedActionIds: seq<string>, transactionHashes: seq<string>)

  datatype ErrorCode = AnalysisFailed | PlanFailed | SimulationFailed | MonitorFailed

  datatype Job = Job(
    id: string, requestId: Option<string>, status: Status, incident: Option<Incident>, scan: Option<Planner.Scan>,
    plan: Option<Simulator.SealedPlan>, simulation: Option<SimulationReport>,
    signingPackage: Option<Package>, signingPackages: Option<seq<Package>>, receiptSubmissions: Option<seq<Submission>>,
    monitor: Option<Observation>, dashboardUrl: Option<string>, error: Option<ErrorCode>,
    history: seq<Transition>, revision: int)

  // ----- the schema

  function Issued(j: Job): seq<Package> {
    if j.signingPackages.Some? then j.signingPackages.value
    else if j.signingPackage.Some? then [j.signingPackage.value]
    else []
  }

  function Submissions(j: Job): seq<Submission> {
    if j.receiptSubmissions.Some? then j.receiptSubmissions.value else []
  }

  /** The i-th transition carries its position and starts where the one before it ended. */
  predicate Continues(history: seq<Transition>, i: nat)
    requires i < |history|
  {
    history[i].sequence == i && history[i].from == if i == 0 then None else Some(history[i - 1].to)
  }

  predicate HistoryValid(history: seq<Transition>, status: Status) {
    && history != [] && history[|history| - 1].to == status
    && forall i :: 0 <= i < |history| ==> Continues(history, i)
  }

  predicate IsIssued(packageId: string, issued: seq<Package>) {
    exists k :: 0 <= k < |issued| && issued[k].packageId == packageId
  }

  predicate SubmissionsValid(submissions: seq<Submission>, issued: seq<Package>) {
    && |submissions| <= 64
    && (forall i :: 0 <= i < |submissions| ==> IsIssued(submissions[i].packageId, issued))
    && (forall i, k :: 0 <= i < k < |submissions| ==>
          !SameText(submissions[i].transactionHash, submissions[k].transactionHash))
  }

  predicate PackageScope(p: Package, jobId: string, incident: Incident, sealed: Simulator.SealedPlan) {
    && p.jobId == jobId && p.incidentId == incident.id && p.planId == sealed.plan.id
    && SameText(p.planHash, sealed.integrityHash) && p.chainId == sealed.plan.chainId
    && SameText(p.sourceAddress, sealed.plan.sourceAddress) && SameText(p.destinationAddress, sealed.plan.destinationAddress)
    && p.observedAtBlock == sealed.plan.observedAtBlock
  }

  predicate SharesScope(p: Package, q: Package) {
    && p.jobId == q.jobId && p.incidentId == q.incidentId && p.planId == q.planId && SameText(p.planHash, q.planHash)
    && p.chainId == q.chainId && SameText(p.sourceAddress, q.sourceAddress)
    && SameText(p.destinationAddress, q.destinationAddress) && p.observedAtBlock == q.observedAtBlock
  }

  /** signingPackageListSchema. */
  predicate PackageListValid(packages: seq<Package>) {
    && packages != []
    && (forall i, k :: 0 <= i < k < |packages| ==>
          packages[i].packageId != packages[k].packageId && packages[i].actionId != packages[k].actionId)
    && (forall i :: 0 <= i < |packages| ==> SharesScope(packages[i], packages[0]))
  }

  predicate PackagesValid(j: Job) {
    && (j.signingPackages.Some? ==> PackageListValid(j.signingPackages.value))
    && (j.signingPackage.Some? && j.signingPackages.Some? ==>
          |j.signingPackages.value| > 0 && j.signingPackage.value.packageId == j.signingPackages.value[0].packageId)
    && (j.incident.Some? && j.plan.Some? ==>
          && (j.signingPackage.Some? ==>
                && PackageScope(j.signingPackage.value, j.id, j.incident.value, j.plan.value)
                && j.signingPackage.value.planHash == j.plan.value.integrityHash)
          && (j.signingPackages.Some? ==>
                forall i :: 0 <= i < |j.signingPackages.value| ==>
                  PackageScope(j.signingPackages.value[i], j.id, j.incident.value, j.plan.value)))
  }

  /** The later stages of a rescue need what the earlier ones produced. */
  predicate StagesValid(j: Job) {
    && (j.scan.Some? ==> j.incident.Some?)
    && (j.plan.Some? ==> j.scan.Some? && MeetsPlanSchema(j.plan.value.plan))
    && (j.simulation.Some? ==> j.plan.Some?)
    && (j.signingPackage.Some? || j.signingPackages.Some? ==> j.simulation.Some?)
    && (j.receiptSubmissions.Some? ==> j.signingPackage.Some? || j.signingPackages.Some?)
  }

  predicate StatusValid(j: Job) {
    && (j.status.WAITING_FOR_SOURCE? ==> j.incident.None?)
    && (!(j.status.RECEIVED? || j.status.WAITING_FOR_SOURCE? || j.status.FAILED?) ==> j.incident.Some?)
    && (j.error.Some? ==> j.status.FAILED?)
  }

  /** agentServiceJobSchema accepts the job. */
  predicate Valid(j: Job) {
    && HistoryValid(j.history, j.status) && j.revision >= 0
    && StagesValid(j) && PackagesValid(j) && StatusValid(j)
    && (j.receiptSubmissions.Some? ==> SubmissionsValid(j.receiptSubmissions.value, Issued(j)))
  }

  // ----- the lifecycle

  function AllowedFrom(from: Status): seq<Status> {
    match from
    case RECEIVED => [WAITING_FOR_SOURCE, ANALYSING, FAILED]
    case WAITING_FOR_SOURCE => [ANALYSING, FAILED]
    case ANALYSING => [PLAN_READY, FAILED]
    case PLAN_READY => [WAITING_FOR_USER, FAILED]
    case WAITING_FOR_USER => [SIGNING, FAILED]
    case SIGNING => [EXECUTING, FAILED]
    case EXECUTING => [COMPLETED, Status.PARTIAL, FAILED]
    case COMPLETED => []
    case PARTIAL => []
    case FAILED => []
  }

  predicate CanTransition(from: Status, to: Status) {
    to in AllowedFrom(from)
  }

  predicate IsTerminal(s: Status) {
    s.COMPLETED? || s.PARTIAL? || s.FAILED?
  }

  predicate AwaitsBuyer(s: Status) {
    s.WAITING_FOR_USER? || s.SIGNING? || s.EXECUTING?
  }

  datatype ServiceError =
    | NotFound | Conflict | RequestTaken | NotAllowed | OutOfScope | Invalid | BadTransition | Regression
    | NoPackage | HashTaken | RetryMismatch | PackagesUnavailable | NotVerified
    | Verifier(error: VerifierError)

  /** Why the verifier of buyer reports did not answer. */
  datatype VerifierError = ReceiptPending | ReceiptReverted | ReceiptRejected | VerifierFailed

  /** transitionJob; `patched` is the job with the patch applied. */
  function TransitionJob(j: Job, to: Status, reason: Reason, patched: Job): (r: Result<Job, ServiceError>)
    ensures r.Err? ==> r.error.Invalid? || r.error.BadTransition?
  {
    var next := patched.(
      status := to, history := j.history + [Transition(|j.history|, Some(j.status), to, reason)], revision := j.revision + 1);
    if !Valid(j) then Err(Invalid)
    else if !CanTransition(j.status, to) then Err(BadTransition)
    else if !Valid(next) then Err(Invalid)
    else Ok(next)
  }

  /** Each step of a history follows the transition table, from nothing to RECEIVED onwards. */
  predicate FollowsTable(history: seq<Transition>) {
    && (history != [] ==> history[0].to.RECEIVED?)
    && forall i :: 1 <= i < |history| ==> CanTransition(history[i - 1].to, history[i].to)
  }

  lemma TransitionFollowsTable(j: Job, to: Status, reason: Reason, patched: Job)
    requires FollowsTable(j.history) && TransitionJob(j, to, reason, patched).Ok?
    ensures FollowsTable(TransitionJob(j, to, reason, patched).value.history)
    ensures j.history < TransitionJob(j, to, reason, patched).value.history
  {}

  /** A terminal status has no way out of the table, so it can only end a history. */
  lemma TerminalEndsHistory(history: seq<Transition>, i: nat)
    requires FollowsTable(history) && i + 1 < |history|
    ensures !IsTerminal(history[i].to)
  {
    var k := i + 1;
    assert CanTransition(history[k - 1].to, history[k].to);
  }
}
