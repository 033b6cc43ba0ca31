/** What each operation of the agent service computes from the job it has loaded
    (packages/agent-service/src/service.ts). The answers of the ports are parameters. */
module JobOperations {
  import opened Basics
  import opened RescueActions
  import opened Jobs
  import Planner
  import Simulator

  /** What is to be saved, and the revision it is to replace; or nothing, when the loaded job
      already is what was asked for. */
  datatype Step = Save(job: Job, expected: int) | Keep(job: Job)

  /** Computing never reports a conflict: only saving does. */
  type Computed = c: Result<Step, ServiceError> | c != Err(Conflict) witness Err(Invalid)

  /** updateJob. */
  function UpdateJob(j: Job, patched: Job, expected: int): Computed {
    var next := patched.(revision := j.revision + 1);
    if Valid(next) then Ok(Save(next, expected)) else Err(Invalid)
  }

  /** `this.store.save(transitionJob(...))`, which replaces the preceding revision. */
  function SaveTransition(j: Job, to: Status, reason: Reason, patched: Job): Computed {
    match TransitionJob(j, to, reason, patched)
    case Err(e) => Err(e)
    case Ok(next) => Ok(Save(next, next.revision - 1))
  }

  /** failJob. */
  function FailJob(j: Job, code: ErrorCode, reason: Reason, patched: Job): Computed {
    if j.status.FAILED? then Ok(Keep(j))
    else SaveTransition(j, FAILED, reason, patched.(error := Some(code)))
  }

  // ----- analysis and planning

  function StartAnalysis(j: Job, supplied: Option<Incident>): Computed {
    if !j.status.RECEIVED? && !j.status.WAITING_FOR_SOURCE? then Err(NotAllowed)
    else if supplied.Some? && j.incident.Some? && j.incident.value.id != supplied.value.id then Err(OutOfScope)
    else
      var scoped := if supplied.Some? then supplied else j.incident;
      if scoped.None? then Err(NotAllowed)
      else SaveTransition(j, ANALYSING, ANALYSIS_STARTED, j.(incident := scoped))
  }

  predicate ScanInScope(incident: Incident, scan: Planner.Scan) {
    scan.incidentId == incident.id && scan.chainId == incident.chainId && SameText(scan.address, incident.sourceAddress)
  }

  predicate PlanInScope(incident: Incident, scan: Planner.Scan, p: RescueActions.Plan) {
    && p.incidentId == incident.id && p.chainId == incident.chainId
    && SameText(p.sourceAddress, scan.address) && SameText(p.destinationAddress, incident.destinationAddress)
    && p.observedAtBlock == scan.observedAtBlock
  }

  function RecordScan(j: Job, scan: Planner.Scan): Computed {
    if !j.status.ANALYSING? || j.incident.None? then Err(NotAllowed)
    else if !ScanInScope(j.incident.value, scan) then FailJob(j, AnalysisFailed, ANALYSIS_FAILED, j)
    else UpdateJob(j, j.(scan := Some(scan)), j.revision)
  }

  /** The planner's answer is saved as the plan; whatever goes wrong before the save fails the job. */
  function RecordPlan(j: Job, sealed: Simulator.SealedPlan): Computed {
    if !j.status.ANALYSING? || j.incident.None? || j.scan.None? then Err(NotAllowed)
    else if !MeetsPlanSchema(sealed.plan) || !PlanInScope(j.incident.value, j.scan.value, sealed.plan)
    then FailJob(j, PlanFailed, PLAN_FAILED, j)
    else
      var saved := SaveTransition(j, PLAN_READY, PLAN_GENERATED, j.(plan := Some(sealed)));
      if saved.Ok? then saved else FailJob(j, PlanFailed, PLAN_FAILED, j)
  }

  // ----- simulation

  function ActionIdsOf(p: RescueActions.Plan): set<string> {
    IdSet(p.actions)
  }

  /** validateSimulation. */
  predicate SimulationMatches(sealed: Simulator.SealedPlan, s: SimulationReport) {
    && (forall id :: id in s.executableActionIds ==> id in ActionIdsOf(sealed.plan) && id !in s.excludedActionIds)
    && (forall id :: id in s.excludedActionIds ==> id in ActionIdsOf(sealed.plan))
    && (forall i :: 0 <= i < |s.results| ==>
          && s.results[i].result.planId == sealed.plan.id
          && SameText(s.results[i].result.planHash, sealed.integrityHash)
          && s.results[i].result.actionId in ActionIdsOf(sealed.plan))
  }

  function RecordSimulation(j: Job, s: SimulationReport): Computed {
    if !j.status.PLAN_READY? || j.plan.None? then Err(NotAllowed)
    else if !SimulationMatches(j.plan.value, s) then FailJob(j, SimulationFailed, SIMULATION_FAILED, j)
    else if s.status.AllFailed? then
      FailJob(j, SimulationFailed, SIMULATION_FAILED, j.(simulation := Some(s)))
    else
      var saved := SaveTransition(j, WAITING_FOR_USER, Reason.SIMULATION_READY, j.(simulation := Some(s)));
      if saved.Ok? then saved else FailJob(j, SimulationFailed, SIMULATION_FAILED, j)
  }

  // ----- signing packages

  predicate CanIssue(j: Job) {
    j.status.WAITING_FOR_USER? && j.incident.Some? && j.plan.Some? && j.simulation.Some?
  }

  function Resimulate(j: Job, s: SimulationReport): Computed {
    if !CanIssue(j) then Err(NotAllowed)
    else if !SimulationMatches(j.plan.value, s) || s.status.AllFailed? then Err(PackagesUnavailable)
    else UpdateJob(j, j.(simulation := Some(s)), j.revision)
  }

  function FindRecorded(results: seq<Recorded>, id: string): (r: Option<Recorded>)
    ensures r.Some? ==> r.value in results && r.value.id == id
  {
    if results == [] then None
    else if results[0].id == id then Some(results[0])
    else FindRecorded(results[1..], id)
  }

  predicate CommitsResult(p: Package, a: RescueAction, recorded: Recorded, now: int) {
    && recorded.result.actionId == a.id && recorded.result.status.SUCCEEDED?
    && recorded.providerId == p.providerId && recorded.result.expiresAt == p.resultExpiresAt
    && now < p.expiresAt <= recorded.result.expiresAt
  }

  predicate CommitsAsset(p: Package, a: RescueAction) {
    match a.parameters
    case TransferErc721(collection, _, tokenId) =>
      p.route.ERC4494? && SameText(p.contractAddress, collection) && p.quantity == tokenId
    case TransferErc20(token, _, amount) =>
      !p.route.ERC4494? && SameText(p.contractAddress, token) && p.quantity == amount
    case _ => false
  }

  /** validateSigningPackage. */
  predicate PackageMatches(j: Job, p: Package, now: int) {
    && CanIssue(j)
    && PackageScope(p, j.id, j.incident.value, j.plan.value)
    && p.actionId in j.simulation.value.executableActionIds
    && var a := FindAction(j.plan.value.plan.actions, p.actionId);
       var recorded := FindRecorded(j.simulation.value.results, p.resultId);
       a.Some? && recorded.Some? && CommitsResult(p, a.value, recorded.value, now) && CommitsAsset(p, a.value)
  }

  function IndexOf(actions: seq<RescueAction>, id: string): (r: int)
    ensures -1 <= r < |actions|
    ensures r >= 0 ==> actions[r].id == id
    ensures r < 0 <==> id !in IdSet(actions)
  {
    if actions == [] then -1
    else if actions[|actions| - 1].id == id then |actions| - 1
    else
      assert actions == actions[..|actions| - 1] + [actions[|actions| - 1]];
      IndexOf(actions[..|actions| - 1], id)
  }

  /** The packages follow the order of the plan. */
  predicate InPlanOrder(actions: seq<RescueAction>, packages: seq<Package>) {
    && (forall i :: 0 <= i < |packages| ==> IndexOf(actions, packages[i].actionId) >= 0)
    && (forall i, k :: 0 <= i < k < |packages| ==>
          IndexOf(actions, packages[i].actionId) < IndexOf(actions, packages[k].actionId))
  }

  predicate Issuable(j: Job, packages: seq<Package>, now: int) {
    && CanIssue(j) && PackageListValid(packages)
    && (forall i :: 0 <= i < |packages| ==> PackageMatches(j, packages[i], now))
    && InPlanOrder(j.plan.value.plan.actions, packages)
  }

  function IssuePackages(j: Job, packages: seq<Package>, now: int): Computed {
    if !CanIssue(j) then Err(NotAllowed)
    else if !Issuable(j, packages, now) then Err(PackagesUnavailable)
    else UpdateJob(j, j.(signingPackage := Some(packages[0]), signingPackages := Some(packages)), j.revision)
  }

  function SetDashboard(j: Job, url: string): Computed {
    UpdateJob(j, j.(dashboardUrl := Some(url)), j.revision)
  }

  // ----- monitoring

  /** validateObservation. */
  predicate ObservationMatches(p: RescueActions.Plan, o: Observation) {
    && (forall id :: id in o.completedActionIds ==> id in ActionIdsOf(p) && id !in o.failedActionIds)
    && (forall id :: id in o.failedActionIds ==> id in ActionIdsOf(p))
    && (o.phase.COMPLETED? || o.phase.PARTIAL? ==> o.transactionHashes != [])
  }

  function TerminalReason(phase: Status): Reason
    requires IsTerminal(phase)
  {
    if phase.COMPLETED? then RESCUE_COMPLETED else if phase.PARTIAL? then RESCUE_PARTIAL else RESCUE_FAILED
  }

  /** One of the silent transitions on the way to an observation. */
  function Forward(j: Job, from: Status, to: Status, reason: Reason): (r: Result<Job, ServiceError>)
    ensures r.Err? ==> r.error.Invalid? || r.error.BadTransition?
  {
    if j.status != from then Ok(j) else TransitionJob(j, to, reason, j)
  }

  function TowardsExecution(j: Job): (r: Result<Job, ServiceError>)
    ensures r.Err? ==> r.error.Invalid? || r.error.BadTransition?
  {
    match Forward(j, WAITING_FOR_USER, SIGNING, SIGNING_OBSERVED)
    case Err(e) => Err(e)
    case Ok(signing) => Forward(signing, SIGNING, EXECUTING, EXECUTION_OBSERVED)
  }

  /** advanceToObservation: up to three transitions saved as one, against the loaded revision. */
  function AdvanceToObservation(j: Job, o: Observation, receipts: Option<seq<Submission>>): (c: Computed)
    requires AwaitsBuyer(o.phase) || IsTerminal(o.phase)
    ensures c.Err? ==> c.error.Invalid? || c.error.BadTransition? || c.error.Regression?
  {
    if o.phase.WAITING_FOR_USER? then Arrive(j, o, receipts, j.revision)
    else if o.phase.SIGNING? then
      match Forward(j, WAITING_FOR_USER, SIGNING, SIGNING_OBSERVED)
      case Err(e) => Err(e)
      case Ok(signing) => Arrive(signing, o, receipts, j.revision)
    else
      match TowardsExecution(j)
      case Err(e) => Err(e)
      case Ok(executing) =>
        if o.phase.EXECUTING? then Arrive(executing, o, receipts, j.revision) else Finish(executing, o, receipts, j.revision)
  }

  function Finish(j: Job, o: Observation, receipts: Option<seq<Submission>>, expected: int): Computed
    requires IsTerminal(o.phase)
  {
    if !j.status.EXECUTING? then Err(Regression)
    else match TransitionJob(j, o.phase, TerminalReason(o.phase), Patch(j, o, receipts))
         case Err(e) => Err(e)
         case Ok(done) => Ok(Save(done, expected))
  }

  function Patch(j: Job, o: Observation, receipts: Option<seq<Submission>>): Job {
    j.(monitor := Some(o), receiptSubmissions := if receipts.Some? then receipts else j.receiptSubmissions)
  }

  function Arrive(j: Job, o: Observation, receipts: Option<seq<Submission>>, expected: int): Computed {
    if j.status != o.phase then Err(Regression) else UpdateJob(j, Patch(j, o, receipts), expected)
  }

  /** monitorRescue: an observation that cannot be reached fails the job. */
  function Observe(j: Job, o: Observation): Computed {
    if IsTerminal(j.status) then Ok(Keep(j))
    else if !AwaitsBuyer(j.status) || j.plan.None? then Err(NotAllowed)
    else if !(AwaitsBuyer(o.phase) || IsTerminal(o.phase)) || !ObservationMatches(j.plan.value.plan, o)
    then FailJob(j, MonitorFailed, RESCUE_FAILED, j)
    else
      var advanced := AdvanceToObservation(j, o, None);
      if advanced.Ok? then advanced else FailJob(j, MonitorFailed, RESCUE_FAILED, j)
  }

  // ----- buyer reports

  datatype Report = Report(
    packageId: string, jobId: string, incidentId: string, planId: string, planHash: string, actionId: string, route: Route,
    chainId: nat, sourceAddress: string, destinationAddress: string, transactionHashes: seq<string>)

  function FindPackage(packages: seq<Package>, id: string): (r: Option<Package>)
    ensures r.Some? ==> r.value in packages && r.value.packageId == id
    ensures r.None? ==> forall p :: p in packages ==> p.packageId != id
  {
    if packages == [] then None
    else if packages[0].packageId == id then Some(packages[0])
    else FindPackage(packages[1..], id)
  }

  predicate ReportScope(j: Job, p: Package, report: Report) {
    && report.jobId == j.id && report.incidentId == p.incidentId && report.planId == p.planId
    && SameText(report.planHash, p.planHash) && report.actionId == p.actionId && report.route == p.route
    && report.chainId == p.chainId && SameText(report.sourceAddress, p.sourceAddress)
    && SameText(report.destinationAddress, p.destinationAddress)
  }

  /** validateBuyerReportScope. */
  function ReportedPackage(j: Job, report: Report): Option<Package> {
    var p := FindPackage(Issued(j), report.packageId);
    if p.Some? && ReportScope(j, p.value, report) then p else None
  }

  function LowerSet(hashes: seq<string>): set<string> {
    set h | h in hashes :: Lower(h)
  }

  /** confirmedReceiptPatch; None when there is nothing to confirm. */
  function ConfirmedReceipts(j: Job, packageId: string, hashes: seq<string>): Option<seq<Submission>> {
    var confirmed := Confirm(Submissions(j), packageId, LowerSet(hashes));
    if confirmed == Submissions(j) then None else Some(confirmed)
  }

  function Confirm(submissions: seq<Submission>, packageId: string, hashes: set<string>): (r: seq<Submission>)
    ensures |r| == |submissions|
    ensures forall i :: 0 <= i < |r| ==>
              r[i] == (if submissions[i].packageId == packageId && Lower(submissions[i].transactionHash) in hashes
                       then submissions[i].(status := CONFIRMED) else submissions[i])
  {
    seq(|submissions|, i requires 0 <= i < |submissions| =>
      if submissions[i].packageId == packageId && Lower(submissions[i].transactionHash) in hashes
      then submissions[i].(status := CONFIRMED) else submissions[i])
  }

  /** `[...new Set([...a, ...b])]`. */
  function Union(a: seq<string>, b: seq<string>): (r: seq<string>)
    ensures ToSet(r) == ToSet(a) + ToSet(b)
  {
    Dedup(a + b)
  }

  function Dedup(s: seq<string>): (r: seq<string>)
    ensures ToSet(r) == ToSet(s)
  {
    if s == [] then []
    else
      assert s == s[..|s| - 1] + [s[|s| - 1]];
      var init, last := Dedup(s[..|s| - 1]), s[|s| - 1];
      assert ToSet(s) == ToSet(init) + {last} && ToSet(init + [last]) == ToSet(init) + {last};
      if last in init then init else init + [last]
  }

  /** Hashes equal up to case are kept once, with the last spelling in the first place. */
  function DedupHashes(s: seq<string>): (r: seq<string>)
    ensures LowerSet(r) == LowerSet(s)
  {
    if s == [] then []
    else
      assert s == s[..|s| - 1] + [s[|s| - 1]];
      Respell(DedupHashes(s[..|s| - 1]), s[|s| - 1])
  }

  lemma LowerSetCons(h: string, s: seq<string>)
    ensures LowerSet([h] + s) == {Lower(h)} + LowerSet(s)
  {}

  function Respell(s: seq<string>, h: string): (r: seq<string>)
    ensures LowerSet(r) == LowerSet(s) + {Lower(h)}
  {
    if s == [] then
      assert LowerSet([h]) == {Lower(h)};
      [h]
    else if SameText(s[0], h) then
      assert s == [s[0]] + s[1..];
      [h] + s[1..]
    else
      assert s == [s[0]] + s[1..];
      LowerSetCons(s[0], s[1..]);
      LowerSetCons(s[0], Respell(s[1..], h));
      [s[0]] + Respell(s[1..], h)
  }

  function CompletedIds(j: Job): seq<string> {
    if j.monitor.Some? then j.monitor.value.completedActionIds else []
  }

  function FailedIds(j: Job): seq<string> {
    if j.monitor.Some? then j.monitor.value.failedActionIds else []
  }

  function Hashes(j: Job): seq<string> {
    if j.monitor.Some? then j.monitor.value.transactionHashes else []
  }

  predicate AllIssuedIn(j: Job, completed: seq<string>) {
    forall i :: 0 <= i < |Issued(j)| ==> Issued(j)[i].actionId in completed
  }

  /** Some executable action has no package. */
  predicate Uncovered(j: Job) {
    j.simulation.Some?
    && exists k :: 0 <= k < |j.simulation.value.executableActionIds|
                   && forall i :: 0 <= i < |Issued(j)| ==>
                        Issued(j)[i].actionId != j.simulation.value.executableActionIds[k]
  }

  predicate HasExcluded(j: Job) {
    j.simulation.Some? && j.simulation.value.excludedActionIds != []
  }

  function PhaseAfter(j: Job, completed: seq<string>): Status {
    if !AllIssuedIn(j, completed) then EXECUTING
    else if Uncovered(j) || HasExcluded(j) then Status.PARTIAL
    else COMPLETED
  }

  /** The job's own observations merged with those of a verified report. */
  function Merged(j: Job, o: Observation): Observation {
    var completed := Union(CompletedIds(j), o.completedActionIds);
    Observation(PhaseAfter(j, completed), completed,
                Filter((id: string) => id !in completed, Union(FailedIds(j), o.failedActionIds)),
                DedupHashes(Hashes(j) + o.transactionHashes))
  }

  /** recordBuyerExecutionReportForJob; `verified` is the verifier's answer, asked only when needed. */
  function RecordReport(j: Job, report: Report, verified: Result<Observation, VerifierError>): Computed {
    if j.status.COMPLETED? || j.status.PARTIAL? then RetryReport(j, report)
    else if !AwaitsBuyer(j.status) || Issued(j) == [] || j.plan.None? then Err(NotAllowed)
    else if ReportedPackage(j, report).None? then Err(OutOfScope)
    else match verified
         case Err(e) => Err(Verifier(e))
         case Ok(o) => RecordVerified(j, report, o)
  }

  /** The verified report is merged into what the job has observed so far. */
  function RecordVerified(j: Job, report: Report, o: Observation): Computed
    requires j.plan.Some?
  {
    if !ObservationMatches(j.plan.value.plan, o) || !o.phase.COMPLETED? then Err(NotVerified)
    else AdvanceToObservation(j, Merged(j, o), ConfirmedReceipts(j, report.packageId, report.transactionHashes))
  }

  /** A report for a finished job must repeat what was verified. */
  function RetryReport(j: Job, report: Report): Computed {
    var p := ReportedPackage(j, report);
    if p.None? then Err(OutOfScope)
    else if !(p.value.actionId in CompletedIds(j) && LowerSet(report.transactionHashes) <= LowerSet(Hashes(j))) then Err(RetryMismatch)
    else match ConfirmedReceipts(j, report.packageId, report.transactionHashes)
         case None => Ok(Keep(j))
         case Some(receipts) => UpdateJob(j, j.(receiptSubmissions := Some(receipts)), j.revision)
  }

  // ----- receipts

  function FindSubmission(submissions: seq<Submission>, hash: string): (r: Option<Submission>)
    ensures r.Some? ==> r.value in submissions && SameText(r.value.transactionHash, hash)
    ensures r.None? ==> forall s :: s in submissions ==> !SameText(s.transactionHash, hash)
  {
    if submissions == [] then None
    else if SameText(submissions[0].transactionHash, hash) then Some(submissions[0])
    else FindSubmission(submissions[1..], hash)
  }

  /** recordBuyerReceiptSubmissionForJob. */
  function RegisterReceipt(j: Job, packageId: string, hash: string): Computed {
    if FindPackage(Issued(j), packageId).None? then Err(NoPackage)
    else match FindSubmission(Submissions(j), hash)
         case Some(existing) => if existing.packageId != packageId then Err(HashTaken) else Ok(Keep(j))
         case None =>
           if !AwaitsBuyer(j.status) then Err(NotAllowed)
           else UpdateJob(j, j.(receiptSubmissions := Some(Submissions(j) + [Submission(packageId, hash, PENDING)])), j.revision)
  }

  function WithStatus(submissions: seq<Submission>, packageId: string, hash: string, status: SubmissionStatus): (r: seq<Submission>)
    ensures |r| == |submissions|
    ensures forall i :: 0 <= i < |r| ==>
              && r[i].packageId == submissions[i].packageId && r[i].transactionHash == submissions[i].transactionHash
              && (r[i].packageId == packageId && SameText(r[i].transactionHash, hash) ==> r[i].status == status)
  {
    seq(|submissions|, i requires 0 <= i < |submissions| =>
      if submissions[i].packageId == packageId && SameText(submissions[i].transactionHash, hash)
      then submissions[i].(status := status) else submissions[i])
  }

  /** setReceiptSubmissionStatus, for one loaded job. */
  function SetReceiptStatus(j: Job, packageId: string, hash: string, status: SubmissionStatus): Computed {
    UpdateJob(j, if j.receiptSubmissions.None? then j
                 else j.(receiptSubmissions := Some(WithStatus(Submissions(j), packageId, hash, status))), j.revision)
  }

  // ----- all operations

  datatype Op =
    | OpStartAnalysis(supplied: Option<Incident>)
    | OpRecordScan(scan: Planner.Scan)
    | OpRecordPlan(sealed: Simulator.SealedPlan)
    | OpRecordSimulation(report: SimulationReport)
    | OpResimulate(report: SimulationReport)
    | OpIssuePackages(packages: seq<Package>, now: int)
    | OpSetDashboard(url: string)
    | OpObserve(observation: Observation)
    | OpRecordReport(buyerReport: Report, verified: Result<Observation, VerifierError>)
    | OpRegisterReceipt(packageId: string, hash: string)
    | OpSetReceiptStatus(packageId: string, hash: string, receiptStatus: SubmissionStatus)
    | OpFail(code: ErrorCode, reason: Reason)

  function Apply(op: Op, j: Job): (c: Computed)
    ensures op.OpRecordReport? ==> c == RecordReport(j, op.buyerReport, op.verified)
  {
    match op
    case OpStartAnalysis(supplied) => StartAnalysis(j, supplied)
    case OpRecordScan(scan) => RecordScan(j, scan)
    case OpRecordPlan(sealed) => RecordPlan(j, sealed)
    case OpRecordSimulation(report) => RecordSimulation(j, report)
    case OpResimulate(report) => Resimulate(j, report)
    case OpIssuePackages(packages, now) => IssuePackages(j, packages, now)
    case OpSetDashboard(url) => SetDashboard(j, url)
    case OpObserve(observation) => Observe(j, observation)
    case OpRecordReport(report, verified) => RecordReport(j, report, verified)
    case OpRegisterReceipt(packageId, hash) => RegisterReceipt(j, packageId, hash)
    case OpSetReceiptStatus(packageId, hash, status) => SetReceiptStatus(j, packageId, hash, status)
    case OpFail(code, reason) => FailJob(j, code, reason, j)
  }

  function Received(id: string, requestId: Option<string>, incident: Option<Incident>): Job {
    Job(id, requestId, RECEIVED, incident, None, None, None, None, None, None, None, None, None,
        [Transition(0, None, RECEIVED, JOB_CREATED)], 0)
  }

  /** createIncident: the first record of a job, before or after its source is known. */
  function NewJob(id: string, requestId: Option<string>, incident: Option<Incident>): Result<Job, ServiceError> {
    var received := Received(id, requestId, incident);
    if incident.Some? then Ok(received) else TransitionJob(received, WAITING_FOR_SOURCE, SOURCE_REQUIRED, received)
  }
}
