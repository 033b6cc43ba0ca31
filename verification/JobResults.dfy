/** What each operation of the agent service makes of a stored job, spelled out
    (packages/agent-service/src/service.ts:143-492, 539-659): when it succeeds, when it
    fails the job, when it refuses, and the whole resulting record. */
module JobResults {
  import opened Basics
  import opened RescueActions
  import opened Jobs
  import opened JobOperations
  import opened JobHistory
  import BuyerReports
  import Planner
  import Simulator

  // ----- resulting records

  /** One more transition, one more revision. */
  function Stepped(j: Job, to: Status, reason: Reason): Job {
    j.(status := to, history := j.history + [Transition(|j.history|, Some(j.status), to, reason)], revision := j.revision + 1)
  }

  function Failed(j: Job, code: ErrorCode, reason: Reason): Job {
    Stepped(j.(error := Some(code)), FAILED, reason)
  }

  /** The operation saves exactly this record over the one it was given. */
  ghost predicate SavesAs(c: Computed, j: Job, next: Job) {
    c.Ok? && c.value.Save? && c.value.expected == j.revision && c.value.job == next
  }

  lemma StepValid(j: Job, patched: Job, to: Status, reason: Reason)
    requires Valid(j) && Valid(patched.(error := None)) && CanTransition(j.status, to)
    requires patched.status == j.status && patched.history == j.history && patched.revision == j.revision
    requires !to.FAILED? ==> patched.error.None?
    requires !to.WAITING_FOR_SOURCE? && (to.FAILED? || patched.incident.Some?)
    ensures Valid(Stepped(patched, to, reason))
  {
    var next := Stepped(patched, to, reason);
    forall i | 0 <= i < |next.history| ensures Continues(next.history, i) {
      if i < |j.history| {
        assert Continues(j.history, i);
      }
    }
    assert Issued(next) == Issued(patched);
  }

  lemma StepSaves(j: Job, patched: Job, to: Status, reason: Reason)
    requires Valid(j) && Valid(patched.(error := None)) && CanTransition(j.status, to)
    requires patched.status == j.status && patched.history == j.history && patched.revision == j.revision
    requires !to.FAILED? ==> patched.error.None?
    requires !to.WAITING_FOR_SOURCE? && (to.FAILED? || patched.incident.Some?)
    ensures SavesAs(SaveTransition(j, to, reason, patched), j, Stepped(patched, to, reason))
  {
    StepValid(j, patched, to, reason);
  }

  lemma FailSaves(j: Job, patched: Job, code: ErrorCode, reason: Reason)
    requires Valid(j) && !IsTerminal(j.status) && Valid(patched) && patched.error.None?
    requires patched.status == j.status && patched.history == j.history && patched.revision == j.revision
    ensures SavesAs(FailJob(j, code, reason, patched), j, Failed(patched, code, reason))
  {
    StepSaves(j, patched.(error := Some(code)), FAILED, reason);
  }

  // ----- analysis

  /** The incident an analysis is about: the one supplied, or the one already known. */
  function Scoped(j: Job, supplied: Option<Incident>): Option<Incident> {
    if supplied.Some? then supplied else j.incident
  }

  /** An analysis starts exactly before any other, for the incident the job already has or a first one. */
  ghost predicate CanAnalyse(j: Job, supplied: Option<Incident>) {
    && (j.status.RECEIVED? || j.status.WAITING_FOR_SOURCE?) && Scoped(j, supplied).Some?
    && (supplied.Some? && j.incident.Some? ==> supplied.value.id == j.incident.value.id)
  }

  lemma AnalysisResult(j: Job, supplied: Option<Incident>)
    requires Sound(j)
    ensures CanAnalyse(j, supplied) ==>
              SavesAs(StartAnalysis(j, supplied), j, Stepped(j.(incident := Scoped(j, supplied)), ANALYSING, ANALYSIS_STARTED))
    ensures !CanAnalyse(j, supplied) ==> StartAnalysis(j, supplied).Err?
    ensures StartAnalysis(j, supplied) == Err(OutOfScope) <==>
              (j.status.RECEIVED? || j.status.WAITING_FOR_SOURCE?) && supplied.Some? && j.incident.Some?
              && supplied.value.id != j.incident.value.id
  {
    if CanAnalyse(j, supplied) {
      AnalysisPatchValid(j, supplied);
      StartStepValid(j, supplied);
    }
  }

  lemma AnalysisPatchValid(j: Job, supplied: Option<Incident>)
    requires Sound(j) && CanAnalyse(j, supplied)
    ensures j.plan.None? && j.simulation.None? && j.signingPackages.None? && j.signingPackage.None? && j.receiptSubmissions.None?
  {}

  lemma StartStepValid(j: Job, supplied: Option<Incident>)
    requires Sound(j) && CanAnalyse(j, supplied)
    requires j.plan.None? && j.simulation.None? && j.signingPackages.None? && j.signingPackage.None? && j.receiptSubmissions.None?
    ensures Valid(Stepped(j.(incident := Scoped(j, supplied)), ANALYSING, ANALYSIS_STARTED))
  {
    var next := Stepped(j.(incident := Scoped(j, supplied)), ANALYSING, ANALYSIS_STARTED);
    forall i | 0 <= i < |next.history| ensures Continues(next.history, i) {
      if i < |j.history| {
        assert Continues(j.history, i);
      }
    }
  }

  /** The scan is of the incident's source on the incident's chain. */
  ghost predicate ScanFits(j: Job, scan: Planner.Scan) {
    && j.incident.Some? && scan.incidentId == j.incident.value.id && scan.chainId == j.incident.value.chainId
    && Lower(scan.address) == Lower(j.incident.value.sourceAddress)
  }

  /** The record after the analyzer has answered; None is an analyzer that throws. */
  ghost function Analysed(j: Job, answer: Option<Planner.Scan>): Job {
    if answer.Some? && ScanFits(j, answer.value) then j.(scan := answer, revision := j.revision + 1)
    else Failed(j, AnalysisFailed, ANALYSIS_FAILED)
  }

  lemma ScanResult(j: Job, answer: Option<Planner.Scan>)
    requires Sound(j) && j.status.ANALYSING?
    ensures SavesAs(Apply(if answer.Some? then OpRecordScan(answer.value) else OpFail(AnalysisFailed, ANALYSIS_FAILED), j),
                    j, Analysed(j, answer))
  {
    FailSaves(j, j, AnalysisFailed, ANALYSIS_FAILED);
    assert Issued(j.(scan := answer, revision := j.revision + 1)) == Issued(j);
  }

  // ----- planning

  /** The plan obeys the schema and is for the job's incident and scan. */
  ghost predicate PlanFits(j: Job, p: RescueActions.Plan) {
    && j.incident.Some? && j.scan.Some?
    && Lower(p.sourceAddress) != Lower(p.destinationAddress) && DistinctIds(p.actions) && DependenciesEarlier(p.actions)
    && p.incidentId == j.incident.value.id && p.chainId == j.incident.value.chainId
    && Lower(p.sourceAddress) == Lower(j.scan.value.address)
    && Lower(p.destinationAddress) == Lower(j.incident.value.destinationAddress)
    && p.observedAtBlock == j.scan.value.observedAtBlock
  }

  ghost function Planned(j: Job, answer: Option<Simulator.SealedPlan>): Job {
    if answer.Some? && PlanFits(j, answer.value.plan) then Stepped(j.(plan := answer), PLAN_READY, PLAN_GENERATED)
    else Failed(j, PlanFailed, PLAN_FAILED)
  }

  lemma PlanResult(j: Job, answer: Option<Simulator.SealedPlan>)
    requires Sound(j) && j.status.ANALYSING? && j.incident.Some? && j.scan.Some?
    ensures SavesAs(Apply(if answer.Some? then OpRecordPlan(answer.value) else OpFail(PlanFailed, PLAN_FAILED), j), j, Planned(j, answer))
  {
    FailSaves(j, j, PlanFailed, PLAN_FAILED);
    if answer.Some? && PlanFits(j, answer.value.plan) {
      StepSaves(j, j.(plan := answer), PLAN_READY, PLAN_GENERATED);
    }
  }

  // ----- simulation

  /** The report is about this plan: it names only its actions, none as both executable and excluded,
      and every result is of this plan under its hash. */
  ghost predicate ReportFits(sealed: Simulator.SealedPlan, s: SimulationReport) {
    var ids := IdSet(sealed.plan.actions);
    && ToSet(s.executableActionIds) <= ids && ToSet(s.excludedActionIds) <= ids
    && ToSet(s.executableActionIds) !! ToSet(s.excludedActionIds)
    && forall i :: 0 <= i < |s.results| ==>
         && var x := s.results[i];
            x.result.planId == sealed.plan.id && Lower(x.result.planHash) == Lower(sealed.integrityHash)
            && x.result.actionId in ids
  }

  lemma ReportFitsIff(sealed: Simulator.SealedPlan, s: SimulationReport)
    ensures SimulationMatches(sealed, s) <==> ReportFits(sealed, s)
  {
    var ids := IdSet(sealed.plan.actions);
    assert ToSet(s.executableActionIds) <= ids <==> forall id :: id in s.executableActionIds ==> id in ids;
    assert ToSet(s.excludedActionIds) <= ids <==> forall id :: id in s.excludedActionIds ==> id in ids;
    assert ToSet(s.executableActionIds) !! ToSet(s.excludedActionIds) <==>
           forall id :: id in s.executableActionIds ==> id !in s.excludedActionIds by {
      assert forall id :: id in s.executableActionIds <==> id in ToSet(s.executableActionIds);
      assert forall id :: id in s.excludedActionIds <==> id in ToSet(s.excludedActionIds);
    }
  }

  ghost function SimulatedAs(j: Job, answer: Option<SimulationReport>): Job
    requires j.plan.Some?
  {
    if answer.None? || !ReportFits(j.plan.value, answer.value) then Failed(j, SimulationFailed, SIMULATION_FAILED)
    else if answer.value.status.AllFailed? then Failed(j.(simulation := answer), SimulationFailed, SIMULATION_FAILED)
    else Stepped(j.(simulation := answer), WAITING_FOR_USER, Reason.SIMULATION_READY)
  }

  lemma SimulationResult(j: Job, answer: Option<SimulationReport>)
    requires Sound(j) && j.status.PLAN_READY? && j.plan.Some?
    ensures SavesAs(Apply(if answer.Some? then OpRecordSimulation(answer.value) else OpFail(SimulationFailed, SIMULATION_FAILED), j),
                    j, SimulatedAs(j, answer))
  {
    FailSaves(j, j, SimulationFailed, SIMULATION_FAILED);
    if answer.Some? {
      ReportFitsIff(j.plan.value, answer.value);
      if SimulationMatches(j.plan.value, answer.value) {
        RecordingResult(j, answer.value);
      }
    }
  }

  lemma RecordingResult(j: Job, s: SimulationReport)
    requires Sound(j) && j.status.PLAN_READY? && j.plan.Some? && SimulationMatches(j.plan.value, s)
    ensures SavesAs(RecordSimulation(j, s), j,
                    if s.status.AllFailed? then Failed(j.(simulation := Some(s)), SimulationFailed, SIMULATION_FAILED)
                    else Stepped(j.(simulation := Some(s)), WAITING_FOR_USER, Reason.SIMULATION_READY))
  {
    var patched := j.(simulation := Some(s));
    assert Issued(patched) == Issued(j);
    FailSaves(j, patched, SimulationFailed, SIMULATION_FAILED);
    StepSaves(j, patched, WAITING_FOR_USER, Reason.SIMULATION_READY);
  }

  // ----- signing packages

  function Resimulated(j: Job, s: SimulationReport): Job {
    j.(simulation := Some(s), revision := j.revision + 1)
  }

  lemma ResimulationResult(j: Job, s: SimulationReport)
    requires Sound(j) && CanIssue(j)
    ensures if ReportFits(j.plan.value, s) && !s.status.AllFailed? then SavesAs(Resimulate(j, s), j, Resimulated(j, s))
            else Resimulate(j, s) == Err(PackagesUnavailable)
  {
    ReportFitsIff(j.plan.value, s);
    assert Issued(Resimulated(j, s)) == Issued(j);
  }

  /** The package is for this job and moves the asset of an executable action, within the time its
      simulation allows. */
  ghost predicate PackageFits(j: Job, p: Package, now: int) {
    && j.incident.Some? && j.plan.Some? && j.simulation.Some?
    && var plan, report := j.plan.value.plan, j.simulation.value;
       && p.jobId == j.id && p.incidentId == j.incident.value.id && p.planId == plan.id && p.chainId == plan.chainId
       && Lower(p.planHash) == Lower(j.plan.value.integrityHash) && Lower(p.sourceAddress) == Lower(plan.sourceAddress)
       && Lower(p.destinationAddress) == Lower(plan.destinationAddress) && p.observedAtBlock == plan.observedAtBlock
       && p.actionId in report.executableActionIds
       && (exists a :: a in plan.actions && a.id == p.actionId && MovesAssetOf(p, a))
       && var recorded := FindRecorded(report.results, p.resultId);
          && recorded.Some? && recorded.value.result.actionId == p.actionId && recorded.value.result.status.SUCCEEDED?
          && recorded.value.providerId == p.providerId && recorded.value.result.expiresAt == p.resultExpiresAt
          && now < p.expiresAt && p.expiresAt <= recorded.value.result.expiresAt
  }

  /** An NFT package moves the action's token of the collection, any other the action's amount of the token. */
  ghost predicate MovesAssetOf(p: Package, a: RescueAction) {
    if p.route.ERC4494? then
      a.parameters.TransferErc721? && Lower(a.parameters.collectionAddress) == Lower(p.contractAddress)
      && a.parameters.tokenId == p.quantity
    else
      a.parameters.TransferErc20? && Lower(a.parameters.tokenAddress) == Lower(p.contractAddress)
      && a.parameters.amount == p.quantity
  }

  /** One of the plan's actions comes before the other. */
  ghost predicate Precedes(actions: seq<RescueAction>, id: string, later: string) {
    exists m, n :: 0 <= m < n < |actions| && actions[m].id == id && actions[n].id == later
  }

  /** The packages are different and follow the plan. */
  ghost predicate Follow(actions: seq<RescueAction>, packages: seq<Package>) {
    forall i, k :: 0 <= i < k < |packages| ==>
      packages[i].packageId != packages[k].packageId && Precedes(actions, packages[i].actionId, packages[k].actionId)
  }

  /** The packages are different, fit the job, follow the plan, and include all packages a receipt is
      registered for; the first one spells the plan's hash as the plan does. */
  ghost predicate PackagesFit(j: Job, packages: seq<Package>, now: int) {
    && packages != [] && j.plan.Some? && packages[0].planHash == j.plan.value.integrityHash
    && (forall i :: 0 <= i < |packages| ==> PackageFits(j, packages[i], now))
    && Follow(j.plan.value.plan.actions, packages)
    && (forall i :: 0 <= i < |Submissions(j)| ==> IsIssued(Submissions(j)[i].packageId, packages))
  }

  /** What the job's own schema asks of packages beyond the rules for issuing them. */
  ghost predicate Storable(j: Job, packages: seq<Package>)
    requires packages != [] && j.plan.Some?
  {
    && packages[0].planHash == j.plan.value.integrityHash
    && forall i :: 0 <= i < |Submissions(j)| ==> IsIssued(Submissions(j)[i].packageId, packages)
  }

  function IssuedAs(j: Job, packages: seq<Package>): Job
    requires packages != []
  {
    j.(signingPackage := Some(packages[0]), signingPackages := Some(packages), revision := j.revision + 1)
  }

  lemma PackageFitsIff(j: Job, p: Package, now: int)
    requires Valid(j) && CanIssue(j)
    ensures PackageMatches(j, p, now) <==> PackageFits(j, p, now)
  {
    var actions := j.plan.value.plan.actions;
    var found := FindAction(actions, p.actionId);
    if found.Some? {
      forall a | a in actions && a.id == p.actionId ensures a == found.value {
        SameIdSameAction(actions, a, found.value);
      }
    }
    assert forall a :: a in actions ==> a.id in IdSet(actions);
  }

  lemma PrecedesIff(actions: seq<RescueAction>, id: string, later: string)
    requires DistinctIds(actions) && id in IdSet(actions) && later in IdSet(actions)
    ensures Precedes(actions, id, later) <==> IndexOf(actions, id) < IndexOf(actions, later)
  {
    var m, n := IndexOf(actions, id), IndexOf(actions, later);
    assert actions[m].id == id && actions[n].id == later;
  }

  lemma FitsNamesAction(j: Job, p: Package, now: int)
    requires PackageFits(j, p, now)
    ensures p.actionId in IdSet(j.plan.value.plan.actions)
  {}

  /** The rules on a list of packages, in the words of the service and in those above. */
  lemma PackagesFitIff(j: Job, packages: seq<Package>, now: int)
    requires Valid(j) && CanIssue(j)
    ensures PackagesFit(j, packages, now) <==> Issuable(j, packages, now) && Storable(j, packages)
  {
    forall i | 0 <= i < |packages| ensures PackageMatches(j, packages[i], now) <==> PackageFits(j, packages[i], now) {
      PackageFitsIff(j, packages[i], now);
    }
    if packages != [] && forall i :: 0 <= i < |packages| ==> PackageFits(j, packages[i], now) {
      ListRules(j, packages, now);
      OrderRules(j, packages, now);
      RulesAgree(j.plan.value.plan.actions, packages);
    }
  }

  lemma RulesAgree(actions: seq<RescueAction>, packages: seq<Package>)
    requires packages != [] && forall i :: 0 <= i < |packages| ==> SharesScope(packages[i], packages[0])
    requires InPlanOrder(actions, packages) <==>
             forall i, k :: 0 <= i < k < |packages| ==> Precedes(actions, packages[i].actionId, packages[k].actionId)
    requires InPlanOrder(actions, packages) ==> forall i, k :: 0 <= i < k < |packages| ==> packages[i].actionId != packages[k].actionId
    ensures Follow(actions, packages) <==> PackageListValid(packages) && InPlanOrder(actions, packages)
  {}

  lemma OrderRules(j: Job, packages: seq<Package>, now: int)
    requires Valid(j) && CanIssue(j) && forall i :: 0 <= i < |packages| ==> PackageFits(j, packages[i], now)
    ensures InPlanOrder(j.plan.value.plan.actions, packages) <==>
            forall i, k :: 0 <= i < k < |packages| ==>
              Precedes(j.plan.value.plan.actions, packages[i].actionId, packages[k].actionId)
  {
    var actions := j.plan.value.plan.actions;
    forall i | 0 <= i < |packages| ensures packages[i].actionId in IdSet(actions) {
      FitsNamesAction(j, packages[i], now);
    }
    forall i, k | 0 <= i < k < |packages|
      ensures Precedes(actions, packages[i].actionId, packages[k].actionId) <==>
              IndexOf(actions, packages[i].actionId) < IndexOf(actions, packages[k].actionId)
    {
      PrecedesIff(actions, packages[i].actionId, packages[k].actionId);
    }
  }

  lemma ListRules(j: Job, packages: seq<Package>, now: int)
    requires Valid(j) && CanIssue(j) && packages != [] && forall i :: 0 <= i < |packages| ==> PackageFits(j, packages[i], now)
    ensures forall i :: 0 <= i < |packages| ==> SharesScope(packages[i], packages[0])
    ensures InPlanOrder(j.plan.value.plan.actions, packages) ==>
              forall i, k :: 0 <= i < k < |packages| ==> packages[i].actionId != packages[k].actionId
  {
    assert PackageFits(j, packages[0], now);
    forall i | 0 <= i < |packages| ensures SharesScope(packages[i], packages[0]) {
      assert PackageFits(j, packages[i], now);
    }
  }

  lemma IssueResult(j: Job, packages: seq<Package>, now: int)
    requires Sound(j) && CanIssue(j)
    ensures if PackagesFit(j, packages, now) then SavesAs(IssuePackages(j, packages, now), j, IssuedAs(j, packages))
            else IssuePackages(j, packages, now).Err?
  {
    PackagesFitIff(j, packages, now);
    if Issuable(j, packages, now) {
      IssuedValid(j, packages, now);
    }
  }

  lemma IssuedScopes(j: Job, packages: seq<Package>, now: int)
    requires Sound(j) && CanIssue(j) && Issuable(j, packages, now)
    ensures PackagesValid(IssuedAs(j, packages)) <==> packages[0].planHash == j.plan.value.integrityHash
  {
    var next := IssuedAs(j, packages);
    forall i | 0 <= i < |packages| ensures PackageScope(packages[i], next.id, next.incident.value, next.plan.value) {
      assert PackageMatches(j, packages[i], now);
    }
  }

  lemma IssuedReceipts(j: Job, packages: seq<Package>)
    requires Valid(j) && j.receiptSubmissions.Some?
    ensures SubmissionsValid(j.receiptSubmissions.value, packages) <==>
            forall i :: 0 <= i < |Submissions(j)| ==> IsIssued(Submissions(j)[i].packageId, packages)
  {
    var submissions := j.receiptSubmissions.value;
    assert submissions == Submissions(j) && SubmissionsValid(submissions, Issued(j));
    if forall i :: 0 <= i < |Submissions(j)| ==> IsIssued(Submissions(j)[i].packageId, packages) {
      forall i | 0 <= i < |submissions| ensures IsIssued(submissions[i].packageId, packages) {
        assert submissions[i] == Submissions(j)[i];
      }
    }
  }

  lemma IssuedValid(j: Job, packages: seq<Package>, now: int)
    requires Sound(j) && CanIssue(j) && Issuable(j, packages, now)
    ensures Valid(IssuedAs(j, packages)) <==> Storable(j, packages)
  {
    IssuedScopes(j, packages, now);
    if j.receiptSubmissions.Some? {
      IssuedReceipts(j, packages);
    }
    ValidParts(j, IssuedAs(j, packages), packages);
  }

  lemma ValidParts(j: Job, next: Job, packages: seq<Package>)
    requires Valid(j) && CanIssue(j) && packages != [] && next == IssuedAs(j, packages)
    ensures Valid(next) <==>
            PackagesValid(next) && (j.receiptSubmissions.Some? ==> SubmissionsValid(j.receiptSubmissions.value, packages))
  {
    assert Issued(next) == packages;
  }

  // ----- receipts and the dashboard

  /** Nobody else's hash: a receipt can be registered only for an issued package, while the buyer is
      awaited, and at most 64 of them. */
  ghost predicate CanRegister(j: Job, packageId: string) {
    (exists p :: p in Issued(j) && p.packageId == packageId) && AwaitsBuyer(j.status) && |Submissions(j)| < 64
  }

  ghost predicate NotRegistered(j: Job, hash: string) {
    forall other :: !Registered(j, hash, other)
  }

  /** A new receipt is appended as pending exactly when it can be registered. */
  lemma RegisteringResult(j: Job, packageId: string, hash: string)
    requires Sound(j) && NotRegistered(j, hash)
    ensures if CanRegister(j, packageId) then
              SavesAs(RegisterReceipt(j, packageId, hash), j,
                      j.(receiptSubmissions := Some(Submissions(j) + [Submission(packageId, hash, PENDING)]), revision := j.revision + 1))
            else RegisterReceipt(j, packageId, hash).Err?
  {
    FoundIsRegistered(j, hash);
    if FindPackage(Issued(j), packageId).Some? && AwaitsBuyer(j.status) {
      RegisteredValid(j, packageId, hash);
    }
  }

  /** A hash that is already registered changes nothing, and is refused for another package. */
  lemma RegisteringAgain(j: Job, packageId: string, hash: string, bound: string)
    requires Sound(j) && Registered(j, hash, bound)
    ensures if exists p :: p in Issued(j) && p.packageId == packageId
            then RegisterReceipt(j, packageId, hash) == if bound == packageId then Ok(Keep(j)) else Err(HashTaken)
            else RegisterReceipt(j, packageId, hash) == Err(NoPackage)
  {
    FoundIsRegistered(j, hash);
    KeptOneBinding(j, hash, bound);
  }

  lemma FoundIsRegistered(j: Job, hash: string)
    ensures var found := FindSubmission(Submissions(j), hash);
            && (found.Some? ==> Registered(j, hash, found.value.packageId))
            && (found.None? ==> NotRegistered(j, hash))
  {
    var found := FindSubmission(Submissions(j), hash);
    if found.Some? {
      var i :| 0 <= i < |Submissions(j)| && Submissions(j)[i] == found.value;
    } else {
      NothingRegistered(j, hash);
    }
  }

  lemma KeptOneBinding(j: Job, hash: string, packageId: string)
    requires Valid(j) && Registered(j, hash, packageId)
    ensures forall other :: Registered(j, hash, other) ==> other == packageId
  {}

  lemma NothingRegistered(j: Job, hash: string)
    requires FindSubmission(Submissions(j), hash).None?
    ensures forall other :: !Registered(j, hash, other)
  {
    forall other ensures !Registered(j, hash, other) {
      assert forall i :: 0 <= i < |Submissions(j)| ==> Submissions(j)[i] in Submissions(j);
    }
  }

  lemma {:induction false} RegisteredValid(j: Job, packageId: string, hash: string)
    requires Sound(j) && AwaitsBuyer(j.status) && FindPackage(Issued(j), packageId).Some? && FindSubmission(Submissions(j), hash).None?
    ensures var next := j.(receiptSubmissions := Some(Submissions(j) + [Submission(packageId, hash, PENDING)]), revision := j.revision + 1);
            Valid(next) <==> |Submissions(j)| < 64
  {
    var submissions := Submissions(j) + [Submission(packageId, hash, PENDING)];
    var next := j.(receiptSubmissions := Some(submissions), revision := j.revision + 1);
    var p := FindPackage(Issued(j), packageId).value;
    var n :| 0 <= n < |Issued(j)| && Issued(j)[n] == p;
    assert IsIssued(packageId, Issued(j));
    forall i | 0 <= i < |Submissions(j)| ensures !SameText(Submissions(j)[i].transactionHash, hash) {
      assert Submissions(j)[i] in Submissions(j);
    }
    assert Issued(next) == Issued(j);
  }

  function MarkedSubmission(s: Submission, packageId: string, hash: string, status: SubmissionStatus): Submission {
    if s.packageId == packageId && Lower(s.transactionHash) == Lower(hash) then Submission(s.packageId, s.transactionHash, status) else s
  }

  /** The job with the status of this receipt changed, and nothing else. */
  function Marked(j: Job, packageId: string, hash: string, status: SubmissionStatus): Job {
    var submissions := Submissions(j);
    j.(receiptSubmissions :=
         if j.receiptSubmissions.None? then None
         else Some(seq(|submissions|, i requires 0 <= i < |submissions| => MarkedSubmission(submissions[i], packageId, hash, status))),
       revision := j.revision + 1)
  }

  lemma MarkingResult(j: Job, packageId: string, hash: string, status: SubmissionStatus)
    requires Sound(j)
    ensures SavesAs(SetReceiptStatus(j, packageId, hash, status), j, Marked(j, packageId, hash, status))
  {
    var next := Marked(j, packageId, hash, status);
    if j.receiptSubmissions.Some? {
      MarkedSame(j, packageId, hash, status);
    }
    assert Issued(next) == Issued(j);
  }

  lemma MarkedSame(j: Job, packageId: string, hash: string, status: SubmissionStatus)
    requires j.receiptSubmissions.Some?
    ensures Marked(j, packageId, hash, status).receiptSubmissions.value == WithStatus(Submissions(j), packageId, hash, status)
  {}

  lemma DashboardResult(j: Job, url: string)
    requires Sound(j)
    ensures SavesAs(SetDashboard(j, url), j, j.(dashboardUrl := Some(url), revision := j.revision + 1))
  {
    assert Issued(j.(dashboardUrl := Some(url), revision := j.revision + 1)) == Issued(j);
  }

  // ----- monitoring

  /** How far a rescue is. */
  function Rank(s: Status): int {
    match s
    case WAITING_FOR_USER => 0
    case SIGNING => 1
    case EXECUTING => 2
    case COMPLETED => 3
    case PARTIAL => 3
    case FAILED => 3
    case _ => -1
  }

  ghost predicate ObservationFits(p: RescueActions.Plan, o: Observation) {
    var ids := IdSet(p.actions);
    && ToSet(o.completedActionIds) <= ids && ToSet(o.failedActionIds) <= ids
    && ToSet(o.completedActionIds) !! ToSet(o.failedActionIds)
    && (o.phase.COMPLETED? || o.phase.PARTIAL? ==> o.transactionHashes != [])
  }

  /** Signing and execution are passed through on the way to a later phase. */
  function Walked(j: Job, phase: Status): Job {
    var s := if j.status.WAITING_FOR_USER? && Rank(phase) >= 1 then Stepped(j, SIGNING, SIGNING_OBSERVED) else j;
    if s.status.SIGNING? && Rank(phase) >= 2 then Stepped(s, EXECUTING, EXECUTION_OBSERVED) else s
  }

  function EndReason(phase: Status): Reason {
    match phase
    case COMPLETED => RESCUE_COMPLETED
    case PARTIAL => RESCUE_PARTIAL
    case _ => RESCUE_FAILED
  }

  function Advanced(j: Job, o: Observation): Job {
    var at := Walked(j, o.phase).(monitor := Some(o));
    if Rank(o.phase) == 3 then Stepped(at, o.phase, EndReason(o.phase)) else at.(revision := at.revision + 1)
  }

  /** An observation that is about the plan and no step back is stored with the phase it reports; any
      other fails the job. */
  ghost function ObservedAs(j: Job, o: Observation): Job
    requires j.plan.Some?
  {
    if ObservationFits(j.plan.value.plan, o) && Rank(o.phase) >= Rank(j.status) then Advanced(j, o)
    else Failed(j, MonitorFailed, RESCUE_FAILED)
  }

  lemma ObservationFitsIff(p: RescueActions.Plan, o: Observation)
    ensures ObservationMatches(p, o) <==> ObservationFits(p, o)
  {
    var ids := IdSet(p.actions);
    assert ToSet(o.completedActionIds) <= ids <==> forall id :: id in o.completedActionIds ==> id in ids;
    assert ToSet(o.failedActionIds) <= ids <==> forall id :: id in o.failedActionIds ==> id in ids;
    assert ToSet(o.completedActionIds) !! ToSet(o.failedActionIds) <==>
           forall id :: id in o.completedActionIds ==> id !in o.failedActionIds by {
      assert forall id :: id in o.completedActionIds <==> id in ToSet(o.completedActionIds);
      assert forall id :: id in o.failedActionIds <==> id in ToSet(o.failedActionIds);
    }
  }

  lemma StepSucceeds(j: Job, patched: Job, to: Status, reason: Reason)
    requires Valid(j) && Valid(patched) && CanTransition(j.status, to) && AwaitsBuyer(j.status)
    requires patched.status == j.status && patched.history == j.history && patched.revision == j.revision && patched.error.None?
    ensures TransitionJob(j, to, reason, patched) == Ok(Stepped(patched, to, reason)) && Valid(Stepped(patched, to, reason))
  {
    StepValid(j, patched, to, reason);
  }

  lemma WalkedToSigning(j: Job)
    requires Valid(j) && (j.status.WAITING_FOR_USER? || j.status.SIGNING?)
    ensures Forward(j, WAITING_FOR_USER, SIGNING, SIGNING_OBSERVED) == Ok(Walked(j, SIGNING)) && Valid(Walked(j, SIGNING))
  {
    if j.status.WAITING_FOR_USER? {
      StepSucceeds(j, j, SIGNING, SIGNING_OBSERVED);
    }
  }

  lemma WalkedToExecution(j: Job)
    requires Valid(j) && AwaitsBuyer(j.status)
    ensures TowardsExecution(j) == Ok(Walked(j, EXECUTING)) && Valid(Walked(j, EXECUTING)) && Walked(j, EXECUTING).status.EXECUTING?
  {
    if !j.status.EXECUTING? {
      WalkedToSigning(j);
      var signing := Walked(j, SIGNING);
      StepSucceeds(signing, signing, EXECUTING, EXECUTION_OBSERVED);
    }
  }

  function WithReceipts(j: Job, receipts: Option<seq<Submission>>): Job {
    if receipts.Some? then j.(receiptSubmissions := receipts) else j
  }

  lemma ArriveResult(at: Job, o: Observation, receipts: Option<seq<Submission>>, expected: int)
    requires Valid(at) && at.status == o.phase && BuyerReports.SameReceipts(at, receipts)
    ensures var c := Arrive(at, o, receipts, expected);
            && c.Ok? && c.value.Save? && c.value.expected == expected
            && c.value.job == WithReceipts(at.(monitor := Some(o), revision := at.revision + 1), receipts)
  {
    BuyerReports.ArriveSucceeds(at, o, receipts, expected);
  }

  lemma FinishResult(at: Job, o: Observation, receipts: Option<seq<Submission>>, expected: int)
    requires Valid(at) && at.status.EXECUTING? && IsTerminal(o.phase) && BuyerReports.SameReceipts(at, receipts)
    ensures var c := Finish(at, o, receipts, expected);
            && c.Ok? && c.value.Save? && c.value.expected == expected
            && c.value.job == WithReceipts(Stepped(at.(monitor := Some(o)), o.phase, EndReason(o.phase)), receipts)
  {
    var patched := WithReceipts(at.(monitor := Some(o)), receipts);
    BuyerReports.PatchStaysValid(at, o, receipts);
    assert patched == Patch(at, o, receipts);
    StepSucceeds(at, patched, o.phase, EndReason(o.phase));
  }

  lemma BeforeExecution(j: Job, o: Observation, receipts: Option<seq<Submission>>)
    requires Valid(j) && AwaitsBuyer(j.status) && Rank(o.phase) >= Rank(j.status) && BuyerReports.SameReceipts(j, receipts)
    requires o.phase.WAITING_FOR_USER? || o.phase.SIGNING?
    ensures SavesAs(AdvanceToObservation(j, o, receipts), j, WithReceipts(Advanced(j, o), receipts))
  {
    if o.phase.WAITING_FOR_USER? {
      ArriveResult(j, o, receipts, j.revision);
    } else {
      WalkedToSigning(j);
      ArriveResult(Walked(j, SIGNING), o, receipts, j.revision);
    }
  }

  lemma WalkedAlike(j: Job, phase: Status)
    requires Rank(phase) >= 2
    ensures Walked(j, phase) == Walked(j, EXECUTING)
  {}

  lemma ToExecution(j: Job, o: Observation, receipts: Option<seq<Submission>>)
    requires Valid(j) && AwaitsBuyer(j.status) && BuyerReports.SameReceipts(j, receipts) && o.phase.EXECUTING?
    ensures SavesAs(AdvanceToObservation(j, o, receipts), j, WithReceipts(Advanced(j, o), receipts))
  {
    WalkedToExecution(j);
    ArriveResult(Walked(j, EXECUTING), o, receipts, j.revision);
  }

  lemma ToTheEnd(j: Job, o: Observation, receipts: Option<seq<Submission>>)
    requires Valid(j) && AwaitsBuyer(j.status) && BuyerReports.SameReceipts(j, receipts) && IsTerminal(o.phase)
    ensures SavesAs(AdvanceToObservation(j, o, receipts), j, WithReceipts(Advanced(j, o), receipts))
  {
    WalkedToExecution(j);
    WalkedAlike(j, o.phase);
    EndsAfter(j, Walked(j, EXECUTING), o, receipts);
    FinishResult(Walked(j, EXECUTING), o, receipts, j.revision);
  }

  lemma EndsAfter(j: Job, at: Job, o: Observation, receipts: Option<seq<Submission>>)
    requires TowardsExecution(j) == Ok(at) && at == Walked(j, o.phase) && IsTerminal(o.phase)
    ensures AdvanceToObservation(j, o, receipts) == Finish(at, o, receipts, j.revision)
    ensures Advanced(j, o) == Stepped(at.(monitor := Some(o)), o.phase, EndReason(o.phase))
  {}

  /** Advancing to an observation no less far on always succeeds. */
  lemma AdvanceResult(j: Job, o: Observation, receipts: Option<seq<Submission>>)
    requires Valid(j) && AwaitsBuyer(j.status) && Rank(o.phase) >= Rank(j.status) && BuyerReports.SameReceipts(j, receipts)
    ensures SavesAs(AdvanceToObservation(j, o, receipts), j, WithReceipts(Advanced(j, o), receipts))
  {
    if o.phase.WAITING_FOR_USER? || o.phase.SIGNING? {
      BeforeExecution(j, o, receipts);
    } else if o.phase.EXECUTING? {
      ToExecution(j, o, receipts);
    } else {
      ToTheEnd(j, o, receipts);
    }
  }

  lemma StepBackFails(j: Job, o: Observation)
    requires Valid(j) && AwaitsBuyer(j.status) && AwaitsBuyer(o.phase) && Rank(o.phase) < Rank(j.status)
    ensures AdvanceToObservation(j, o, None).Err?
  {}

  lemma ObserveResult(j: Job, o: Observation)
    requires Sound(j) && AwaitsBuyer(j.status) && j.plan.Some?
    ensures SavesAs(Observe(j, o), j, ObservedAs(j, o))
  {
    ObservationFitsIff(j.plan.value.plan, o);
    FailSaves(j, j, MonitorFailed, RESCUE_FAILED);
    if Rank(o.phase) >= Rank(j.status) {
      AdvanceResult(j, o, None);
    } else if AwaitsBuyer(o.phase) {
      StepBackFails(j, o);
    }
  }

  // ----- buyer reports

  /** The report is on this issued package of the job. */
  ghost predicate ReportsOn(j: Job, p: Package, report: Report) {
    && p in Issued(j) && p.packageId == report.packageId && report.jobId == j.id
    && report.incidentId == p.incidentId && report.planId == p.planId && report.actionId == p.actionId
    && report.route == p.route && report.chainId == p.chainId && Lower(report.planHash) == Lower(p.planHash)
    && Lower(report.sourceAddress) == Lower(p.sourceAddress) && Lower(report.destinationAddress) == Lower(p.destinationAddress)
  }

  /** When a report is accepted: while the buyer is awaited, if it is on an issued package and the
      verifier confirms it; for a finished job, if it repeats what has been verified. */
  ghost predicate Acceptable(j: Job, report: Report, verified: Result<Observation, VerifierError>) {
    if j.status.COMPLETED? || j.status.PARTIAL? then
      && (exists p :: ReportsOn(j, p, report)) && report.actionId in CompletedIds(j)
      && LowerSet(report.transactionHashes) <= LowerSet(Hashes(j))
    else
      && AwaitsBuyer(j.status) && j.plan.Some? && (exists p :: ReportsOn(j, p, report))
      && verified.Ok? && verified.value.phase.COMPLETED? && ObservationFits(j.plan.value.plan, verified.value)
  }

  lemma {:induction false} FoundByPackageId(packages: seq<Package>, p: Package)
    requires p in packages && forall i, k :: 0 <= i < k < |packages| ==> packages[i].packageId != packages[k].packageId
    ensures FindPackage(packages, p.packageId) == Some(p)
  {}

  lemma IssuedDiffer(j: Job)
    requires Valid(j)
    ensures forall i, k :: 0 <= i < k < |Issued(j)| ==> Issued(j)[i].packageId != Issued(j)[k].packageId
  {}

  lemma ReportsOnIff(j: Job, report: Report)
    requires Valid(j)
    ensures ReportedPackage(j, report).Some? <==> exists p :: ReportsOn(j, p, report)
    ensures ReportedPackage(j, report).Some? ==> ReportsOn(j, ReportedPackage(j, report).value, report)
  {
    IssuedDiffer(j);
    var found := ReportedPackage(j, report);
    if found.Some? {
      assert ReportsOn(j, found.value, report);
    } else {
      forall p ensures !ReportsOn(j, p, report) {
        if ReportsOn(j, p, report) {
          FoundByPackageId(Issued(j), p);
        }
      }
    }
  }

  lemma RetryAcceptedIff(j: Job, report: Report)
    requires Sound(j) && (j.status.COMPLETED? || j.status.PARTIAL?)
    ensures RetryReport(j, report).Ok? <==>
            && (exists p :: ReportsOn(j, p, report)) && report.actionId in CompletedIds(j)
            && LowerSet(report.transactionHashes) <= LowerSet(Hashes(j))
  {
    ReportsOnIff(j, report);
    var receipts := ConfirmedReceipts(j, report.packageId, report.transactionHashes);
    if receipts.Some? {
      BuyerReports.ConfirmedAreSame(j, report.packageId, report.transactionHashes);
      ReceiptsUpdate(j, receipts.value);
    }
  }

  lemma ReceiptsUpdate(j: Job, receipts: seq<Submission>)
    requires Sound(j) && BuyerReports.SameReceipts(j, Some(receipts))
    ensures UpdateJob(j, j.(receiptSubmissions := Some(receipts)), j.revision).Ok?
  {
    BuyerReports.ReceiptsStayValid(j, receipts);
    assert Issued(j.(receiptSubmissions := Some(receipts), revision := j.revision + 1)) == Issued(j);
  }

  lemma VerifiedAccepted(j: Job, report: Report, o: Observation)
    requires Sound(j) && AwaitsBuyer(j.status) && j.plan.Some?
    ensures RecordVerified(j, report, o).Ok? <==> o.phase.COMPLETED? && ObservationFits(j.plan.value.plan, o)
  {
    ObservationFitsIff(j.plan.value.plan, o);
    BuyerReports.ConfirmedAreSame(j, report.packageId, report.transactionHashes);
    BuyerReports.AdvanceSucceeds(j, Merged(j, o), ConfirmedReceipts(j, report.packageId, report.transactionHashes));
  }

  lemma ReportAcceptedIff(j: Job, report: Report, verified: Result<Observation, VerifierError>)
    requires Sound(j)
    ensures RecordReport(j, report, verified).Ok? <==> Acceptable(j, report, verified)
    ensures AwaitsBuyer(j.status) && j.plan.Some? && (exists p :: ReportsOn(j, p, report)) && verified.Err? ==>
              RecordReport(j, report, verified) == Err(Verifier(verified.error))
  {
    ReportsOnIff(j, report);
    if j.status.COMPLETED? || j.status.PARTIAL? {
      RetryAcceptedIff(j, report);
    } else if AwaitsBuyer(j.status) && j.plan.Some? && verified.Ok? {
      VerifiedAccepted(j, report, verified.value);
    }
  }

  ghost predicate Names(report: Report, s: Submission) {
    s.packageId == report.packageId && exists h :: h in report.transactionHashes && Lower(h) == Lower(s.transactionHash)
  }

  /** The receipts the report names, confirmed; all others as they were. */
  ghost function ConfirmedFor(j: Job, report: Report): Option<seq<Submission>> {
    var submissions := Submissions(j);
    if j.receiptSubmissions.None? then None
    else Some(seq(|submissions|, i requires 0 <= i < |submissions| =>
      if Names(report, submissions[i]) then submissions[i].(status := CONFIRMED) else submissions[i]))
  }

  /** Some action was excluded, or is executable without having a package. */
  ghost predicate SomethingLeft(j: Job) {
    j.simulation.Some?
    && (j.simulation.value.excludedActionIds != []
        || exists id :: id in j.simulation.value.executableActionIds && forall p :: p in Issued(j) ==> p.actionId != id)
  }

  /** All that has been completed, what has failed and not been completed since, all hashes, and the
      phase this means. */
  ghost predicate MergedAs(j: Job, o: Observation, m: Observation) {
    && ToSet(m.completedActionIds) == ToSet(CompletedIds(j)) + ToSet(o.completedActionIds)
    && ToSet(m.failedActionIds) == ToSet(FailedIds(j)) + ToSet(o.failedActionIds) - ToSet(m.completedActionIds)
    && LowerSet(m.transactionHashes) == LowerSet(Hashes(j)) + LowerSet(o.transactionHashes)
    && m.phase == if exists p :: p in Issued(j) && p.actionId !in m.completedActionIds then EXECUTING
                  else if SomethingLeft(j) then Status.PARTIAL
                  else COMPLETED
  }

  lemma MergedPhaseAs(j: Job, completed: seq<string>)
    ensures PhaseAfter(j, completed)
         == if exists p :: p in Issued(j) && p.actionId !in completed then EXECUTING
            else if SomethingLeft(j) then Status.PARTIAL
            else COMPLETED
  {
    UncoveredMeans(j);
  }

  lemma UncoveredMeans(j: Job)
    ensures Uncovered(j) <==>
            j.simulation.Some? && exists id :: id in j.simulation.value.executableActionIds
                                               && forall p :: p in Issued(j) ==> p.actionId != id
  {
    if Uncovered(j) {
      var k :| 0 <= k < |j.simulation.value.executableActionIds|
               && forall i :: 0 <= i < |Issued(j)| ==> Issued(j)[i].actionId != j.simulation.value.executableActionIds[k];
      assert j.simulation.value.executableActionIds[k] in j.simulation.value.executableActionIds;
    }
    if j.simulation.Some? {
      if id :| id in j.simulation.value.executableActionIds && forall p :: p in Issued(j) ==> p.actionId != id {
        var k :| 0 <= k < |j.simulation.value.executableActionIds| && j.simulation.value.executableActionIds[k] == id;
        assert forall i :: 0 <= i < |Issued(j)| ==> Issued(j)[i] in Issued(j);
      }
    }
  }

  lemma MergedIsMerged(j: Job, o: Observation)
    ensures MergedAs(j, o, Merged(j, o))
  {
    var m := Merged(j, o);
    MergedPhaseAs(j, m.completedActionIds);
    assert ToSet(m.failedActionIds) == ToSet(Union(FailedIds(j), o.failedActionIds)) - ToSet(m.completedActionIds);
  }

  lemma ReceiptsConfirmedFor(j: Job, report: Report)
    ensures var receipts := ConfirmedReceipts(j, report.packageId, report.transactionHashes);
            ConfirmedFor(j, report) == if receipts.Some? then receipts else j.receiptSubmissions
  {
    var confirmed := Confirm(Submissions(j), report.packageId, LowerSet(report.transactionHashes));
    forall i | 0 <= i < |confirmed|
      ensures confirmed[i] == if Names(report, Submissions(j)[i]) then Submissions(j)[i].(status := CONFIRMED) else Submissions(j)[i]
    {}
    if j.receiptSubmissions.Some? {
      assert ConfirmedFor(j, report).value == confirmed;
    } else {
      assert confirmed == [];
    }
  }

  /** An accepted report is merged into what was observed so far, and its receipts are confirmed; a
      finished job has only its receipts confirmed. */
  ghost predicate ReportedAs(j: Job, report: Report, verified: Result<Observation, VerifierError>, next: Job) {
    if j.status.COMPLETED? || j.status.PARTIAL? then
      next == j.(receiptSubmissions := ConfirmedFor(j, report), revision := j.revision + 1)
    else
      verified.Ok? && exists m :: MergedAs(j, verified.value, m)
                                  && next == Advanced(j, m).(receiptSubmissions := ConfirmedFor(j, report))
  }

  /** A repetition that confirms nothing new. */
  ghost predicate NothingNew(j: Job, report: Report) {
    (j.status.COMPLETED? || j.status.PARTIAL?) && ConfirmedFor(j, report) == j.receiptSubmissions
  }

  lemma RetryResult(j: Job, report: Report)
    requires Sound(j) && (j.status.COMPLETED? || j.status.PARTIAL?) && RetryReport(j, report).Ok?
    ensures if ConfirmedFor(j, report) == j.receiptSubmissions then RetryReport(j, report) == Ok(Keep(j))
            else SavesAs(RetryReport(j, report), j, j.(receiptSubmissions := ConfirmedFor(j, report), revision := j.revision + 1))
  {
    ReceiptsConfirmedFor(j, report);
    var receipts := ConfirmedReceipts(j, report.packageId, report.transactionHashes);
    if receipts.Some? {
      RetrySaves(j, receipts, RetryReport(j, report));
    }
  }

  lemma RetrySaves(j: Job, receipts: Option<seq<Submission>>, c: Computed)
    requires receipts.Some? && receipts.value != Submissions(j)
    requires c == UpdateJob(j, j.(receiptSubmissions := receipts), j.revision) && c.Ok?
    ensures receipts != j.receiptSubmissions
    ensures SavesAs(c, j, j.(receiptSubmissions := receipts, revision := j.revision + 1))
  {}

  lemma AdvancedKeepsReceipts(j: Job, o: Observation, receipts: Option<seq<Submission>>, confirmed: Option<seq<Submission>>)
    requires confirmed == if receipts.Some? then receipts else j.receiptSubmissions
    ensures WithReceipts(Advanced(j, o), receipts) == Advanced(j, o).(receiptSubmissions := confirmed)
  {}

  lemma MergedGoesOn(j: Job, o: Observation)
    requires AwaitsBuyer(j.status)
    ensures Rank(Merged(j, o).phase) >= Rank(j.status)
  {}

  lemma VerifiedResult(j: Job, report: Report, o: Observation)
    requires Sound(j) && AwaitsBuyer(j.status) && j.plan.Some? && RecordVerified(j, report, o).Ok?
    ensures SavesAs(RecordVerified(j, report, o), j, Advanced(j, Merged(j, o)).(receiptSubmissions := ConfirmedFor(j, report)))
  {
    ReceiptsConfirmedFor(j, report);
    BuyerReports.ConfirmedAreSame(j, report.packageId, report.transactionHashes);
    MergedGoesOn(j, o);
    VerifiedAdvances(j, Merged(j, o), ConfirmedReceipts(j, report.packageId, report.transactionHashes), ConfirmedFor(j, report));
  }

  lemma VerifiedAdvances(j: Job, m: Observation, receipts: Option<seq<Submission>>, confirmed: Option<seq<Submission>>)
    requires Valid(j) && AwaitsBuyer(j.status) && Rank(m.phase) >= Rank(j.status) && BuyerReports.SameReceipts(j, receipts)
    requires confirmed == if receipts.Some? then receipts else j.receiptSubmissions
    ensures SavesAs(AdvanceToObservation(j, m, receipts), j, Advanced(j, m).(receiptSubmissions := confirmed))
  {
    AdvanceResult(j, m, receipts);
    AdvancedKeepsReceipts(j, m, receipts, confirmed);
  }

  lemma ReportResult(j: Job, report: Report, verified: Result<Observation, VerifierError>) returns (next: Job)
    requires Sound(j) && Acceptable(j, report, verified)
    ensures if NothingNew(j, report) then RecordReport(j, report, verified) == Ok(Keep(j))
            else ReportedAs(j, report, verified, next) && SavesAs(RecordReport(j, report, verified), j, next)
  {
    ReportAcceptedIff(j, report, verified);
    next := j;
    if j.status.COMPLETED? || j.status.PARTIAL? {
      RetryResult(j, report);
      next := j.(receiptSubmissions := ConfirmedFor(j, report), revision := j.revision + 1);
    } else {
      VerifiedResult(j, report, verified.value);
      MergedIsMerged(j, verified.value);
      next := Advanced(j, Merged(j, verified.value)).(receiptSubmissions := ConfirmedFor(j, report));
    }
  }

  // ----- the first record

  /** A new job is received with its incident, or waits for the source of one. */
  lemma FirstRecord(id: string, requestId: Option<string>, incident: Option<Incident>)
    ensures var created := NewJob(id, requestId, incident);
            && created.Ok? && created.value.incident == incident && created.value.requestId == requestId && created.value.id == id
            && created.value.status == (if incident.Some? then RECEIVED else WAITING_FOR_SOURCE)
            && created.value.scan.None? && created.value.plan.None? && created.value.simulation.None? && created.value.error.None?
            && Issued(created.value) == [] && Submissions(created.value) == [] && created.value.dashboardUrl.None?
            && created.value.revision == |created.value.history| - 1
  {
    NewJobIsSound(id, requestId, incident);
  }
}
