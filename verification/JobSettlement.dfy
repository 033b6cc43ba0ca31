/** From a completed job to the chain: when every verified answer comes from the verifier of buyer
    reports, each completed action has moved its asset in a block that stays canonical
    (apps/web/src/lib/live-buyer-report-verifier.ts, packages/agent-service/src/service.ts). */
module JobSettlement {
  import opened Basics
  import opened RescueActions
  import opened Jobs
  import opened JobOperations
  import opened JobHistory
  import opened JobStore
  import opened JobRuns
  import JobOutcomes
  import opened JobEvidence
  import Simulator
  import Finality

  // ----- issued packages commit to actions of the plan

  /** The package moves the asset of an action of the plan between the plan's accounts. */
  ghost predicate CommitsTo(p: RescueActions.Plan, package: Package) {
    && SameText(package.sourceAddress, p.sourceAddress) && SameText(package.destinationAddress, p.destinationAddress)
    && exists a :: a in p.actions && a.id == package.actionId && CommitsAsset(package, a)
  }

  ghost predicate IssuedCommit(j: Job) {
    j.plan.Some? ==> forall i :: 0 <= i < |Issued(j)| ==> CommitsTo(j.plan.value.plan, Issued(j)[i])
  }

  ghost predicate KeepsIssued(j: Job, c: Computed) {
    c.Ok? ==> Issued(c.value.job) == Issued(j)
  }

  lemma AnalysisKeepsIssued(op: Op, j: Job)
    requires op.OpStartAnalysis? || op.OpRecordScan?
    ensures KeepsIssued(j, Apply(op, j))
  {}

  lemma PlanningKeepsIssued(j: Job, sealed: Simulator.SealedPlan)
    ensures KeepsIssued(j, RecordPlan(j, sealed))
  {}

  lemma SimulationKeepsIssued(j: Job, report: SimulationReport)
    ensures KeepsIssued(j, RecordSimulation(j, report))
  {}

  lemma LateKeepsIssued(op: Op, j: Job)
    requires op.OpResimulate? || op.OpSetDashboard? || op.OpRegisterReceipt? || op.OpSetReceiptStatus? || op.OpFail?
    ensures KeepsIssued(j, Apply(op, j))
  {}

  lemma FailKeepsIssued(j: Job)
    ensures KeepsIssued(j, FailJob(j, MonitorFailed, RESCUE_FAILED, j))
  {}

  lemma ObserveKeepsIssued(j: Job, o: Observation)
    ensures KeepsIssued(j, Observe(j, o))
  {
    FailKeepsIssued(j);
    if (AwaitsBuyer(o.phase) || IsTerminal(o.phase)) && AdvanceToObservation(j, o, None).Ok? {
      JobOutcomes.AdvanceChanges(j, o, None);
    }
  }

  lemma VerifiedKeepsIssued(j: Job, report: Report, o: Observation)
    requires j.plan.Some?
    ensures KeepsIssued(j, RecordVerified(j, report, o))
  {
    PhaseIsReachable(j, Union(CompletedIds(j), o.completedActionIds));
    if RecordVerified(j, report, o).Ok? {
      JobOutcomes.AdvanceChanges(j, Merged(j, o), ConfirmedReceipts(j, report.packageId, report.transactionHashes));
    }
  }

  lemma ReportKeepsIssued(j: Job, report: Report, verified: Result<Observation, VerifierError>)
    ensures KeepsIssued(j, RecordReport(j, report, verified))
  {
    RetryKeepsIssued(j, report);
    if j.plan.Some? && verified.Ok? {
      VerifiedKeepsIssued(j, report, verified.value);
    }
  }

  lemma RetryKeepsIssued(j: Job, report: Report)
    ensures KeepsIssued(j, RetryReport(j, report))
  {}

  /** Only issuing changes the packages. */
  lemma OperationsKeepIssued(op: Op, j: Job)
    requires !op.OpIssuePackages?
    ensures KeepsIssued(j, Apply(op, j))
  {
    match op {
      case OpRecordReport(report, verified) => ReportKeepsIssued(j, report, verified);
      case OpObserve(o) => ObserveKeepsIssued(j, o);
      case OpStartAnalysis(_) => AnalysisKeepsIssued(op, j);
      case OpRecordScan(_) => AnalysisKeepsIssued(op, j);
      case OpRecordPlan(sealed) => PlanningKeepsIssued(j, sealed);
      case OpRecordSimulation(report) => SimulationKeepsIssued(j, report);
      case _ => LateKeepsIssued(op, j);
    }
  }

  lemma MatchingPackageCommits(j: Job, package: Package, now: int)
    requires PackageMatches(j, package, now)
    ensures CommitsTo(j.plan.value.plan, package)
  {
    var a := FindAction(j.plan.value.plan.actions, package.actionId).value;
    assert a in j.plan.value.plan.actions && CommitsAsset(package, a);
  }

  lemma IssuingCommits(j: Job, packages: seq<Package>, now: int)
    requires IssuePackages(j, packages, now).Ok?
    ensures IssuedCommit(IssuePackages(j, packages, now).value.job)
  {
    forall i | 0 <= i < |packages| ensures CommitsTo(j.plan.value.plan, packages[i]) {
      MatchingPackageCommits(j, packages[i], now);
    }
  }

  lemma NothingIssuedBeforePlan(j: Job)
    requires Valid(j) && j.plan.None?
    ensures Issued(j) == []
  {}

  lemma OperationsKeepCommitments(op: Op, j: Job)
    requires Sound(j) && IssuedCommit(j) && Apply(op, j).Ok?
    ensures IssuedCommit(Apply(op, j).value.job)
  {
    if op.OpIssuePackages? {
      IssuingCommits(j, op.packages, op.now);
    } else {
      OperationsKeepIssued(op, j);
      OperationsFollow(op, j);
      PlanStays(j, Apply(op, j));
    }
  }

  lemma PlanStays(j: Job, c: Computed)
    requires Sound(j) && Follows(j, c) && c.Ok?
    ensures j.plan.Some? ==> c.value.job.plan == j.plan
    ensures j.plan.None? ==> Issued(j) == []
  {
    if j.plan.None? {
      NothingIssuedBeforePlan(j);
    }
  }

  ghost predicate CommittedLog(log: Log) {
    log.Then? ==> IssuedCommit(log.commit.job) && CommittedLog(log.before)
  }

  lemma {:induction false} LatestCommits(a: Log, b: Log, id: string)
    requires IsPrefix(a, b) && CommittedLog(b) && Latest(a, id).Some?
    ensures IssuedCommit(Latest(a, id).value)
    decreases b, a
  {
    if a != b {
      LatestCommits(a, b.before, id);
    } else if a.commit.job.id != id {
      LatestCommits(a.before, a.before, id);
    }
  }

  lemma SnapshotCommits(w: World, client: nat)
    requires Inv(w) && CommittedLog(w.log) && client in w.clients
    ensures Sound(w.clients[client].job) && IssuedCommit(w.clients[client].job)
  {
    assert SnapshotOk(w, client);
    SnapshotIsEarlier(w, client);
    LatestCommits(w.clients[client].since, w.log, w.clients[client].job.id);
  }

  lemma AttemptKeepsCommitted(w: World, client: nat, c: Computed)
    requires CommittedLog(w.log) && (c.Ok? ==> IssuedCommit(c.value.job))
    ensures CommittedLog(Attempt(w, client, c).log)
  {}

  lemma StepKeepsCommitted(w: World, e: Event)
    requires Inv(w) && CommittedLog(w.log)
    ensures CommittedLog(Next(w, e).log)
  {
    if e.Run? && e.client in w.clients {
      SnapshotCommits(w, e.client);
      if Apply(e.op, w.clients[e.client].job).Ok? {
        OperationsKeepCommitments(e.op, w.clients[e.client].job);
      }
      AttemptKeepsCommitted(w, e.client, Apply(e.op, w.clients[e.client].job));
    }
  }

  /** In every run each issued package moves the asset of the plan's action it names. */
  lemma {:induction false} PackagesAlwaysCommit(events: seq<Event>)
    ensures CommittedLog(After(EMPTY, events).log)
    ensures forall id :: id in After(EMPTY, events).store ==> IssuedCommit(After(EMPTY, events).store[id])
    decreases |events|
  {
    if events == [] {
    } else {
      PackagesAlwaysCommit(events[..|events| - 1]);
      EveryRun(events[..|events| - 1]);
      StepKeepsCommitted(After(EMPTY, events[..|events| - 1]), events[|events| - 1]);
    }
    EveryRun(events);
    var now := After(EMPTY, events);
    forall id | id in now.store ensures IssuedCommit(now.store[id]) {
      LatestCommits(now.log, now.log, id);
    }
  }

  // ----- the verifier's answers

  /** The chain a deployment watches and its policy, how texts name accounts and transactions, and
      which transactions carry out a package. */
  datatype Ledger = Ledger(
    history: Finality.History, block: Finality.BlockHash -> Finality.Block,
    transaction: Finality.TxHash -> Finality.Transaction, confirmations: nat, chainId: nat,
    matches: (Finality.Package, Finality.Transaction) -> bool,
    address: string -> Finality.Address, hash: string -> Finality.TxHash)

  /** Spelling an address or a hash in other case does not change what it names. */
  ghost predicate IgnoresCase(ledger: Ledger) {
    forall a, b :: SameText(a, b) ==> ledger.address(a) == ledger.address(b) && ledger.hash(a) == ledger.hash(b)
  }

  function PackageTransfer(ledger: Ledger, p: Package): Finality.Package {
    var contract, source, destination :=
      ledger.address(p.contractAddress), ledger.address(p.sourceAddress), ledger.address(p.destinationAddress);
    if p.route.ERC4494? then Finality.NftPackage(contract, p.quantity, source, destination)
    else Finality.TokenPackage(contract, p.quantity, source, destination)
  }

  ghost predicate Proven(ledger: Ledger, p: Finality.Package, tx: string) {
    exists t: nat :: Finality.Proven(ledger.history, ledger.block, p, ledger.hash(tx), t)
  }

  // What is said of a verification is said of the moments from `from` to `to` in which it read the chain.

  ghost predicate Passes(ledger: Ledger, v: Finality.ReceiptView, head: nat, block: nat) {
    Finality.CheckPasses(ledger.history, ledger.confirmations, head, block, v.blockNumber, v.blockHash)
  }

  /** A finality check of this receipt passes. */
  ghost predicate Checked(ledger: Ledger, tx: string, v: Finality.ReceiptView, from: nat, to: nat) {
    && Finality.TrueView(v, ledger.hash(tx), ledger.block)
    && exists head: nat, block: nat :: from <= head <= to && from <= block <= to && Passes(ledger, v, head, block)
  }

  /** The transaction failed, in a block that passed a check. */
  ghost predicate RevertedOnChain(ledger: Ledger, tx: string, from: nat, to: nat) {
    exists v :: Checked(ledger, tx, v, from, to) && !v.success
  }

  ghost predicate AbsentAt(ledger: Ledger, t: nat, tx: string) {
    Finality.NotIncluded(ledger.history(t), ledger.block, ledger.hash(tx))
  }

  /** The receipt was there. */
  ghost predicate SeenAt(ledger: Ledger, t: nat, tx: string, v: Finality.ReceiptView) {
    && Finality.TrueView(v, ledger.hash(tx), ledger.block)
    && Finality.CanonicalAt(ledger.history(t), v.blockNumber, v.blockHash)
  }

  ghost predicate Seen(ledger: Ledger, tx: string, v: Finality.ReceiptView, from: nat, to: nat) {
    exists t: nat :: from <= t <= to && SeenAt(ledger, t, tx, v)
  }

  ghost predicate FailsCheck(ledger: Ledger, v: Finality.ReceiptView, from: nat, to: nat) {
    exists head: nat, block: nat :: from <= head <= to && from <= block <= to && !Passes(ledger, v, head, block)
  }

  /** The transaction was missing when it was looked for, or its block failed a check. */
  ghost predicate PendingOnChain(ledger: Ledger, tx: string, from: nat, to: nat) {
    || (exists t: nat :: from <= t <= to && AbsentAt(ledger, t, tx))
    || (exists v :: Seen(ledger, tx, v, from, to) && FailsCheck(ledger, v, from, to))
  }

  ghost predicate UnsettledAt(ledger: Ledger, p: Finality.Package, n: nat, t: nat) {
    n < |ledger.history(t)| && !Finality.Settled(p, ledger.block(ledger.history(t)[n]))
  }

  /** The transaction succeeded, in a block that passed a check, but it is not the package's: it does
      not carry it out, does not emit its transfer, or did not leave the promised state when that was read. */
  ghost predicate RejectedOnChain(ledger: Ledger, p: Finality.Package, tx: string, from: nat, to: nat) {
    exists v ::
      && Checked(ledger, tx, v, from, to) && v.success
      && (|| !ledger.matches(p, ledger.transaction(ledger.hash(tx)))
          || !Finality.HoldsTransfer(p, v.logs)
          || exists t: nat :: from <= t <= to && UnsettledAt(ledger, p, v.blockNumber, t))
  }

  /** What an answer to a report says about the chain. */
  ghost predicate Answers(ledger: Ledger, j: Job, report: Report, answer: Result<Observation, VerifierError>, from: nat, to: nat) {
    var p := FindPackage(Issued(j), report.packageId);
    match answer
    case Ok(o) =>
      && p.Some? && |report.transactionHashes| == 1
      && o == Observation(COMPLETED, [p.value.actionId], [], report.transactionHashes)
      && Proven(ledger, PackageTransfer(ledger, p.value), report.transactionHashes[0])
    case Err(ReceiptPending) =>
      p.Some? && |report.transactionHashes| == 1 && PendingOnChain(ledger, report.transactionHashes[0], from, to)
    case Err(ReceiptReverted) =>
      p.Some? && |report.transactionHashes| == 1 && RevertedOnChain(ledger, report.transactionHashes[0], from, to)
    case Err(ReceiptRejected) =>
      && p.Some?
      && (|report.transactionHashes| == 1 ==>
            RejectedOnChain(ledger, PackageTransfer(ledger, p.value), report.transactionHashes[0], from, to))
    case Err(VerifierFailed) => true
  }

  /** The node reads the ledger's chain. */
  ghost predicate Watches(ledger: Ledger, node: Finality.Node) {
    && ledger.history == node.history && ledger.block == node.block && ledger.transaction == node.transaction
    && ledger.confirmations >= 1 && Finality.Legal(node.history, ledger.confirmations) && node.Ordered()
  }

  /** One of these reads failed, or found a receipt's block gone. */
  ghost predicate SomeReadFails(node: Finality.Node, ledger: Ledger, texts: seq<string>, first: nat, last: nat) {
    exists k :: first <= k < last && (node.fails(k) || (|texts| == 1 && BlockGone(node, ledger, texts[0], first, k)))
  }

  ghost predicate BlockGone(node: Finality.Node, ledger: Ledger, tx: string, first: nat, k: nat) {
    exists v :: Finality.SeenFirst(node, ledger.hash(tx), v, first) && node.Unread(k, v.blockNumber)
  }

  /** The verifier's answers, each as the chain has it; it gives none only for a package that was not
      issued, for another chain, or when a read fails. */
  method VerifyReport(node: Finality.Node, ledger: Ledger, j: Job, report: Report)
    returns (r: Result<Observation, VerifierError>)
    requires Watches(ledger, node)
    modifies node
    ensures node.calls >= old(node.calls)
    ensures Answers(ledger, j, report, r, node.readAt(old(node.calls)), node.readAt(node.calls))
    ensures r == Err(VerifierFailed) ==>
              || FindPackage(Issued(j), report.packageId).None? || report.chainId != ledger.chainId
              || SomeReadFails(node, ledger, report.transactionHashes, old(node.calls), node.calls)
    ensures FindPackage(Issued(j), report.packageId).None? || report.chainId != ledger.chainId ==> r == Err(VerifierFailed)
  {
    ghost var first := node.calls;
    var p := FindPackage(Issued(j), report.packageId);
    if p.None? || report.chainId != ledger.chainId {
      return Err(VerifierFailed);
    }
    var hashes := seq(|report.transactionHashes|, i requires 0 <= i < |report.transactionHashes| =>
                        ledger.hash(report.transactionHashes[i]));
    var verdict, trace := Finality.Verify(node, ledger.confirmations, PackageTransfer(ledger, p.value), hashes, ledger.matches);
    match verdict {
      case Completed => r := Ok(Observation(COMPLETED, [p.value.actionId], [], report.transactionHashes));
      case Pending => r := Err(ReceiptPending);
      case Reverted => r := Err(ReceiptReverted);
      case Rejected => r := Err(ReceiptRejected);
      case Unavailable => r := Err(VerifierFailed);
    }
    VerdictAnswers(node, ledger, PackageTransfer(ledger, p.value), report.transactionHashes, hashes, verdict, trace, first);
  }

  /** What a verdict means on the ledger. */
  lemma VerdictAnswers(node: Finality.Node, ledger: Ledger, p: Finality.Package, texts: seq<string>, hashes: seq<Finality.TxHash>,
                       verdict: Finality.Verdict, trace: Finality.Trace, first: nat)
    requires Watches(ledger, node) && |texts| == |hashes| && forall i :: 0 <= i < |texts| ==> hashes[i] == ledger.hash(texts[i])
    requires Finality.VerdictHolds(node, ledger.confirmations, p, hashes, ledger.matches, verdict, trace, first)
    requires first <= node.calls && Finality.Within(trace, first, node.calls)
    ensures verdict.Completed? ==> |texts| == 1 && Proven(ledger, p, texts[0])
    ensures verdict.Pending? ==> |texts| == 1 && PendingOnChain(ledger, texts[0], node.readAt(first), node.readAt(node.calls))
    ensures verdict.Reverted? ==> |texts| == 1 && RevertedOnChain(ledger, texts[0], node.readAt(first), node.readAt(node.calls))
    ensures verdict.Rejected? ==>
              |texts| != 1 || RejectedOnChain(ledger, p, texts[0], node.readAt(first), node.readAt(node.calls))
    ensures verdict.Unavailable? ==> SomeReadFails(node, ledger, texts, first, node.calls)
  {
    match verdict {
      case Completed =>
      case Pending => PendingAnswers(node, ledger, texts[0], trace, first);
      case Reverted => CheckedOnce(node, ledger, texts[0], trace, first);
      case Rejected =>
        if |texts| == 1 {
          CheckedOnce(node, ledger, texts[0], trace, first);
          RejectedAnswers(node, ledger, p, texts[0], trace, first);
        }
      case Unavailable =>
        var k :| first <= k < node.calls
                 && (node.fails(k) || (trace.receipt.Some? && node.Unread(k, trace.receipt.value.blockNumber)));
        assert !node.fails(k) ==> BlockGone(node, ledger, texts[0], first, k);
    }
  }

  lemma CheckedOnce(node: Finality.Node, ledger: Ledger, tx: string, trace: Finality.Trace, first: nat)
    requires Watches(ledger, node) && Finality.PassedOnce(node, ledger.confirmations, ledger.hash(tx), trace)
    requires Finality.Within(trace, first, node.calls)
    ensures Checked(ledger, tx, trace.receipt.value, node.readAt(first), node.readAt(node.calls))
  {
    var check := trace.checks[0];
    assert Finality.Passes(node, ledger.confirmations, trace.receipt.value, check);
    assert Passes(ledger, trace.receipt.value, node.readAt(check.0), node.readAt(check.1));
  }

  lemma PendingAnswers(node: Finality.Node, ledger: Ledger, tx: string, trace: Finality.Trace, first: nat)
    requires Watches(ledger, node) && first + 1 < node.calls && Finality.Within(trace, first, node.calls)
    requires if trace.receipt.None?
             then exists k :: first <= k <= first + 1 && Finality.NotIncluded(node.history(node.readAt(k)), node.block, ledger.hash(tx))
             else && trace.checks != [] && Finality.SeenFirst(node, ledger.hash(tx), trace.receipt.value, first)
                  && !Finality.Passes(node, ledger.confirmations, trace.receipt.value, trace.checks[|trace.checks| - 1])
    ensures PendingOnChain(ledger, tx, node.readAt(first), node.readAt(node.calls))
  {
    if trace.receipt.None? {
      var k :| first <= k <= first + 1 && Finality.NotIncluded(node.history(node.readAt(k)), node.block, ledger.hash(tx));
      assert AbsentAt(ledger, node.readAt(k), tx);
    } else {
      var check, v := trace.checks[|trace.checks| - 1], trace.receipt.value;
      assert !Passes(ledger, v, node.readAt(check.0), node.readAt(check.1));
      var k := if Finality.Seen(node, ledger.hash(tx), v, first) then first else first + 1;
      assert SeenAt(ledger, node.readAt(k), tx, v);
      assert Seen(ledger, tx, v, node.readAt(first), node.readAt(node.calls));
      assert FailsCheck(ledger, v, node.readAt(first), node.readAt(node.calls));
    }
  }

  lemma RejectedAnswers(node: Finality.Node, ledger: Ledger, p: Finality.Package, tx: string, trace: Finality.Trace, first: nat)
    requires Watches(ledger, node) && Finality.Within(trace, first, node.calls) && trace.receipt.Some? && trace.receipt.value.success
    requires Checked(ledger, tx, trace.receipt.value, node.readAt(first), node.readAt(node.calls))
    requires || !ledger.matches(p, node.transaction(ledger.hash(tx)))
             || !Finality.HoldsTransfer(p, trace.receipt.value.logs) || Finality.NotSettled(node, p, trace)
    ensures RejectedOnChain(ledger, p, tx, node.readAt(first), node.readAt(node.calls))
  {
    if Finality.NotSettled(node, p, trace) {
      assert UnsettledAt(ledger, p, trace.receipt.value.blockNumber, node.readAt(trace.state.value));
    }
  }

  /** Every verified answer of the run is one of the verifier's. */
  ghost predicate Verifies(ledger: Ledger, w: World, e: Event) {
    e.Run? && e.op.OpRecordReport? && e.op.verified.Ok? && e.client in w.clients ==>
      exists from: nat, to: nat :: Answers(ledger, w.clients[e.client].job, e.op.buyerReport, e.op.verified, from, to)
  }

  ghost predicate VerifiedRun(ledger: Ledger, events: seq<Event>) {
    forall k :: 0 <= k < |events| ==> Verifies(ledger, After(EMPTY, events[..k]), events[k])
  }

  // ----- what a completed action has done

  /** The transfer an action of the plan asks for. */
  function Transfer(ledger: Ledger, p: RescueActions.Plan, a: RescueAction): Option<Finality.Package> {
    var source, destination := ledger.address(p.sourceAddress), ledger.address(p.destinationAddress);
    match a.parameters
    case TransferErc20(token, _, amount) => Some(Finality.TokenPackage(ledger.address(token), amount, source, destination))
    case TransferErc721(collection, _, tokenId) => Some(Finality.NftPackage(ledger.address(collection), tokenId, source, destination))
    case _ => None
  }

  /** The action's transfer is in a successful transaction of a block that stays canonical. */
  ghost predicate Rescued(ledger: Ledger, p: RescueActions.Plan, a: RescueAction) {
    && Transfer(ledger, p, a).Some?
    && exists tx :: Proven(ledger, Transfer(ledger, p, a).value, tx)
  }

  lemma CommittedIsTheTransfer(ledger: Ledger, p: RescueActions.Plan, package: Package, a: RescueAction)
    requires IgnoresCase(ledger) && DistinctIds(p.actions) && CommitsTo(p, package)
    requires a in p.actions && a.id == package.actionId
    ensures Transfer(ledger, p, a) == Some(PackageTransfer(ledger, package))
  {
    var b :| b in p.actions && b.id == package.actionId && CommitsAsset(package, b);
    SameIdSameAction(p.actions, a, b);
  }

  lemma VerifiedSaveRescues(ledger: Ledger, w: World, client: nat, op: Op, j: Job, a: RescueAction)
    requires IgnoresCase(ledger) && Inv(w) && CommittedLog(w.log)
    requires VerifiedSave(w, client, op, j, a.id) && Verifies(ledger, w, Run(client, op))
    requires j.plan.Some? && DistinctIds(j.plan.value.plan.actions) && a in j.plan.value.plan.actions
    ensures Rescued(ledger, j.plan.value.plan, a)
  {
    var loaded := w.clients[client].job;
    SnapshotCommits(w, client);
    var p := FindPackage(Issued(loaded), op.buyerReport.packageId).value;
    assert p.actionId == a.id;
    CommittedIsTheTransfer(ledger, j.plan.value.plan, p, a);
    assert Proven(ledger, Transfer(ledger, j.plan.value.plan, a).value, op.buyerReport.transactionHashes[0]);
  }

  /** In every run of the live deployment with this verifier, each completed action of a job is a
      transfer that has happened for good; for a COMPLETED job that is every action of its plan. */
  lemma CompletedActionsAreRescued(ledger: Ledger, events: seq<Event>, id: string, a: RescueAction)
    requires JobOutcomes.LiveRun(EMPTY, events) && VerifiedRun(ledger, events) && IgnoresCase(ledger)
    requires id in After(EMPTY, events).store
    requires var j := After(EMPTY, events).store[id];
             j.plan.Some? && a in j.plan.value.plan.actions && (a.id in CompletedIds(j) || j.status.COMPLETED?)
    ensures Rescued(ledger, After(EMPTY, events).store[id].plan.value.plan, a)
  {
    var j := After(EMPTY, events).store[id];
    EveryRun(events);
    JobOutcomes.FinishedJobsTellTheTruth(events, id);
    CompletedActionsWereVerified(events, id);
    assert WasVerified(events, j, a.id);
    var k: nat :| VerifiedAt(events, k, j, a.id);
    var w := After(EMPTY, events[..k]);
    EveryRun(events[..k]);
    PackagesAlwaysCommit(events[..k]);
    assert Verifies(ledger, w, events[k]);
    VerifiedSaveRescues(ledger, w, events[k].client, events[k].op, j, a);
  }
}
