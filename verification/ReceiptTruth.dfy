/** What the status of a receipt says about the chain: jobs whose receipts are marked as the verifier
    of buyer reports answers (packages/agent-service/src/service.ts:494-533, 622-659). */
module ReceiptTruth {
  import opened Basics
  import opened Jobs
  import opened JobOperations
  import opened JobHistory
  import opened JobStore
  import opened JobRuns
  import opened JobSettlement
  import JobOutcomes
  import AgentService
  import Simulator
  import Finality

  // ----- what the status of a receipt says

  ghost predicate Reverted(ledger: Ledger, tx: string) {
    exists from: nat, to: nat :: RevertedOnChain(ledger, tx, from, to)
  }

  ghost predicate Rejected(ledger: Ledger, packageId: string, tx: string) {
    exists p: Package, from: nat, to: nat :: p.packageId == packageId && RejectedOnChain(ledger, PackageTransfer(ledger, p), tx, from, to)
  }

  /** The transaction has made the transfer of some package, for good. */
  ghost predicate Delivered(ledger: Ledger, tx: string) {
    exists p: Package :: Proven(ledger, PackageTransfer(ledger, p), tx)
  }

  /** What a submission's status says about the chain. */
  ghost predicate StatusTrue(ledger: Ledger, s: Submission) {
    match s.status
    case PENDING => true
    case CONFIRMED => Delivered(ledger, s.transactionHash)
    case REVERTED => Reverted(ledger, s.transactionHash)
    case REJECTED => Rejected(ledger, s.packageId, s.transactionHash)
  }

  /** Every receipt's status is true, and every hash the job counts has delivered. */
  ghost predicate ReceiptsTrue(ledger: Ledger, j: Job) {
    && (forall i :: 0 <= i < |Submissions(j)| ==> StatusTrue(ledger, Submissions(j)[i]))
    && (forall h :: h in Hashes(j) ==> Delivered(ledger, h))
  }

  /** Each receipt is marked as reverted or rejected only after the verifier has said so. */
  ghost predicate MarksTruly(ledger: Ledger, op: Op) {
    op.OpSetReceiptStatus? ==>
      match op.receiptStatus
      case PENDING => false
      case CONFIRMED => false
      case REVERTED => Reverted(ledger, op.hash)
      case REJECTED => Rejected(ledger, op.packageId, op.hash)
  }

  /** An answer of the verifier to a report on one hash is enough to mark it. */
  lemma AnswerMarksTruly(ledger: Ledger, j: Job, report: Report, error: VerifierError, hash: string, from: nat, to: nat)
    requires Answers(ledger, j, report, Err(error), from, to) && report.transactionHashes == [hash]
    ensures error.ReceiptReverted? ==> MarksTruly(ledger, OpSetReceiptStatus(report.packageId, hash, SubmissionStatus.REVERTED))
    ensures error.ReceiptRejected? ==> MarksTruly(ledger, OpSetReceiptStatus(report.packageId, hash, REJECTED))
  {
    if error.ReceiptRejected? {
      var p := FindPackage(Issued(j), report.packageId).value;
      assert p.packageId == report.packageId && RejectedOnChain(ledger, PackageTransfer(ledger, p), hash, from, to);
    }
  }

  // The same transaction in other spelling.

  lemma DeliveredIgnoresCase(ledger: Ledger, h: string, hash: string)
    requires IgnoresCase(ledger) && SameText(h, hash) && Delivered(ledger, hash)
    ensures Delivered(ledger, h)
  {
    var p: Package :| Proven(ledger, PackageTransfer(ledger, p), hash);
    assert Proven(ledger, PackageTransfer(ledger, p), h);
  }

  lemma RevertedIgnoresCase(ledger: Ledger, h: string, hash: string)
    requires IgnoresCase(ledger) && SameText(h, hash) && Reverted(ledger, hash)
    ensures Reverted(ledger, h)
  {
    var from: nat, to: nat :| RevertedOnChain(ledger, hash, from, to);
    var v :| Checked(ledger, hash, v, from, to) && !v.success;
    assert Checked(ledger, h, v, from, to);
    assert RevertedOnChain(ledger, h, from, to);
  }

  lemma RejectedIgnoresCase(ledger: Ledger, packageId: string, h: string, hash: string)
    requires IgnoresCase(ledger) && SameText(h, hash) && Rejected(ledger, packageId, hash)
    ensures Rejected(ledger, packageId, h)
  {
    var p: Package, from: nat, to: nat :| p.packageId == packageId && RejectedOnChain(ledger, PackageTransfer(ledger, p), hash, from, to);
    var transfer := PackageTransfer(ledger, p);
    var v :| && Checked(ledger, hash, v, from, to) && v.success
             && (|| !ledger.matches(transfer, ledger.transaction(ledger.hash(hash)))
                 || !Finality.HoldsTransfer(transfer, v.logs)
                 || exists t: nat :: from <= t <= to && UnsettledAt(ledger, transfer, v.blockNumber, t));
    assert Checked(ledger, h, v, from, to);
    assert RejectedOnChain(ledger, transfer, h, from, to);
  }

  /** When the verifier's answers to the report the service writes for a receipt are those of the
      chain, the status reconciliation settles on is true. */
  lemma SettledStatusIsTrue(ledger: Ledger, j: Job, packageId: string, hash: string, status: SubmissionStatus,
                            verified: nat -> Result<Observation, VerifierError>, settled: Job)
    requires var report := AgentService.ReportForSubmission(j, packageId, hash);
             && report.Some?
             && forall n :: exists loaded: Job, from: nat, to: nat :: Answers(ledger, loaded, report.value, verified(n), from, to)
    requires AgentService.AsAnswered(status, verified, settled) && !IsTerminal(settled.status)
    ensures StatusTrue(ledger, Submission(packageId, hash, status))
  {
    var report := AgentService.ReportForSubmission(j, packageId, hash).value;
    match status {
      case PENDING =>
      case CONFIRMED =>
        var n :| verified(n).Ok?;
        var loaded: Job, from: nat, to: nat :| Answers(ledger, loaded, report, verified(n), from, to);
        var p := FindPackage(Issued(loaded), report.packageId).value;
        assert Proven(ledger, PackageTransfer(ledger, p), hash);
      case REVERTED =>
        var n :| verified(n) == Err(ReceiptReverted);
        var loaded: Job, from: nat, to: nat :| Answers(ledger, loaded, report, verified(n), from, to);
        AnswerMarksTruly(ledger, loaded, report, ReceiptReverted, hash, from, to);
      case REJECTED =>
        var n :| verified(n) == Err(ReceiptRejected);
        var loaded: Job, from: nat, to: nat :| Answers(ledger, loaded, report, verified(n), from, to);
        AnswerMarksTruly(ledger, loaded, report, ReceiptRejected, hash, from, to);
    }
  }

  // ----- one operation

  /** The operation is one of the live deployment, with this verifier. */
  ghost predicate LiveOp(ledger: Ledger, op: Op, j: Job) {
    && JobOutcomes.Live(op, j) && MarksTruly(ledger, op)
    && (op.OpRecordReport? && op.verified.Ok? ==>
          exists from: nat, to: nat :: Answers(ledger, j, op.buyerReport, op.verified, from, to))
  }

  ghost predicate TruthKept(ledger: Ledger, c: Computed) {
    c.Ok? ==> ReceiptsTrue(ledger, c.value.job)
  }

  /** Neither the receipts nor the hashes change. */
  ghost predicate KeepsReceipts(j: Job, c: Computed) {
    c.Ok? ==> Submissions(c.value.job) == Submissions(j) && (Hashes(c.value.job) == Hashes(j) || Hashes(c.value.job) == [])
  }

  lemma EarlyKeepsReceipts(op: Op, j: Job)
    requires op.OpStartAnalysis? || op.OpRecordScan?
    ensures KeepsReceipts(j, Apply(op, j))
  {}

  lemma PlanningKeepsReceipts(j: Job, sealed: Simulator.SealedPlan)
    ensures KeepsReceipts(j, RecordPlan(j, sealed))
  {}

  lemma SimulationKeepsReceipts(j: Job, report: SimulationReport)
    ensures KeepsReceipts(j, RecordSimulation(j, report))
  {}

  lemma LateKeepsReceipts(op: Op, j: Job)
    requires op.OpResimulate? || op.OpIssuePackages? || op.OpSetDashboard? || op.OpFail?
    ensures KeepsReceipts(j, Apply(op, j))
  {}

  lemma ObserveKeepsReceipts(j: Job)
    ensures KeepsReceipts(j, Observe(j, JobOutcomes.REVIEW_ONLY))
  {}

  lemma RegisteringKeepsTruth(ledger: Ledger, j: Job, packageId: string, hash: string)
    requires ReceiptsTrue(ledger, j)
    ensures TruthKept(ledger, RegisterReceipt(j, packageId, hash))
  {}

  lemma MarkingKeepsTruth(ledger: Ledger, j: Job, packageId: string, hash: string, status: SubmissionStatus)
    requires IgnoresCase(ledger) && ReceiptsTrue(ledger, j) && MarksTruly(ledger, OpSetReceiptStatus(packageId, hash, status))
    ensures TruthKept(ledger, SetReceiptStatus(j, packageId, hash, status))
  {
    var marked := WithStatus(Submissions(j), packageId, hash, status);
    forall i | 0 <= i < |marked| ensures StatusTrue(ledger, marked[i]) {
      var s := Submissions(j)[i];
      assert StatusTrue(ledger, s);
      if s.packageId == packageId && SameText(s.transactionHash, hash) {
        if status.REVERTED? {
          RevertedIgnoresCase(ledger, s.transactionHash, hash);
        } else {
          RejectedIgnoresCase(ledger, packageId, s.transactionHash, hash);
        }
      }
    }
  }

  /** Confirming delivered hashes confirms nothing else. */
  lemma ConfirmingKeepsTruth(ledger: Ledger, j: Job, packageId: string, hashes: seq<string>)
    requires IgnoresCase(ledger) && ReceiptsTrue(ledger, j)
    requires forall h :: Lower(h) in LowerSet(hashes) ==> Delivered(ledger, h)
    ensures var confirmed := Confirm(Submissions(j), packageId, LowerSet(hashes));
            forall i :: 0 <= i < |confirmed| ==> StatusTrue(ledger, confirmed[i])
  {
    var confirmed := Confirm(Submissions(j), packageId, LowerSet(hashes));
    forall i | 0 <= i < |confirmed| ensures StatusTrue(ledger, confirmed[i]) {
      assert StatusTrue(ledger, Submissions(j)[i]);
    }
  }

  lemma LowerMember(hashes: seq<string>, h: string) returns (g: string)
    requires Lower(h) in LowerSet(hashes)
    ensures g in hashes && SameText(g, h)
  {
    g :| g in hashes && Lower(g) == Lower(h);
  }

  lemma RetryKeepsTruth(ledger: Ledger, j: Job, report: Report)
    requires IgnoresCase(ledger) && ReceiptsTrue(ledger, j)
    ensures TruthKept(ledger, RetryReport(j, report))
  {
    if RetryReport(j, report).Ok? {
      forall h | Lower(h) in LowerSet(report.transactionHashes) ensures Delivered(ledger, h) {
        var g := LowerMember(Hashes(j), h);
        DeliveredIgnoresCase(ledger, h, g);
      }
      ConfirmingKeepsTruth(ledger, j, report.packageId, report.transactionHashes);
    }
  }

  lemma VerifiedDelivers(ledger: Ledger, j: Job, report: Report, o: Observation, h: string)
    requires IgnoresCase(ledger) && ReceiptsTrue(ledger, j)
    requires exists from: nat, to: nat :: Answers(ledger, j, report, Ok(o), from, to)
    requires Lower(h) in LowerSet(Hashes(j) + o.transactionHashes)
    ensures Delivered(ledger, h)
  {
    var g := LowerMember(Hashes(j) + o.transactionHashes, h);
    if g !in Hashes(j) {
      var p := FindPackage(Issued(j), report.packageId).value;
      assert Proven(ledger, PackageTransfer(ledger, p), g);
    }
    DeliveredIgnoresCase(ledger, h, g);
  }

  lemma VerifiedKeepsTruth(ledger: Ledger, j: Job, report: Report, o: Observation)
    requires IgnoresCase(ledger) && ReceiptsTrue(ledger, j) && j.plan.Some?
    requires exists from: nat, to: nat :: Answers(ledger, j, report, Ok(o), from, to)
    ensures TruthKept(ledger, RecordVerified(j, report, o))
  {
    PhaseIsReachable(j, Union(CompletedIds(j), o.completedActionIds));
    if RecordVerified(j, report, o).Ok? {
      var next := RecordVerified(j, report, o).value.job;
      JobOutcomes.AdvanceChanges(j, Merged(j, o), ConfirmedReceipts(j, report.packageId, report.transactionHashes));
      forall h | h in Hashes(next) ensures Delivered(ledger, h) {
        assert Lower(h) in LowerSet(DedupHashes(Hashes(j) + o.transactionHashes));
        VerifiedDelivers(ledger, j, report, o, h);
      }
      forall h | Lower(h) in LowerSet(report.transactionHashes) ensures Delivered(ledger, h) {
        assert Lower(h) in LowerSet(Hashes(j) + o.transactionHashes);
        VerifiedDelivers(ledger, j, report, o, h);
      }
      ConfirmingKeepsTruth(ledger, j, report.packageId, report.transactionHashes);
    }
  }

  lemma ReportKeepsTruth(ledger: Ledger, j: Job, report: Report, verified: Result<Observation, VerifierError>)
    requires IgnoresCase(ledger) && ReceiptsTrue(ledger, j) && LiveOp(ledger, OpRecordReport(report, verified), j)
    ensures TruthKept(ledger, RecordReport(j, report, verified))
  {
    RetryKeepsTruth(ledger, j, report);
    if j.plan.Some? && verified.Ok? {
      VerifiedKeepsTruth(ledger, j, report, verified.value);
    }
  }

  lemma OperationsKeepTruth(ledger: Ledger, op: Op, j: Job)
    requires IgnoresCase(ledger) && ReceiptsTrue(ledger, j) && LiveOp(ledger, op, j)
    ensures TruthKept(ledger, Apply(op, j))
  {
    match op {
      case OpRecordReport(report, verified) => ReportKeepsTruth(ledger, j, report, verified);
      case OpRegisterReceipt(packageId, hash) => RegisteringKeepsTruth(ledger, j, packageId, hash);
      case OpSetReceiptStatus(packageId, hash, status) => MarkingKeepsTruth(ledger, j, packageId, hash, status);
      case OpObserve(o) => ObserveKeepsReceipts(j);
      case OpStartAnalysis(_) => EarlyKeepsReceipts(op, j);
      case OpRecordScan(_) => EarlyKeepsReceipts(op, j);
      case OpRecordPlan(sealed) => PlanningKeepsReceipts(j, sealed);
      case OpRecordSimulation(report) => SimulationKeepsReceipts(j, report);
      case _ => LateKeepsReceipts(op, j);
    }
  }

  // ----- every run

  ghost predicate TruthLog(ledger: Ledger, log: Log) {
    log.Then? ==> ReceiptsTrue(ledger, log.commit.job) && TruthLog(ledger, log.before)
  }

  lemma {:induction false} LatestIsTrue(ledger: Ledger, a: Log, b: Log, id: string)
    requires IsPrefix(a, b) && TruthLog(ledger, b) && Latest(a, id).Some?
    ensures ReceiptsTrue(ledger, Latest(a, id).value)
    decreases b, a
  {
    if a != b {
      LatestIsTrue(ledger, a, b.before, id);
    } else if a.commit.job.id != id {
      LatestIsTrue(ledger, a.before, a.before, id);
    }
  }

  ghost predicate LiveAt(ledger: Ledger, w: World, e: Event) {
    e.Run? && e.client in w.clients ==> LiveOp(ledger, e.op, w.clients[e.client].job)
  }

  ghost predicate LiveRunOn(ledger: Ledger, events: seq<Event>) {
    forall k :: 0 <= k < |events| ==> LiveAt(ledger, After(EMPTY, events[..k]), events[k])
  }

  lemma AttemptKeepsTruthLog(ledger: Ledger, w: World, client: nat, c: Computed)
    requires TruthLog(ledger, w.log) && TruthKept(ledger, c)
    ensures TruthLog(ledger, Attempt(w, client, c).log)
  {}

  lemma StepKeepsTruthLog(ledger: Ledger, w: World, e: Event)
    requires IgnoresCase(ledger) && Inv(w) && TruthLog(ledger, w.log) && LiveAt(ledger, w, e)
    ensures TruthLog(ledger, Next(w, e).log)
  {
    if e.Run? && e.client in w.clients {
      var s := w.clients[e.client];
      assert SnapshotOk(w, e.client);
      LatestIsTrue(ledger, s.since, w.log, s.job.id);
      OperationsKeepTruth(ledger, e.op, s.job);
      AttemptKeepsTruthLog(ledger, w, e.client, Apply(e.op, s.job));
    }
  }

  lemma {:induction false} RunKeepsTruth(ledger: Ledger, events: seq<Event>)
    requires IgnoresCase(ledger) && LiveRunOn(ledger, events)
    ensures TruthLog(ledger, After(EMPTY, events).log)
    decreases |events|
  {
    if events == [] {
    } else {
      var init := events[..|events| - 1];
      assert forall k :: 0 <= k < |init| ==> init[..k] == events[..k] && init[k] == events[k];
      RunKeepsTruth(ledger, init);
      EveryRun(init);
      assert LiveAt(ledger, After(EMPTY, init), events[|events| - 1]);
      StepKeepsTruthLog(ledger, After(EMPTY, init), events[|events| - 1]);
    }
  }

  /** In every run of the live deployment with this verifier the status of every receipt is true: a
      confirmed one has delivered for good, a reverted one failed in a block that passed a check, and
      a rejected one succeeded there without being its package's. */
  lemma ReceiptsAlwaysTrue(ledger: Ledger, events: seq<Event>, id: string)
    requires IgnoresCase(ledger) && LiveRunOn(ledger, events) && id in After(EMPTY, events).store
    ensures ReceiptsTrue(ledger, After(EMPTY, events).store[id])
  {
    RunKeepsTruth(ledger, events);
    EveryRun(events);
    var now := After(EMPTY, events);
    LatestIsTrue(ledger, now.log, now.log, id);
  }
}
