/** Verified buyer reports may arrive in any order and any number of times
    (packages/agent-service/src/service.ts:362-445, 539-588). */
module BuyerReports {
  import opened Basics
  import opened RescueActions
  import opened Jobs
  import opened JobOperations
  import JobHistory

  // ----- advancing succeeds

  function Extend(h: seq<Transition>, from: Status, to: Status, reason: Reason): seq<Transition> {
    h + [Transition(|h|, Some(from), to, reason)]
  }

  /** The history once execution has been observed. */
  function UntilExecuting(h: seq<Transition>, status: Status): seq<Transition> {
    match status
    case WAITING_FOR_USER => Extend(Extend(h, WAITING_FOR_USER, SIGNING, SIGNING_OBSERVED), SIGNING, EXECUTING, EXECUTION_OBSERVED)
    case SIGNING => Extend(h, SIGNING, EXECUTING, EXECUTION_OBSERVED)
    case _ => h
  }

  function HistoryAt(h: seq<Transition>, status: Status, phase: Status): seq<Transition> {
    if IsTerminal(phase) then Extend(UntilExecuting(h, status), EXECUTING, phase, TerminalReason(phase))
    else UntilExecuting(h, status)
  }

  lemma TransitionSucceeds(j: Job, to: Status, reason: Reason, patched: Job)
    requires Valid(j) && AwaitsBuyer(j.status) && CanTransition(j.status, to) && !to.FAILED?
    requires Valid(patched.(status := j.status, history := j.history, revision := j.revision, error := None))
    requires patched.error.None?
    ensures TransitionJob(j, to, reason, patched)
         == Ok(patched.(status := to, history := Extend(j.history, j.status, to, reason), revision := j.revision + 1))
  {
    var next := patched.(status := to, history := Extend(j.history, j.status, to, reason), revision := j.revision + 1);
    ExtendValid(j.history, j.status, to, reason);
    assert Issued(next) == Issued(patched);
  }

  lemma {:induction false} ExtendValid(h: seq<Transition>, status: Status, to: Status, reason: Reason)
    requires HistoryValid(h, status)
    ensures HistoryValid(Extend(h, status, to, reason), to)
  {
    var next := Extend(h, status, to, reason);
    forall i | 0 <= i < |next| ensures Continues(next, i) {
      if i < |h| {
        assert Continues(h, i);
      }
    }
  }

  /** Receipts that differ from the job's own only in their status. */
  ghost predicate SameReceipts(j: Job, receipts: Option<seq<Submission>>) {
    receipts.Some? ==>
      && j.receiptSubmissions.Some? && |receipts.value| == |Submissions(j)|
      && forall i :: 0 <= i < |receipts.value| ==>
           && receipts.value[i].packageId == Submissions(j)[i].packageId
           && receipts.value[i].transactionHash == Submissions(j)[i].transactionHash
  }

  lemma {:induction false} ReceiptsStayValid(j: Job, receipts: seq<Submission>)
    requires Valid(j) && SameReceipts(j, Some(receipts))
    ensures Valid(j.(receiptSubmissions := Some(receipts)))
  {}

  lemma {:induction false} PatchStaysValid(j: Job, o: Observation, receipts: Option<seq<Submission>>)
    requires Valid(j) && SameReceipts(j, receipts)
    ensures Valid(Patch(j, o, receipts))
  {}

  lemma {:induction false} ConfirmedAreSame(j: Job, packageId: string, hashes: seq<string>)
    ensures SameReceipts(j, ConfirmedReceipts(j, packageId, hashes))
  {}

  function Moved(j: Job, status: Status, history: seq<Transition>, revision: int): Job {
    j.(status := status, history := history, revision := revision)
  }

  lemma ReachesExecution(j: Job)
    requires Valid(j) && AwaitsBuyer(j.status)
    ensures TowardsExecution(j).Ok?
    ensures var executing := TowardsExecution(j).value;
            Valid(executing) && executing == Moved(j, EXECUTING, UntilExecuting(j.history, j.status), executing.revision)
  {
    var signing := j;
    if j.status.WAITING_FOR_USER? {
      TransitionSucceeds(j, SIGNING, SIGNING_OBSERVED, j);
      signing := TransitionJob(j, SIGNING, SIGNING_OBSERVED, j).value;
    }
    if signing.status.SIGNING? {
      TransitionSucceeds(signing, EXECUTING, EXECUTION_OBSERVED, signing);
    }
  }

  lemma {:induction false} FinishSucceeds(j: Job, o: Observation, receipts: Option<seq<Submission>>, expected: int)
    requires Valid(j) && j.status.EXECUTING? && SameReceipts(j, receipts)
    requires o.phase.COMPLETED? || o.phase.PARTIAL?
    ensures var done := Moved(Patch(j, o, receipts), o.phase, Extend(j.history, EXECUTING, o.phase, TerminalReason(o.phase)),
                              j.revision + 1);
            Finish(j, o, receipts, expected) == Ok(Save(done, expected)) && Valid(done)
  {
    PatchStaysValid(j, o, receipts);
    TransitionSucceeds(j, o.phase, TerminalReason(o.phase), Patch(j, o, receipts));
  }

  lemma {:induction false} ArriveSucceeds(j: Job, o: Observation, receipts: Option<seq<Submission>>, expected: int)
    requires Valid(j) && j.status == o.phase && SameReceipts(j, receipts)
    ensures var next := Patch(j, o, receipts).(revision := j.revision + 1);
            Arrive(j, o, receipts, expected) == Ok(Save(next, expected)) && Valid(next)
  {}

  /** Advancing to execution or to a successful end always succeeds, and this is the result. */
  lemma {:induction false} AdvanceSucceeds(j: Job, o: Observation, receipts: Option<seq<Submission>>)
    requires Valid(j) && AwaitsBuyer(j.status) && SameReceipts(j, receipts)
    requires o.phase.EXECUTING? || o.phase.COMPLETED? || o.phase.PARTIAL?
    ensures var c := AdvanceToObservation(j, o, receipts);
            && c.Ok? && c.value.Save? && Valid(c.value.job)
            && c.value.job == Moved(Patch(j, o, receipts), o.phase, HistoryAt(j.history, j.status, o.phase), c.value.job.revision)
  {
    ReachesExecution(j);
    var executing := TowardsExecution(j).value;
    if o.phase.EXECUTING? {
      ArriveSucceeds(executing, o, receipts, j.revision);
    } else {
      FinishSucceeds(executing, o, receipts, j.revision);
    }
  }

  // ----- one verified report per package

  datatype VerifiedReport = VerifiedReport(report: Report, observation: Observation)

  /** The verifier confirmed the report of this package: its action, and the reported transactions. */
  ghost predicate Confirms(j: Job, v: VerifiedReport, p: Package) {
    && j.plan.Some? && ReportedPackage(j, v.report) == Some(p)
    && v.observation.phase.COMPLETED? && v.observation.completedActionIds == [p.actionId]
    && v.observation.failedActionIds == [] && v.observation.transactionHashes == v.report.transactionHashes
    && ObservationMatches(j.plan.value.plan, v.observation)
  }

  /** One verified report for each package, none of which has been reported before. */
  ghost predicate ReportsOf(j: Job, vs: seq<VerifiedReport>) {
    && |vs| == |Issued(j)|
    && (forall i :: 0 <= i < |vs| ==> Confirms(j, vs[i], Issued(j)[i]))
    && (forall i :: 0 <= i < |vs| ==> Issued(j)[i].actionId !in CompletedIds(j))
  }

  ghost predicate Reportable(j: Job, vs: seq<VerifiedReport>) {
    Valid(j) && AwaitsBuyer(j.status) && Issued(j) != [] && ReportsOf(j, vs)
  }

  ghost predicate IndexesOf(vs: seq<VerifiedReport>, s: set<nat>) {
    forall i :: i in s ==> i < |vs|
  }

  ghost predicate AllReported(vs: seq<VerifiedReport>, s: set<nat>) {
    forall i :: 0 <= i < |vs| ==> i in s
  }

  ghost function ReportedIds(j: Job, s: set<nat>): set<string> {
    set i | i in s && i < |Issued(j)| :: Issued(j)[i].actionId
  }

  ghost function ReportedHashes(vs: seq<VerifiedReport>, s: set<nat>): set<string> {
    set i, h | i in s && i < |vs| && h in vs[i].report.transactionHashes :: Lower(h)
  }

  /** Where the job is when the packages in `s` have been reported. */
  ghost function PhaseOf(j: Job, vs: seq<VerifiedReport>, s: set<nat>): Status {
    if !AllReported(vs, s) then EXECUTING
    else if Uncovered(j) || HasExcluded(j) then Status.PARTIAL
    else COMPLETED
  }

  /** What a report looks like to a job that other reports may have changed. */
  ghost predicate SameIssue(j: Job, now: Job) {
    && now.id == j.id && now.plan == j.plan && now.simulation == j.simulation
    && now.signingPackage == j.signingPackage && now.signingPackages == j.signingPackages
  }

  ghost predicate SetsReached(j: Job, vs: seq<VerifiedReport>, s: set<nat>, completed: set<string>, failed: set<string>, hashes: set<string>) {
    && completed == ToSet(CompletedIds(j)) + ReportedIds(j, s)
    && failed == (if s == {} then ToSet(FailedIds(j)) else ToSet(FailedIds(j)) - completed)
    && hashes == LowerSet(Hashes(j)) + ReportedHashes(vs, s)
  }

  ghost predicate MonitorReached(j: Job, vs: seq<VerifiedReport>, s: set<nat>, now: Job) {
    SetsReached(j, vs, s, ToSet(CompletedIds(now)), ToSet(FailedIds(now)), LowerSet(Hashes(now)))
  }

  /** What the order and the repetitions of the reports cannot change. */
  ghost predicate Reached(j: Job, vs: seq<VerifiedReport>, s: set<nat>, now: Job) {
    && Valid(now) && SameIssue(j, now) && MonitorReached(j, vs, s, now)
    && (s == {} ==> now.status == j.status && now.history == j.history)
    && (s != {} ==> now.status == PhaseOf(j, vs, s) && now.history == HistoryAt(j.history, j.status, PhaseOf(j, vs, s)))
  }

  predicate InRange(order: seq<nat>, n: nat) {
    forall k :: 0 <= k < |order| ==> order[k] < n
  }

  function Handle(before: Result<Job, ServiceError>, v: VerifiedReport): Result<Job, ServiceError> {
    match before
    case Err(e) => Err(e)
    case Ok(j) =>
      match RecordReport(j, v.report, Ok(v.observation))
      case Err(e) => Err(e)
      case Ok(step) => Ok(step.job)
  }

  /** Handles the reports named by `order`, one after the other. */
  function Process(j: Job, vs: seq<VerifiedReport>, order: seq<nat>): Result<Job, ServiceError>
    requires InRange(order, |vs|)
    decreases |order|
  {
    if order == [] then Ok(j) else Handle(Process(j, vs, order[..|order| - 1]), vs[order[|order| - 1]])
  }

  ghost predicate ActionsDistinct(packages: seq<Package>) {
    forall i, k :: 0 <= i < k < |packages| ==> packages[i].actionId != packages[k].actionId
  }

  lemma PackagesDistinct(j: Job)
    requires Valid(j)
    ensures ActionsDistinct(Issued(j))
  {}

  lemma ReportedIdsStep(j: Job, s: set<nat>, i: nat)
    requires i < |Issued(j)|
    ensures ReportedIds(j, s + {i}) == ReportedIds(j, s) + {Issued(j)[i].actionId}
  {}

  lemma {:induction false} ReportedHashesStep(vs: seq<VerifiedReport>, s: set<nat>, i: nat)
    requires i < |vs|
    ensures ReportedHashes(vs, s + {i}) == ReportedHashes(vs, s) + LowerSet(vs[i].report.transactionHashes)
  {}

  /** All packages are completed exactly when all of them have been reported. */
  lemma {:induction false} CompletedIffReported(j: Job, vs: seq<VerifiedReport>, s: set<nat>, completed: seq<string>)
    requires ReportsOf(j, vs) && ActionsDistinct(Issued(j)) && IndexesOf(vs, s)
    requires ToSet(completed) == ToSet(CompletedIds(j)) + ReportedIds(j, s)
    ensures AllIssuedIn(j, completed) <==> AllReported(vs, s)
  {
    forall i | 0 <= i < |vs| ensures Issued(j)[i].actionId in completed <==> i in s {
      assert Issued(j)[i].actionId in completed <==> Issued(j)[i].actionId in ToSet(completed);
      if Issued(j)[i].actionId in ReportedIds(j, s) {
        var k :| k in s && k < |Issued(j)| && Issued(j)[k].actionId == Issued(j)[i].actionId;
        assert k == i;
      }
    }
  }

  lemma {:induction false} MergedPhase(j: Job, vs: seq<VerifiedReport>, s: set<nat>, now: Job, completed: seq<string>)
    requires ReportsOf(j, vs) && ActionsDistinct(Issued(j)) && IndexesOf(vs, s) && SameIssue(j, now)
    requires ToSet(completed) == ToSet(CompletedIds(j)) + ReportedIds(j, s)
    ensures PhaseAfter(now, completed) == PhaseOf(j, vs, s)
  {
    CompletedIffReported(j, vs, s, completed);
    assert Issued(now) == Issued(j);
    assert AllIssuedIn(now, completed) <==> AllIssuedIn(j, completed);
    assert Uncovered(now) <==> Uncovered(j);
  }

  /** What merging an observation does to the sets. */
  lemma MergedSets(now: Job, o: Observation)
    requires o.failedActionIds == []
    ensures var m := Merged(now, o);
            && ToSet(m.completedActionIds) == ToSet(CompletedIds(now)) + ToSet(o.completedActionIds)
            && ToSet(m.failedActionIds) == ToSet(FailedIds(now)) - ToSet(m.completedActionIds)
            && LowerSet(m.transactionHashes) == LowerSet(Hashes(now)) + LowerSet(o.transactionHashes)
  {}

  lemma StillReported(j: Job, v: VerifiedReport, p: Package, now: Job)
    requires Confirms(j, v, p) && SameIssue(j, now)
    ensures ReportedPackage(now, v.report) == Some(p)
  {}

  /** A verified report for an awaiting job advances it to the merged observation. */
  lemma VerifiedReportAdvances(now: Job, report: Report, o: Observation)
    requires AwaitsBuyer(now.status) && Issued(now) != [] && now.plan.Some? && ReportedPackage(now, report).Some?
    requires ObservationMatches(now.plan.value.plan, o) && o.phase.COMPLETED?
    requires AwaitsBuyer(Merged(now, o).phase) || IsTerminal(Merged(now, o).phase)
    ensures RecordReport(now, report, Ok(o))
         == AdvanceToObservation(now, Merged(now, o), ConfirmedReceipts(now, report.packageId, report.transactionHashes))
  {}

  lemma AwaitingRecords(j: Job, v: VerifiedReport, p: Package, now: Job)
    requires Confirms(j, v, p) && SameIssue(j, now) && AwaitsBuyer(now.status) && Issued(j) != []
    ensures AwaitsBuyer(Merged(now, v.observation).phase) || IsTerminal(Merged(now, v.observation).phase)
    ensures RecordReport(now, v.report, Ok(v.observation))
         == AdvanceToObservation(now, Merged(now, v.observation),
                                 ConfirmedReceipts(now, v.report.packageId, v.report.transactionHashes))
  {
    StillReported(j, v, p, now);
    assert Issued(now) == Issued(j);
    JobHistory.PhaseIsReachable(now, Union(CompletedIds(now), v.observation.completedActionIds));
    VerifiedReportAdvances(now, v.report, v.observation);
  }

  lemma ConfirmedSets(j: Job, v: VerifiedReport, p: Package)
    requires Confirms(j, v, p)
    ensures ToSet(v.observation.completedActionIds) == {p.actionId} && v.observation.failedActionIds == []
    ensures v.observation.transactionHashes == v.report.transactionHashes
  {}

  lemma {:induction false} SetsAfter(j: Job, vs: seq<VerifiedReport>, s: set<nat>, now: Job, i: nat)
    requires ReportsOf(j, vs) && MonitorReached(j, vs, s, now) && i < |vs|
    ensures var m := Merged(now, vs[i].observation);
            SetsReached(j, vs, s + {i}, ToSet(m.completedActionIds), ToSet(m.failedActionIds), LowerSet(m.transactionHashes))
  {
    var m := Merged(now, vs[i].observation);
    assert Confirms(j, vs[i], Issued(j)[i]);
    ConfirmedSets(j, vs[i], Issued(j)[i]);
    MergedSets(now, vs[i].observation);
    Accumulate(j, vs, s, i, ToSet(CompletedIds(now)), ToSet(FailedIds(now)), LowerSet(Hashes(now)),
               ToSet(m.completedActionIds), ToSet(m.failedActionIds), LowerSet(m.transactionHashes));
  }

  lemma {:induction false} Accumulate(j: Job, vs: seq<VerifiedReport>, s: set<nat>, i: nat,
                                      completedNow: set<string>, failedNow: set<string>, hashesNow: set<string>,
                                      completed: set<string>, failed: set<string>, hashes: set<string>)
    requires |vs| == |Issued(j)| && i < |vs|
    requires SetsReached(j, vs, s, completedNow, failedNow, hashesNow)
    requires completed == completedNow + {Issued(j)[i].actionId}
    requires failed == failedNow - completed
    requires hashes == hashesNow + LowerSet(vs[i].report.transactionHashes)
    ensures SetsReached(j, vs, s + {i}, completed, failed, hashes)
  {}

  lemma AwaitingResult(j: Job, v: VerifiedReport, p: Package, now: Job)
    requires Confirms(j, v, p) && SameIssue(j, now) && Valid(now) && AwaitsBuyer(now.status) && Issued(j) != []
    requires Merged(now, v.observation).phase.EXECUTING? || Merged(now, v.observation).phase.COMPLETED?
             || Merged(now, v.observation).phase.PARTIAL?
    ensures var c := RecordReport(now, v.report, Ok(v.observation));
            var m := Merged(now, v.observation);
            && c.Ok? && Valid(c.value.job)
            && c.value.job == Moved(Patch(now, m, ConfirmedReceipts(now, v.report.packageId, v.report.transactionHashes)),
                                    m.phase, HistoryAt(now.history, now.status, m.phase), c.value.job.revision)
  {
    AwaitingRecords(j, v, p, now);
    ConfirmedAreSame(now, v.report.packageId, v.report.transactionHashes);
    AdvanceSucceeds(now, Merged(now, v.observation), ConfirmedReceipts(now, v.report.packageId, v.report.transactionHashes));
  }

  lemma MergedPhaseAfter(now: Job, o: Observation)
    ensures Merged(now, o).phase == PhaseAfter(now, Merged(now, o).completedActionIds)
  {}

  lemma {:induction false} PhaseReached(j: Job, vs: seq<VerifiedReport>, s: set<nat>, now: Job, m: Observation)
    requires ReportsOf(j, vs) && ActionsDistinct(Issued(j)) && IndexesOf(vs, s) && SameIssue(j, now)
    requires SetsReached(j, vs, s, ToSet(m.completedActionIds), ToSet(m.failedActionIds), LowerSet(m.transactionHashes))
    requires m.phase == PhaseAfter(now, m.completedActionIds)
    ensures m.phase == PhaseOf(j, vs, s)
  {
    MergedPhase(j, vs, s, now, m.completedActionIds);
  }

  lemma IndexesGrow(vs: seq<VerifiedReport>, s: set<nat>, i: nat)
    requires IndexesOf(vs, s) && i < |vs|
    ensures IndexesOf(vs, s + {i})
  {}

  lemma {:induction false} PhaseAfterReport(j: Job, vs: seq<VerifiedReport>, s: set<nat>, now: Job, i: nat)
    requires ReportsOf(j, vs) && ActionsDistinct(Issued(j)) && IndexesOf(vs, s) && i < |vs|
    requires SameIssue(j, now) && MonitorReached(j, vs, s, now)
    ensures Merged(now, vs[i].observation).phase == PhaseOf(j, vs, s + {i})
  {
    IndexesGrow(vs, s, i);
    SetsAfter(j, vs, s, now, i);
    MergedPhaseAfter(now, vs[i].observation);
    PhaseReached(j, vs, s + {i}, now, Merged(now, vs[i].observation));
  }

  /** A report for a job that still awaits some. */
  lemma {:induction false} ReportWhileAwaiting(j: Job, vs: seq<VerifiedReport>, s: set<nat>, now: Job, i: nat)
    requires Reportable(j, vs) && IndexesOf(vs, s) && Reached(j, vs, s, now) && i < |vs|
    requires AwaitsBuyer(now.status)
    ensures var c := RecordReport(now, vs[i].report, Ok(vs[i].observation));
            c.Ok? && Reached(j, vs, s + {i}, c.value.job)
  {
    PackagesDistinct(j);
    SetsAfter(j, vs, s, now, i);
    PhaseAfterReport(j, vs, s, now, i);
    assert Confirms(j, vs[i], Issued(j)[i]);
    MergedIsReached(j, vs, s, now, i);
  }

  lemma {:induction false} MergedIsReached(j: Job, vs: seq<VerifiedReport>, s: set<nat>, now: Job, i: nat)
    requires AwaitsBuyer(j.status) && AwaitsBuyer(now.status) && Reached(j, vs, s, now)
    requires i < |vs| == |Issued(j)| && Confirms(j, vs[i], Issued(j)[i])
    requires var m := Merged(now, vs[i].observation);
             && m.phase == PhaseOf(j, vs, s + {i})
             && SetsReached(j, vs, s + {i}, ToSet(m.completedActionIds), ToSet(m.failedActionIds), LowerSet(m.transactionHashes))
    ensures var c := RecordReport(now, vs[i].report, Ok(vs[i].observation));
            c.Ok? && Reached(j, vs, s + {i}, c.value.job)
  {
    var v := vs[i];
    AwaitingResult(j, v, Issued(j)[i], now);
    ReachedAfter(j, vs, s, now, i, Merged(now, v.observation),
                 ConfirmedReceipts(now, v.report.packageId, v.report.transactionHashes),
                 RecordReport(now, v.report, Ok(v.observation)).value.job);
  }

  /** From the start of the run, the history is the one for the new phase. */
  lemma {:induction false} HistoryAfter(j: Job, vs: seq<VerifiedReport>, s: set<nat>, now: Job, phase: Status)
    requires AwaitsBuyer(j.status) && AwaitsBuyer(now.status)
    requires s == {} ==> now.status == j.status && now.history == j.history
    requires s != {} ==> now.status == PhaseOf(j, vs, s) && now.history == HistoryAt(j.history, j.status, PhaseOf(j, vs, s))
    ensures HistoryAt(now.history, now.status, phase) == HistoryAt(j.history, j.status, phase)
  {}

  lemma {:induction false} ReachedAfter(j: Job, vs: seq<VerifiedReport>, s: set<nat>, now: Job, i: nat, m: Observation,
                                        receipts: Option<seq<Submission>>, next: Job)
    requires AwaitsBuyer(j.status) && AwaitsBuyer(now.status) && Reached(j, vs, s, now) && Valid(next)
    requires next == Moved(Patch(now, m, receipts), m.phase, HistoryAt(now.history, now.status, m.phase), next.revision)
    requires m.phase == PhaseOf(j, vs, s + {i})
    requires SetsReached(j, vs, s + {i}, ToSet(m.completedActionIds), ToSet(m.failedActionIds), LowerSet(m.transactionHashes))
    ensures Reached(j, vs, s + {i}, next)
  {
    HistoryAfter(j, vs, s, now, m.phase);
    assert next.monitor == Some(m);
    assert i in s + {i};
  }

  /** A repeated report for a finished job. */
  lemma {:induction false} ReportWhenFinished(j: Job, vs: seq<VerifiedReport>, s: set<nat>, now: Job, i: nat)
    requires Reportable(j, vs) && IndexesOf(vs, s) && Reached(j, vs, s, now) && i < |vs|
    requires now.status.COMPLETED? || now.status.PARTIAL?
    ensures var c := RecordReport(now, vs[i].report, Ok(vs[i].observation));
            c.Ok? && Reached(j, vs, s + {i}, c.value.job)
  {
    var v := vs[i];
    assert Confirms(j, v, Issued(j)[i]);
    StillReported(j, v, Issued(j)[i], now);
    FinishedMeansReported(j, vs, s, now, i);
    assert s + {i} == s;
    RetrySucceeds(j, vs, s, now, i);
  }

  lemma {:induction false} FinishedMeansReported(j: Job, vs: seq<VerifiedReport>, s: set<nat>, now: Job, i: nat)
    requires AwaitsBuyer(j.status) && Reached(j, vs, s, now) && i < |vs|
    requires now.status.COMPLETED? || now.status.PARTIAL?
    ensures i in s
  {}

  lemma {:induction false} RetryAllowed(j: Job, vs: seq<VerifiedReport>, s: set<nat>, now: Job, i: nat)
    requires |vs| == |Issued(j)| && MonitorReached(j, vs, s, now) && i < |vs| && i in s
    ensures Issued(j)[i].actionId in CompletedIds(now)
    ensures LowerSet(vs[i].report.transactionHashes) <= LowerSet(Hashes(now))
  {
    ReportedIdsStep(j, s, i);
    ReportedHashesStep(vs, s, i);
    assert s + {i} == s;
    assert Issued(j)[i].actionId in ToSet(CompletedIds(now));
  }

  lemma RetryUpdates(now: Job, report: Report, p: Package)
    requires Valid(now) && ReportedPackage(now, report) == Some(p)
    requires p.actionId in CompletedIds(now) && LowerSet(report.transactionHashes) <= LowerSet(Hashes(now))
    ensures var c := RetryReport(now, report);
            && c.Ok? && Valid(c.value.job)
            && c.value.job == now.(receiptSubmissions := c.value.job.receiptSubmissions, revision := c.value.job.revision)
  {
    ConfirmedAreSame(now, report.packageId, report.transactionHashes);
    var receipts := ConfirmedReceipts(now, report.packageId, report.transactionHashes);
    if receipts.Some? {
      ReceiptsStayValid(now, receipts.value);
    }
  }

  lemma {:induction false} ReachedBeyondReceipts(j: Job, vs: seq<VerifiedReport>, s: set<nat>, now: Job, next: Job)
    requires Reached(j, vs, s, now) && Valid(next)
    requires next == now.(receiptSubmissions := next.receiptSubmissions, revision := next.revision)
    ensures Reached(j, vs, s, next)
  {}

  lemma {:induction false} RetrySucceeds(j: Job, vs: seq<VerifiedReport>, s: set<nat>, now: Job, i: nat)
    requires |vs| == |Issued(j)| && Reached(j, vs, s, now) && i < |vs| && i in s
    requires ReportedPackage(now, vs[i].report) == Some(Issued(j)[i])
    ensures var c := RetryReport(now, vs[i].report);
            c.Ok? && Reached(j, vs, s, c.value.job)
  {
    RetryAllowed(j, vs, s, now, i);
    RetryUpdates(now, vs[i].report, Issued(j)[i]);
    ReachedBeyondReceipts(j, vs, s, now, RetryReport(now, vs[i].report).value.job);
  }

  /** One more report, in whatever state the others have left the job. */
  lemma {:induction false} ReportStep(j: Job, vs: seq<VerifiedReport>, s: set<nat>, now: Job, i: nat)
    requires Reportable(j, vs) && IndexesOf(vs, s) && Reached(j, vs, s, now) && i < |vs|
    ensures var c := RecordReport(now, vs[i].report, Ok(vs[i].observation));
            c.Ok? && Reached(j, vs, s + {i}, c.value.job)
  {
    if AwaitsBuyer(now.status) {
      ReportWhileAwaiting(j, vs, s, now, i);
    } else {
      ReportWhenFinished(j, vs, s, now, i);
    }
  }

  lemma {:induction false} NothingReported(j: Job, vs: seq<VerifiedReport>)
    requires Valid(j)
    ensures Reached(j, vs, {}, j)
  {}

  ghost predicate Reaches(j: Job, vs: seq<VerifiedReport>, order: seq<nat>)
    requires InRange(order, |vs|)
  {
    Process(j, vs, order).Ok? && Reached(j, vs, ToSet(order), Process(j, vs, order).value)
  }

  lemma {:induction false} HandleReaches(j: Job, vs: seq<VerifiedReport>, s: set<nat>, before: Result<Job, ServiceError>, i: nat)
    requires Reportable(j, vs) && IndexesOf(vs, s) && before.Ok? && Reached(j, vs, s, before.value) && i < |vs|
    ensures var after := Handle(before, vs[i]);
            after.Ok? && Reached(j, vs, s + {i}, after.value)
  {
    ReportStep(j, vs, s, before.value, i);
  }

  lemma {:induction false} LastReport(j: Job, vs: seq<VerifiedReport>, order: seq<nat>)
    requires Reportable(j, vs) && order != [] && InRange(order, |vs|) && Reaches(j, vs, order[..|order| - 1])
    ensures Reaches(j, vs, order)
  {
    var init, last := order[..|order| - 1], order[|order| - 1];
    HandleReaches(j, vs, ToSet(init), Process(j, vs, init), last);
    SetOfLast(order);
  }

  lemma {:induction false} SetOfLast(order: seq<nat>)
    requires order != []
    ensures ToSet(order) == ToSet(order[..|order| - 1]) + {order[|order| - 1]}
  {}

  /** Reports are never refused, and only the set of reported packages matters. */
  lemma {:induction false} ReportsReach(j: Job, vs: seq<VerifiedReport>, order: seq<nat>)
    requires Reportable(j, vs) && InRange(order, |vs|)
    ensures Reaches(j, vs, order)
    decreases |order|
  {
    if order == [] {
      NothingReported(j, vs);
      assert ToSet(order) == {};
    } else {
      ReportsReach(j, vs, order[..|order| - 1]);
      LastReport(j, vs, order);
    }
  }

  /** When every package has been reported the job is finished: completed, unless an executable
      action has no package or some action was excluded. */
  lemma {:induction false} AllReportsFinish(j: Job, vs: seq<VerifiedReport>, order: seq<nat>)
    requires Reportable(j, vs) && AllReported(vs, ToSet(order))
    requires InRange(order, |vs|)
    ensures var now := Process(j, vs, order);
            && now.Ok?
            && now.value.status == (if Uncovered(j) || HasExcluded(j) then Status.PARTIAL else COMPLETED)
            && forall p :: p in Issued(j) ==> p.actionId in CompletedIds(now.value)
  {
    ReportsReach(j, vs, order);
    var now := Process(j, vs, order).value;
    forall p | p in Issued(j) ensures p.actionId in CompletedIds(now) {
      var i :| 0 <= i < |Issued(j)| && Issued(j)[i] == p;
      assert i in ToSet(order);
      assert p.actionId in ReportedIds(j, ToSet(order));
      assert p.actionId in ToSet(CompletedIds(now));
    }
    assert 0 in ToSet(order);
  }

  /** Any two orders that report the same packages, with any repetitions, lead to the same status,
      the same history, the same completed and failed actions and, up to case, the same hashes. */
  lemma {:induction false} OrderDoesNotMatter(j: Job, vs: seq<VerifiedReport>, a: seq<nat>, b: seq<nat>)
    requires Reportable(j, vs)
    requires InRange(a, |vs|) && InRange(b, |vs|)
    requires ToSet(a) == ToSet(b)
    ensures Process(j, vs, a).Ok? && Process(j, vs, b).Ok?
    ensures var x, y := Process(j, vs, a).value, Process(j, vs, b).value;
            && x.status == y.status && x.history == y.history
            && ToSet(CompletedIds(x)) == ToSet(CompletedIds(y))
            && ToSet(FailedIds(x)) == ToSet(FailedIds(y))
            && LowerSet(Hashes(x)) == LowerSet(Hashes(y))
  {
    ReportsReach(j, vs, a);
    ReportsReach(j, vs, b);
  }
}
