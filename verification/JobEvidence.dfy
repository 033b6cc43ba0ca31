/** What stands behind the completed actions of a job: a verified report that was saved for this
    very job, and behind that report a transaction in a block that stays canonical. */
module JobEvidence {
  import opened Basics
  import opened RescueActions
  import opened Jobs
  import opened JobOperations
  import opened JobHistory
  import opened JobStore
  import opened JobRuns
  import opened JobOutcomes
  import Finality
  import Planner

  // ----- the completed actions were verified

  /** The operation records a verified report, on a package of the job, that lists the action. */
  ghost predicate VerifiedBy(op: Op, j: Job, action: string) {
    && op.OpRecordReport? && op.verified.Ok? && action in op.verified.value.completedActionIds
    && AwaitsBuyer(j.status) && j.plan.Some? && ReportedPackage(j, op.buyerReport).Some?
  }

  /** In the live deployment only a verified buyer report completes an action. */
  ghost predicate CompletesOnly(op: Op, j: Job, c: Computed) {
    c.Ok? ==> forall id :: id in CompletedIds(c.value.job) ==> id in CompletedIds(j) || VerifiedBy(op, j, id)
  }

  lemma VerifiedCompletes(j: Job, report: Report, o: Observation, id: string)
    requires j.plan.Some? && RecordVerified(j, report, o).Ok?
    requires id in CompletedIds(RecordVerified(j, report, o).value.job)
    ensures id in CompletedIds(j) || id in o.completedActionIds
  {
    PhaseIsReachable(j, Union(CompletedIds(j), o.completedActionIds));
    AdvanceChanges(j, Merged(j, o), ConfirmedReceipts(j, report.packageId, report.transactionHashes));
    assert id in ToSet(Merged(j, o).completedActionIds);
  }

  lemma ReportCompletes(j: Job, report: Report, verified: Result<Observation, VerifierError>)
    ensures CompletesOnly(OpRecordReport(report, verified), j, RecordReport(j, report, verified))
  {
    var c := RecordReport(j, report, verified);
    if AwaitsBuyer(j.status) && verified.Ok? && c.Ok? {
      forall id | id in CompletedIds(c.value.job) ensures id in CompletedIds(j) || id in verified.value.completedActionIds {
        VerifiedCompletes(j, report, verified.value, id);
      }
    }
  }

  lemma EarlyCompletes(op: Op, j: Job)
    requires op.OpStartAnalysis? || op.OpRecordScan? || op.OpRecordPlan? || op.OpRecordSimulation?
    ensures CompletesOnly(op, j, Apply(op, j))
  {}

  lemma LateCompletes(op: Op, j: Job)
    requires op.OpResimulate? || op.OpIssuePackages? || op.OpSetDashboard? || op.OpRegisterReceipt? || op.OpSetReceiptStatus? || op.OpFail?
    ensures CompletesOnly(op, j, Apply(op, j))
  {}

  lemma ObserveCompletes(j: Job)
    ensures CompletesOnly(OpObserve(REVIEW_ONLY), j, Observe(j, REVIEW_ONLY))
  {}

  lemma OperationsComplete(op: Op, j: Job)
    requires Live(op, j)
    ensures CompletesOnly(op, j, Apply(op, j))
  {
    match op {
      case OpRecordReport(report, verified) => ReportCompletes(j, report, verified);
      case OpObserve(o) => ObserveCompletes(j);
      case OpStartAnalysis(_) => EarlyCompletes(op, j);
      case OpRecordScan(_) => EarlyCompletes(op, j);
      case OpRecordPlan(_) => EarlyCompletes(op, j);
      case OpRecordSimulation(_) => EarlyCompletes(op, j);
      case _ => LateCompletes(op, j);
    }
  }

  /** The client's copy, of this job and with this plan, was the stored record; the verified report
      was computed from it and the result was saved. */
  ghost predicate VerifiedSave(w: World, client: nat, op: Op, j: Job, action: string) {
    && client in w.clients
    && var loaded := w.clients[client].job;
       && loaded.id == j.id && loaded.plan == j.plan && VerifiedBy(op, loaded, action)
       && Saves(Apply(op, loaded)) && SaveOutcome(w.store, Apply(op, loaded)).Ok?
       && j.id in w.store && w.store[j.id] == loaded
  }

  ghost predicate VerifiedAt(events: seq<Event>, k: nat, j: Job, action: string) {
    k < |events| && events[k].Run? && VerifiedSave(After(EMPTY, events[..k]), events[k].client, events[k].op, j, action)
  }

  ghost predicate WasVerified(events: seq<Event>, j: Job, action: string) {
    exists k: nat :: VerifiedAt(events, k, j, action)
  }

  ghost predicate AllVerified(events: seq<Event>, j: Job) {
    forall action :: action in CompletedIds(j) ==> WasVerified(events, j, action)
  }

  ghost predicate VerifiedLog(log: Log, events: seq<Event>) {
    log.Then? ==> AllVerified(events, log.commit.job) && VerifiedLog(log.before, events)
  }

  lemma {:induction false} LatestVerified(a: Log, b: Log, events: seq<Event>, id: string)
    requires IsPrefix(a, b) && VerifiedLog(b, events) && Latest(a, id).Some?
    ensures AllVerified(events, Latest(a, id).value)
    decreases b, a
  {
    if a != b {
      LatestVerified(a, b.before, events, id);
    } else if a.commit.job.id != id {
      LatestVerified(a.before, a.before, events, id);
    }
  }

  lemma {:induction false} StillVerified(events: seq<Event>, e: Event, j: Job)
    requires AllVerified(events, j)
    ensures AllVerified(events + [e], j)
  {
    forall action | action in CompletedIds(j) ensures WasVerified(events + [e], j, action) {
      var k: nat :| VerifiedAt(events, k, j, action);
      assert (events + [e])[k] == events[k] && (events + [e])[..k] == events[..k];
      assert VerifiedAt(events + [e], k, j, action);
    }
  }

  lemma {:induction false} MoreEvents(log: Log, events: seq<Event>, e: Event)
    requires VerifiedLog(log, events)
    ensures VerifiedLog(log, events + [e])
  {
    match log
    case Start =>
    case Then(before, commit) =>
      MoreEvents(before, events, e);
      StillVerified(events, e, commit.job);
  }

  /** An accepted save leaves nothing unverified. */
  lemma {:induction false} SavedIsVerified(events: seq<Event>, client: nat, op: Op)
    requires var w := After(EMPTY, events);
             && Inv(w) && client in w.clients && Live(op, w.clients[client].job)
             && AllVerified(events + [Run(client, op)], w.clients[client].job)
             && Saves(Apply(op, w.clients[client].job)) && SaveOutcome(w.store, Apply(op, w.clients[client].job)).Ok?
    ensures AllVerified(events + [Run(client, op)], Apply(op, After(EMPTY, events).clients[client].job).value.job)
  {
    var w, longer := After(EMPTY, events), events + [Run(client, op)];
    var loaded := w.clients[client].job;
    var next := Apply(op, loaded).value.job;
    SnapshotIsEarlier(w, client);
    OperationsFollow(op, loaded);
    SavesAreCompareAndSwap(w, client, op);
    OperationsComplete(op, loaded);
    assert next.id == loaded.id && (loaded.plan.Some? ==> next.plan == loaded.plan);
    forall action | action in CompletedIds(next) ensures WasVerified(longer, next, action) {
      if action in CompletedIds(loaded) {
        var k: nat :| VerifiedAt(longer, k, loaded, action);
        assert VerifiedAt(longer, k, next, action);
      } else {
        assert longer[..|events|] == events;
        assert VerifiedAt(longer, |events|, next, action);
      }
    }
  }

  lemma {:induction false} StepVerified(events: seq<Event>, e: Event)
    requires var w := After(EMPTY, events); Inv(w) && VerifiedLog(w.log, events) && LiveEvent(w, e)
    ensures VerifiedLog(Next(After(EMPTY, events), e).log, events + [e])
  {
    var w := After(EMPTY, events);
    MoreEvents(w.log, events, e);
    if e.Run? && e.client in w.clients {
      var s := w.clients[e.client];
      SnapshotVerified(w, e.client, events + [e]);
      if Saves(Apply(e.op, s.job)) && SaveOutcome(w.store, Apply(e.op, s.job)).Ok? {
        SavedIsVerified(events, e.client, e.op);
      }
      AttemptVerified(w, e.client, Apply(e.op, s.job), events + [e]);
    }
  }

  lemma {:induction false} SnapshotVerified(w: World, client: nat, events: seq<Event>)
    requires Inv(w) && VerifiedLog(w.log, events) && client in w.clients
    ensures AllVerified(events, w.clients[client].job)
  {
    assert SnapshotOk(w, client);
    LatestVerified(w.clients[client].since, w.log, events, w.clients[client].job.id);
  }

  lemma {:induction false} AttemptVerified(w: World, client: nat, c: Computed, events: seq<Event>)
    requires VerifiedLog(w.log, events)
    requires Saves(c) && SaveOutcome(w.store, c).Ok? ==> AllVerified(events, c.value.job)
    ensures VerifiedLog(Attempt(w, client, c).log, events)
  {}

  lemma {:induction false} RunIsVerified(events: seq<Event>)
    requires LiveRun(EMPTY, events)
    ensures VerifiedLog(After(EMPTY, events).log, events)
    decreases |events|
  {
    if events == [] {
    } else {
      var init, last := events[..|events| - 1], events[|events| - 1];
      assert events == init + [last];
      RunIsVerified(init);
      EventVerified(init, last);
    }
  }

  lemma {:induction false} EventVerified(init: seq<Event>, last: Event)
    requires VerifiedLog(After(EMPTY, init).log, init) && LiveEvent(After(EMPTY, init), last)
    ensures VerifiedLog(After(EMPTY, init + [last]).log, init + [last])
  {
    EveryRun(init);
    StepVerified(init, last);
    AfterOne(init, last);
  }

  lemma {:induction false} AfterOne(init: seq<Event>, last: Event)
    ensures After(EMPTY, init + [last]) == Next(After(EMPTY, init), last)
  {
    assert (init + [last])[..|init|] == init;
  }

  lemma StoredIsVerified(w: World, events: seq<Event>, id: string)
    requires Inv(w) && VerifiedLog(w.log, events) && id in w.store
    ensures AllVerified(events, w.store[id])
  {
    LatestVerified(w.log, w.log, events, id);
  }

  /** In every run of the live deployment, whatever a job counts as completed was verified for this
      job and its plan, by a report that was computed from the stored record and saved. */
  lemma CompletedActionsWereVerified(events: seq<Event>, id: string)
    requires LiveRun(EMPTY, events) && id in After(EMPTY, events).store
    ensures AllVerified(events, After(EMPTY, events).store[id])
  {
    RunIsVerified(events);
    EveryRun(events);
    StoredIsVerified(After(EMPTY, events), events, id);
  }
}
