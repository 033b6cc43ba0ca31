/** The simulation port of the live deployment: the reports it hands to the agent service
    (apps/web/src/lib/agent-runtime.ts:369-404). */
module LiveSimulation {
  import opened Basics
  import opened RescueActions
  import opened Simulator
  import Planner
  import LocalProvider
  import Jobs

  /** Every action of the plan is reported as executable or as excluded. */
  ghost predicate Covers(report: Jobs.SimulationReport, p: RescueActions.Plan) {
    forall a :: a in p.actions ==> a.id in report.executableActionIds || a.id in report.excludedActionIds
  }

  function ExcludedIds(excluded: seq<Excluded>): seq<string> {
    if excluded == [] then [] else ExcludedIds(excluded[..|excluded| - 1]) + [excluded[|excluded| - 1].actionId]
  }

  /** The report is the one of a run with these results. */
  ghost predicate Reports(report: Jobs.SimulationReport, actions: seq<RescueAction>, results: seq<SimulationResult>) {
    && |results| == |actions| == |report.results|
    && (forall i :: 0 <= i < |results| ==> report.results[i].result == results[i])
    && report.executableActionIds == Planner.ActionIds(Executable(actions, SucceededIds(actions, results)))
    && report.excludedActionIds == ExcludedIds(FlatMap(Exclude, results))
    && (report.status.AllSucceeded? <==> |report.executableActionIds| == |actions|)
    && (report.status.AllFailed? <==> report.executableActionIds == [] && actions != [])
  }

  ghost predicate SimulatedBy(sealed: SealedPlan, report: Jobs.SimulationReport, p: LocalProvider.Local,
                              client: nat -> LocalProvider.Answers, clock: Clock, results: seq<SimulationResult>) {
    && Simulates(sealed, LocalProvider.Asked(p, sealed.plan.chainId, client), clock, results)
    && Reports(report, sealed.plan.actions, results)
  }

  /** Some run of simulateRescuePlan with the local provider gave the report. */
  ghost predicate FromSimulator(sealed: SealedPlan, report: Jobs.SimulationReport) {
    exists p, client, clock, results :: SimulatedBy(sealed, report, p, client, clock, results)
  }

  method Simulate(verify: SealedPlan -> bool, sealed: SealedPlan, p: LocalProvider.Local, client: nat -> LocalProvider.Answers,
                  clock: Clock, providerId: string, resultIds: nat -> string)
    returns (r: Result<Jobs.SimulationReport, SimulateError>)
    ensures r == Err(IntegrityFailed) <==> !verify(sealed)
    ensures r.Ok? ==> r.value.providerId == providerId && FromSimulator(sealed, r.value)
  {
    var simulated := SimulateRescuePlan(verify, sealed, LocalProvider.Asked(p, sealed.plan.chainId, client), clock);
    match simulated {
      case Err(e) => return Err(e);
      case Ok(report) =>
        var recorded := seq(|report.results|, i requires 0 <= i < |report.results| =>
                              Jobs.Recorded(resultIds(i), providerId, report.results[i]));
        var answer := Jobs.SimulationReport(providerId, report.status, recorded, Planner.ActionIds(report.executableActions),
                                            ExcludedIds(report.excludedActions));
        Planner.ActionIdsLength(report.executableActions);
        assert SimulatedBy(sealed, answer, p, client, clock, report.results);
        return Ok(answer);
    }
  }

  // ----- every action is reported once

  lemma {:induction false} ExcludedIdMembers(excluded: seq<Excluded>, id: string)
    ensures id in ExcludedIds(excluded) <==> exists e :: e in excluded && e.actionId == id
  {
    if excluded == [] {
    } else {
      var init, last := excluded[..|excluded| - 1], excluded[|excluded| - 1];
      ExcludedIdMembers(init, id);
      assert excluded == init + [last];
    }
  }

  lemma {:induction false} EitherExecutableOrExcluded(sealed: SealedPlan, provider: Provider, clock: Clock,
                                                      results: seq<SimulationResult>, k: nat)
    requires DistinctIds(sealed.plan.actions) && |results| == |sealed.plan.actions| && k < |results|
    requires Simulates(sealed, provider, clock, results) && Echoes(provider)
    ensures var actions := sealed.plan.actions;
            var executable := Executable(actions, SucceededIds(actions, results));
            actions[k].id in Planner.ActionIds(executable) <==> actions[k].id !in ExcludedIds(FlatMap(Exclude, results))
  {
    var actions := sealed.plan.actions;
    var executable := Executable(actions, SucceededIds(actions, results));
    ExcludedIsComplement(sealed, provider, clock, results, k);
    ExcludedIdMembers(FlatMap(Exclude, results), actions[k].id);
    Planner.ActionIdMembers(executable, actions[k].id);
    if actions[k].id in IdSet(executable) {
      var b :| b in executable && b.id == actions[k].id;
      SameIdSameAction(actions, actions[k], b);
    }
  }

  /** The report of a run covers the plan, and no action is both executable and excluded. */
  lemma {:induction false} SimulatedReportsCover(sealed: SealedPlan, report: Jobs.SimulationReport)
    requires DistinctIds(sealed.plan.actions) && FromSimulator(sealed, report)
    ensures Covers(report, sealed.plan)
    ensures forall a :: a in sealed.plan.actions ==> !(a.id in report.executableActionIds && a.id in report.excludedActionIds)
  {
    var actions := sealed.plan.actions;
    var p, client, clock, results :| SimulatedBy(sealed, report, p, client, clock, results);
    LocalProvider.AskedEchoes(p, sealed.plan.chainId, client);
    forall a | a in actions ensures a.id in report.executableActionIds <==> a.id !in report.excludedActionIds {
      var k :| 0 <= k < |actions| && actions[k] == a;
      EitherExecutableOrExcluded(sealed, LocalProvider.Asked(p, sealed.plan.chainId, client), clock, results, k);
    }
  }

  /** Every result of a run is about the action at its place, of this plan and under its hash. */
  lemma {:induction false} ResultsAboutPlan(sealed: SealedPlan, p: LocalProvider.Local, client: nat -> LocalProvider.Answers, clock: Clock,
                                            results: seq<SimulationResult>, k: nat)
    requires Simulates(sealed, LocalProvider.Asked(p, sealed.plan.chainId, client), clock, results) && k < |results|
    ensures results[k].planId == sealed.plan.id && results[k].planHash == sealed.integrityHash
    ensures results[k].actionId == sealed.plan.actions[k].id
  {
    var provider := LocalProvider.Asked(p, sealed.plan.chainId, client);
    assert StepFollows(sealed, provider, clock, k, results[..k], results[k]);
    AboutPlan(sealed, p, client, clock, k, SucceededIds(sealed.plan.actions, results[..k]), TotalGas(results[..k]));
  }

  lemma AboutPlan(sealed: SealedPlan, p: LocalProvider.Local, client: nat -> LocalProvider.Answers, clock: Clock, k: nat, succeeded: set<string>, gas: nat)
    requires k < |sealed.plan.actions|
    ensures var outcome := StepResult(sealed, LocalProvider.Asked(p, sealed.plan.chainId, client), clock, k, succeeded, gas);
            outcome.Some? ==>
              && outcome.value.planId == sealed.plan.id && outcome.value.planHash == sealed.integrityHash
              && outcome.value.actionId == sealed.plan.actions[k].id
  {
    LocalProvider.AskedGives(p, sealed.plan.chainId, client, k, RequestFor(sealed, k, gas));
  }

  /** Some action of the plan was simulated successfully. */
  ghost predicate SomethingSucceeds(report: Jobs.SimulationReport) {
    exists i :: 0 <= i < |report.results| && report.results[i].result.status.SUCCEEDED?
  }

  /** A run's report counts as failed exactly when the plan has actions and none of them succeeded. */
  lemma {:induction false} FailedExactlyWithoutSuccess(sealed: SealedPlan, report: Jobs.SimulationReport)
    requires DistinctIds(sealed.plan.actions) && FromSimulator(sealed, report)
    ensures report.status.AllFailed? <==> sealed.plan.actions != [] && !SomethingSucceeds(report)
  {
    var actions := sealed.plan.actions;
    var p, client, clock, results: seq<SimulationResult> :| SimulatedBy(sealed, report, p, client, clock, results);
    var executable := Executable(actions, SucceededIds(actions, results));
    Planner.ActionIdsLength(executable);
    if SomethingSucceeds(report) {
      var i :| 0 <= i < |report.results| && report.results[i].result.status.SUCCEEDED?;
      assert results[i].status.SUCCEEDED?;
      SucceededAt(actions, results, i);
      ExecutableMember(actions, SucceededIds(actions, results), actions[i]);
    }
    if executable != [] {
      var k := SucceededIndex(actions, results, executable[0]);
      assert report.results[k].result == results[k];
    }
  }

  lemma {:induction false} ExecutableInPlan(actions: seq<RescueAction>, ids: set<string>, id: string)
    requires id in Planner.ActionIds(Executable(actions, ids))
    ensures id in IdSet(actions)
  {
    Planner.ActionIdMembers(Executable(actions, ids), id);
  }

  lemma {:induction false} ExcludedInPlan(sealed: SealedPlan, p: LocalProvider.Local, client: nat -> LocalProvider.Answers, clock: Clock,
                                          results: seq<SimulationResult>, id: string)
    requires Simulates(sealed, LocalProvider.Asked(p, sealed.plan.chainId, client), clock, results)
    requires id in ExcludedIds(FlatMap(Exclude, results))
    ensures id in IdSet(sealed.plan.actions)
  {
    var k := ExcludedAmong(results, id);
    ResultsAboutPlan(sealed, p, client, clock, results, k);
    assert sealed.plan.actions[k] in sealed.plan.actions;
  }

  lemma {:induction false} ExcludedAmong(results: seq<SimulationResult>, id: string) returns (k: nat)
    requires id in ExcludedIds(FlatMap(Exclude, results))
    ensures k < |results| && results[k].actionId == id
  {
    ExcludedIdMembers(FlatMap(Exclude, results), id);
    FlatMapMember(Exclude, results);
    var e :| e in FlatMap(Exclude, results) && e.actionId == id;
    k :| 0 <= k < |results| && e in Exclude(results[k]);
  }

  /** The reported ids are ids of the plan, each on one side only. */
  lemma {:induction false} ReportedIdsSplit(sealed: SealedPlan, report: Jobs.SimulationReport)
    requires DistinctIds(sealed.plan.actions) && FromSimulator(sealed, report)
    ensures ToSet(report.executableActionIds) <= IdSet(sealed.plan.actions) && ToSet(report.excludedActionIds) <= IdSet(sealed.plan.actions)
    ensures ToSet(report.executableActionIds) !! ToSet(report.excludedActionIds)
  {
    var actions := sealed.plan.actions;
    var p, client, clock, results: seq<SimulationResult> :| SimulatedBy(sealed, report, p, client, clock, results);
    SimulatedReportsCover(sealed, report);
    forall id | id in ToSet(report.executableActionIds) ensures id in IdSet(actions) {
      ExecutableInPlan(actions, SucceededIds(actions, results), id);
    }
    forall id | id in ToSet(report.excludedActionIds) ensures id in IdSet(actions) {
      ExcludedInPlan(sealed, p, client, clock, results, id);
    }
    forall id | id in IdSet(actions) ensures !(id in report.executableActionIds && id in report.excludedActionIds) {
      var a :| a in actions && a.id == id;
    }
  }
}
