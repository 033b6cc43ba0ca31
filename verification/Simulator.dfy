/** Simulating a rescue plan action by action (packages/simulator/src/orchestrator.ts), and the
    provider that answers from a chain client (packages/simulator/src/local-provider.ts). */
module Simulator {
  import opened Basics
  import opened Sorting
  import opened RescueActions
  import opened Ordering
  import opened Planner
  import PlanProperties

  datatype SealedPlan = SealedPlan(plan: RescueActions.Plan, integrityHash: string)

  datatype SimulationStatus = SUCCEEDED | REVERTED | UNSUPPORTED | ERROR

  datatype Direction = DEBIT | CREDIT

  datatype Moved =
    | NativeCoin
    | Erc20Token(contractAddress: string)
    | Erc721Token(contractAddress: string, tokenId: nat)
    | Erc1155Token(contractAddress: string, tokenId: nat)

  datatype AssetChange = AssetChange(asset: Moved, account: string, direction: Direction, amount: nat)

  /** Why an action was not simulated successfully: one of the fixed texts, or the words of another. */
  datatype Reason = DependencyFailed(id: string) | NotSupported | NoReasonGiven | ProviderFailed | NoFailureReason | NoProviderReason | Said(text: string)

  datatype SimulationResult = SimulationResult(
    planId: string, planHash: string, actionId: string, status: SimulationStatus, gasEstimate: Option<nat>,
    assetChanges: seq<AssetChange>, failureReason: Option<Reason>, simulatedAt: int, expiresAt: int)

  datatype SimulationRequest = SimulationRequest(
    planId: string, planHash: string, action: RescueAction, observedAtBlock: nat, priorGas: nat)

  /** What a simulation provider does when asked about one action: it throws (with the message of
      the error, if it is one), says that it does not support the action, or gives a result. */
  datatype Answer = Threw(message: Option<string>) | Refused(reason: Option<string>) | Gave(result: SimulationResult)

  /** The n-th question of a run and its answer. */
  type Provider = (nat, SimulationRequest) -> Answer

  type Clock = nat -> int

  const TTL: int := 60_000

  /** createSimulationResult without gas or changes; the schema insists on a reason. */
  function FailedResult(request: SimulationRequest, status: SimulationStatus, reason: Reason, now: int, ttl: int): (r: Option<SimulationResult>) {
    if reason == Said("") then None
    else Some(SimulationResult(request.planId, request.planHash, request.action.id, status, None, [], Some(reason), now, now + ttl))
  }

  /** The first dependency that did not succeed. */
  function FirstMissing(dependencies: seq<string>, succeeded: set<string>): (r: Option<string>)
    ensures r.None? <==> forall d :: d in dependencies ==> d in succeeded
    ensures r.Some? ==> r.value in dependencies && r.value !in succeeded
  {
    if dependencies == [] then None
    else if dependencies[0] !in succeeded then Some(dependencies[0])
    else FirstMissing(dependencies[1..], succeeded)
  }

  // ----- what a run is

  /** The ids of the actions whose simulation succeeded. */
  ghost function SucceededIds(actions: seq<RescueAction>, results: seq<SimulationResult>): set<string>
    requires |results| <= |actions|
  {
    set k | 0 <= k < |results| && results[k].status.SUCCEEDED? :: actions[k].id
  }

  function GasOf(result: SimulationResult): nat {
    if result.status.SUCCEEDED? && result.gasEstimate.Some? then result.gasEstimate.value else 0
  }

  /** Gas recorded by the successful simulations. */
  function TotalGas(results: seq<SimulationResult>): nat {
    if results == [] then 0 else TotalGas(results[..|results| - 1]) + GasOf(results[|results| - 1])
  }

  function RequestFor(sealed: SealedPlan, k: nat, gas: nat): SimulationRequest
    requires k < |sealed.plan.actions|
  {
    SimulationRequest(sealed.plan.id, sealed.integrityHash, sealed.plan.actions[k], sealed.plan.observedAtBlock, gas)
  }

  /** The outcome of one action; None when not even a failure can be recorded, because the
      provider threw an error without a message. */
  function Outcome(request: SimulationRequest, answer: Answer, now: int): Option<SimulationResult> {
    match answer
    case Gave(result) => Some(result)
    case Refused(None) => FailedResult(request, SimulationStatus.UNSUPPORTED, NotSupported, now, TTL)
    case Refused(Some(reason)) =>
      if reason == "" then FailedResult(request, ERROR, NoReasonGiven, now, TTL)
      else FailedResult(request, SimulationStatus.UNSUPPORTED, Said(reason), now, TTL)
    case Threw(None) => FailedResult(request, ERROR, ProviderFailed, now, TTL)
    case Threw(Some(message)) => FailedResult(request, ERROR, Said(message), now, TTL)
  }

  function BlockedResult(request: SimulationRequest, dependency: string, now: int): Option<SimulationResult> {
    FailedResult(request, SimulationStatus.UNSUPPORTED, DependencyFailed(dependency), now, TTL)
  }

  /** What the k-th action yields when `succeeded` have succeeded and recorded `gas`. */
  function StepResult(sealed: SealedPlan, provider: Provider, clock: Clock, k: nat, succeeded: set<string>, gas: nat): Option<SimulationResult>
    requires k < |sealed.plan.actions|
  {
    var request := RequestFor(sealed, k, gas);
    match FirstMissing(request.action.dependencies, succeeded)
    case Some(d) => BlockedResult(request, d, clock(k))
    case None => Outcome(request, provider(k, request), clock(k))
  }

  /** `result` is what the k-th action must yield after `earlier`. */
  ghost predicate StepFollows(sealed: SealedPlan, provider: Provider, clock: Clock, k: nat,
                              earlier: seq<SimulationResult>, result: SimulationResult)
    requires k < |sealed.plan.actions| && |earlier| == k
  {
    Some(result) == StepResult(sealed, provider, clock, k, SucceededIds(sealed.plan.actions, earlier), TotalGas(earlier))
  }

  ghost predicate Simulates(sealed: SealedPlan, provider: Provider, clock: Clock, results: seq<SimulationResult>) {
    && |results| <= |sealed.plan.actions|
    && forall k :: 0 <= k < |results| ==> StepFollows(sealed, provider, clock, k, results[..k], results[k])
  }

  function Executable(actions: seq<RescueAction>, ids: set<string>): seq<RescueAction> {
    Filter((a: RescueAction) => a.id in ids, actions)
  }

  datatype ReportStatus = AllSucceeded | SomeSucceeded | AllFailed

  datatype Excluded = Excluded(actionId: string, status: SimulationStatus, reason: Reason)

  datatype Report = Report(
    planId: string, planHash: string, status: ReportStatus, results: seq<SimulationResult>,
    executableActions: seq<RescueAction>, excludedActions: seq<Excluded>)

  datatype SimulateError = IntegrityFailed | UnrecordableFailure

  function Exclude(result: SimulationResult): seq<Excluded> {
    if result.status.SUCCEEDED? then []
    else [Excluded(result.actionId, result.status,
                   if result.failureReason.Some? then result.failureReason.value else NoFailureReason)]
  }

  lemma {:induction false} SucceededStep(actions: seq<RescueAction>, results: seq<SimulationResult>, result: SimulationResult)
    requires |results| < |actions|
    ensures SucceededIds(actions, results + [result])
         == SucceededIds(actions, results) + (if result.status.SUCCEEDED? then {actions[|results|].id} else {})
  {}

  lemma {:induction false} StepExtends(sealed: SealedPlan, provider: Provider, clock: Clock, results: seq<SimulationResult>, result: SimulationResult)
    requires Simulates(sealed, provider, clock, results) && |results| < |sealed.plan.actions|
    requires StepFollows(sealed, provider, clock, |results|, results, result)
    ensures Simulates(sealed, provider, clock, results + [result])
    ensures TotalGas(results + [result]) == TotalGas(results) + GasOf(result)
  {
    var longer := results + [result];
    assert longer[..|results|] == results;
    forall k | 0 <= k < |longer| ensures StepFollows(sealed, provider, clock, k, longer[..k], longer[k]) {
      if k < |results| {
        assert longer[..k] == results[..k];
        assert longer[k] == results[k];
      }
    }
  }

  /** The loop's variables after the results so far. */
  ghost predicate Running(sealed: SealedPlan, provider: Provider, clock: Clock, results: seq<SimulationResult>, successful: set<string>, gas: nat) {
    && Simulates(sealed, provider, clock, results)
    && successful == SucceededIds(sealed.plan.actions, results) && gas == TotalGas(results)
  }

  lemma {:induction false} RunningStep(sealed: SealedPlan, provider: Provider, clock: Clock, results: seq<SimulationResult>,
                                       successful: set<string>, gas: nat, result: SimulationResult)
    requires |results| < |sealed.plan.actions| && Running(sealed, provider, clock, results, successful, gas)
    requires Some(result) == StepResult(sealed, provider, clock, |results|, successful, gas)
    ensures Running(sealed, provider, clock, results + [result],
                    if result.status.SUCCEEDED? then successful + {sealed.plan.actions[|results|].id} else successful,
                    gas + GasOf(result))
  {
    StepExtends(sealed, provider, clock, results, result);
    SucceededStep(sealed.plan.actions, results, result);
  }

  /** One action, after the results so far; None when a failure cannot be recorded. */
  method SimulateNext(sealed: SealedPlan, provider: Provider, clock: Clock, ghost results: seq<SimulationResult>,
                      i: nat, successful: set<string>, gas: nat)
    returns (outcome: Option<SimulationResult>, successful': set<string>, gas': nat)
    requires i == |results| < |sealed.plan.actions| && Running(sealed, provider, clock, results, successful, gas)
    ensures outcome.Some? ==> Running(sealed, provider, clock, results + [outcome.value], successful', gas')
  {
    outcome, successful', gas' := StepResult(sealed, provider, clock, i, successful, gas), successful, gas;
    if outcome.Some? {
      RunningStep(sealed, provider, clock, results, successful, gas, outcome.value);
      if outcome.value.status.SUCCEEDED? {
        successful' := successful + {sealed.plan.actions[i].id};
        gas' := gas + GasOf(outcome.value);
      }
    }
  }

  /** The loop over the actions. */
  method SimulateAll(sealed: SealedPlan, provider: Provider, clock: Clock)
    returns (simulated: Option<seq<SimulationResult>>, successful: set<string>)
    ensures simulated.Some? ==>
              && |simulated.value| == |sealed.plan.actions|
              && Simulates(sealed, provider, clock, simulated.value)
              && successful == SucceededIds(sealed.plan.actions, simulated.value)
  {
    var results: seq<SimulationResult> := [];
    var cumulativeGas: nat := 0;
    successful := {};
    for i := 0 to |sealed.plan.actions|
      invariant |results| == i && Running(sealed, provider, clock, results, successful, cumulativeGas)
    {
      var outcome;
      outcome, successful, cumulativeGas := SimulateNext(sealed, provider, clock, results, i, successful, cumulativeGas);
      if outcome.None? {
        return None, successful;
      }
      results := results + [outcome.value];
    }
    return Some(results), successful;
  }

  method SimulateRescuePlan(verify: SealedPlan -> bool, sealed: SealedPlan, provider: Provider, clock: Clock)
    returns (r: Result<Report, SimulateError>)
    ensures r == Err(IntegrityFailed) <==> !verify(sealed)
    ensures r.Ok? ==>
              && r.value.planId == sealed.plan.id && r.value.planHash == sealed.integrityHash
              && |r.value.results| == |sealed.plan.actions|
              && Simulates(sealed, provider, clock, r.value.results)
              && r.value.executableActions
                 == Executable(sealed.plan.actions, SucceededIds(sealed.plan.actions, r.value.results))
              && r.value.excludedActions == FlatMap(Exclude, r.value.results)
              && (r.value.status.AllSucceeded? <==> |r.value.executableActions| == |sealed.plan.actions|)
              && (r.value.status.AllFailed? <==> r.value.executableActions == [] && sealed.plan.actions != [])
  {
    if !verify(sealed) {
      return Err(IntegrityFailed);
    }
    var simulated, successful := SimulateAll(sealed, provider, clock);
    if simulated.None? {
      return Err(UnrecordableFailure);
    }
    var results, actions := simulated.value, sealed.plan.actions;
    var executable := Executable(actions, successful);
    return Ok(Report(sealed.plan.id, sealed.integrityHash,
                     if |executable| == |actions| then AllSucceeded else if |executable| > 0 then SomeSucceeded else AllFailed,
                     results, executable, FlatMap(Exclude, results)));
  }

  // ----- what every run promises

  /** Under distinct ids an action is executable exactly when its own simulation succeeded. */
  lemma {:induction false} SucceededAt(actions: seq<RescueAction>, results: seq<SimulationResult>, k: nat)
    requires DistinctIds(actions) && |results| == |actions| && k < |actions|
    ensures actions[k].id in SucceededIds(actions, results) <==> results[k].status.SUCCEEDED?
  {}

  lemma {:induction false} SucceededMonotone(actions: seq<RescueAction>, results: seq<SimulationResult>, k: nat, d: string) returns (m: nat)
    requires k <= |results| <= |actions| && d in SucceededIds(actions, results[..k])
    ensures m < k && results[m].status.SUCCEEDED? && actions[m].id == d
    ensures d in SucceededIds(actions, results)
  {
    m :| 0 <= m < k && results[..k][m].status.SUCCEEDED? && actions[m].id == d;
    assert results[m].status.SUCCEEDED?;
  }

  /** An action succeeds only after all its dependencies. */
  lemma {:induction false} DependenciesSucceededFirst(sealed: SealedPlan, provider: Provider, clock: Clock, results: seq<SimulationResult>, k: nat, d: string)
    requires Simulates(sealed, provider, clock, results) && k < |results| && results[k].status.SUCCEEDED?
    requires d in sealed.plan.actions[k].dependencies
    ensures d in SucceededIds(sealed.plan.actions, results[..k])
  {
    assert StepFollows(sealed, provider, clock, k, results[..k], results[k]);
  }

  /** The executable actions are closed under dependencies. */
  lemma {:induction false} ExecutableClosed(sealed: SealedPlan, provider: Provider, clock: Clock, results: seq<SimulationResult>, a: RescueAction, d: string)
    requires DistinctIds(sealed.plan.actions) && |results| == |sealed.plan.actions|
    requires Simulates(sealed, provider, clock, results)
    requires a in Executable(sealed.plan.actions, SucceededIds(sealed.plan.actions, results)) && d in a.dependencies
    ensures exists b :: b in Executable(sealed.plan.actions, SucceededIds(sealed.plan.actions, results)) && b.id == d
  {
    var actions := sealed.plan.actions;
    var k := SucceededIndex(actions, results, a);
    DependenciesSucceededFirst(sealed, provider, clock, results, k, d);
    var m := SucceededMonotone(actions, results, k, d);
    ExecutableMember(actions, SucceededIds(actions, results), actions[m]);
  }

  lemma {:induction false} ExecutableMember(actions: seq<RescueAction>, ids: set<string>, a: RescueAction)
    ensures a in Executable(actions, ids) <==> a in actions && a.id in ids
  {}

  lemma {:induction false} SucceededIndex(actions: seq<RescueAction>, results: seq<SimulationResult>, a: RescueAction) returns (k: nat)
    requires DistinctIds(actions) && |results| == |actions| && a in Executable(actions, SucceededIds(actions, results))
    ensures k < |results| && actions[k] == a && results[k].status.SUCCEEDED?
  {
    ExecutableMember(actions, SucceededIds(actions, results), a);
    k :| 0 <= k < |actions| && actions[k] == a;
    SucceededAt(actions, results, k);
  }

  /** The ids of the executable and of the excluded actions split the plan, when the provider
      answers about the actions it is asked about. */
  lemma {:induction false} ExcludedIsComplement(sealed: SealedPlan, provider: Provider, clock: Clock, results: seq<SimulationResult>, k: nat)
    requires DistinctIds(sealed.plan.actions) && |results| == |sealed.plan.actions| && k < |results|
    requires Simulates(sealed, provider, clock, results) && Echoes(provider)
    ensures (exists e :: e in FlatMap(Exclude, results) && e.actionId == sealed.plan.actions[k].id) <==>
            sealed.plan.actions[k] !in Executable(sealed.plan.actions, SucceededIds(sealed.plan.actions, results))
  {
    var actions := sealed.plan.actions;
    SucceededAt(actions, results, k);
    assert actions[k] in actions;
    forall m | 0 <= m < |results| ensures results[m].actionId == actions[m].id {
      EchoesIds(sealed, provider, clock, results, m);
    }
    ExcludedAt(actions, results, k);
  }

  lemma {:induction false} ExcludedAt(actions: seq<RescueAction>, results: seq<SimulationResult>, k: nat)
    requires DistinctIds(actions) && |results| == |actions| && k < |results|
    requires forall m :: 0 <= m < |results| ==> results[m].actionId == actions[m].id
    ensures (exists e :: e in FlatMap(Exclude, results) && e.actionId == actions[k].id) <==> !results[k].status.SUCCEEDED?
  {
    FlatMapMember(Exclude, results);
    if e :| e in FlatMap(Exclude, results) && e.actionId == actions[k].id {
      var m :| 0 <= m < |results| && e in Exclude(results[m]);
      assert m == k;
    }
    if !results[k].status.SUCCEEDED? {
      var e := Exclude(results[k])[0];
      assert e in Exclude(results[k]);
      assert e in FlatMap(Exclude, results) && e.actionId == actions[k].id;
    }
  }

  /** The provider answers about the action it is asked about. */
  ghost predicate Echoes(provider: Provider) {
    forall n, q :: provider(n, q).Gave? ==> provider(n, q).result.actionId == q.action.id
  }

  lemma StepEchoes(sealed: SealedPlan, provider: Provider, clock: Clock, k: nat, succeeded: set<string>, gas: nat)
    requires k < |sealed.plan.actions| && Echoes(provider)
    ensures var outcome := StepResult(sealed, provider, clock, k, succeeded, gas);
            outcome.Some? ==> outcome.value.actionId == sealed.plan.actions[k].id
  {}

  lemma {:induction false} EchoesIds(sealed: SealedPlan, provider: Provider, clock: Clock, results: seq<SimulationResult>, k: nat)
    requires Simulates(sealed, provider, clock, results) && Echoes(provider) && k < |results|
    ensures results[k].actionId == sealed.plan.actions[k].id
  {
    var earlier := results[..k];
    assert StepFollows(sealed, provider, clock, k, earlier, results[k]);
    StepEchoes(sealed, provider, clock, k, SucceededIds(sealed.plan.actions, earlier), TotalGas(earlier));
  }

  /** On the planner's plans a native transfer succeeds only if every other action does. */
  lemma {:induction false} NativeNeedsEverything(cmp: Comparison<RescueAction>, r: Request, sealed: SealedPlan, provider: Provider, clock: Clock,
                              results: seq<SimulationResult>, j: nat)
    requires PickOrder(cmp, Actions(ById(PlannedActions(r))), sealed.plan.actions)
    requires Simulates(sealed, provider, clock, results) && |results| == |sealed.plan.actions|
    requires j < |results| && sealed.plan.actions[j].parameters.TransferNative? && results[j].status.SUCCEEDED?
    ensures j == |results| - 1
    ensures forall i :: 0 <= i < |results| ==> results[i].status.SUCCEEDED?
  {
    var actions := sealed.plan.actions;
    PlanProperties.NativeIsLast(cmp, r, actions, j);
    PlanProperties.PickOrderIsTopologicalFor(cmp, r, actions);
    forall i | 0 <= i < j ensures results[i].status.SUCCEEDED? {
      DependenciesSucceededFirst(sealed, provider, clock, results, j, actions[i].id);
      var m := SucceededMonotone(actions, results, j, actions[i].id);
      assert m == i;
    }
  }
}
