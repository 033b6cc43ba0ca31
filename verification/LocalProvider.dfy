/** The provider that simulates an action against a chain client
    (packages/simulator/src/local-provider.ts), and the wallet transaction later built from its
    result (packages/execution/src/index.ts). Encoded call data is a value that names the
    function and its arguments, so different calls have different data. */
module LocalProvider {
  import opened Basics
  import opened Sorting
  import opened RescueActions
  import opened Ordering
  import opened Planner
  import opened Simulator

  datatype CallData =
    | Transfer(recipient: string, amount: nat)
    | Approve(spender: string, amount: nat)
    | SafeTransferFrom(source: string, recipient: string, tokenId: nat)
    | SafeTransferFromAmount(source: string, recipient: string, tokenId: nat, amount: nat)
    | SetApprovalForAll(operator: string, approved: bool)
    | AdapterData(bytes: string)

  datatype Call = Call(account: string, to: string, value: nat, data: Option<CallData>)

  datatype Prepared = Prepared(call: Call, changes: seq<AssetChange>, expectsBoolean: bool, gas: Option<nat>)

  datatype ReturnData = NoData | Bool(success: bool) | Undecodable

  /** What the client answers while one action is simulated; Err carries the text of an error. */
  datatype Answers = Answers(
    gas: Result<nat, string>, price: Result<nat, string>, balance: Result<nat, string>,
    returned: Result<ReturnData, string>, adapter: Result<Prepared, string>, now: int)

  datatype Local = Local(
    chainId: nat, estimateGas: bool, ttl: int, resolves: RescueAction -> bool, mentionsRevert: string -> bool)

  function Supports(p: Local, chainId: nat, a: RescueAction): Option<string> {
    if chainId != p.chainId || a.chainId != chainId then Some("Simulation chain does not match the action")
    else if a.parameters.IsAdapter() && !p.resolves(a) then Some("Adapter action requires a reviewed local simulation resolver")
    else None
  }

  function TransferChanges(asset: Moved, amount: nat, source: string, destination: string): seq<AssetChange> {
    [AssetChange(asset, source, DEBIT, amount), AssetChange(asset, destination, CREDIT, amount)]
  }

  function Minimum(x: nat, y: nat): nat {
    if x < y then x else y
  }

  /** The native amount is what is left of the capped balance after gas for this and all
      earlier actions. */
  function PrepareNative(a: RescueAction, prior: nat, answers: Answers): Result<Prepared, string>
    requires a.parameters.TransferNative?
  {
    match (answers.gas, answers.price, answers.balance)
    case (Ok(gas), Ok(price), Ok(balance)) =>
      var reserve := (gas + prior) * price;
      var capped := Minimum(balance, a.parameters.maximumAmount);
      if capped <= reserve then Err("Insufficient native balance after reserving estimated gas")
      else Ok(Prepared(Call(a.sourceAddress, a.parameters.recipient, capped - reserve, None),
                       TransferChanges(NativeCoin, capped - reserve, a.sourceAddress, a.parameters.recipient), false, Some(gas)))
    case (Err(reason), _, _) => Err(reason)
    case (_, Err(reason), _) => Err(reason)
    case (_, _, Err(reason)) => Err(reason)
  }

  function Prepare(a: RescueAction, prior: nat, answers: Answers): Result<Prepared, string> {
    var source := a.sourceAddress;
    match a.parameters
    case TransferNative(_, _) => PrepareNative(a, prior, answers)
    case TransferErc20(token, recipient, amount) =>
      Ok(Prepared(Call(source, token, 0, Some(Transfer(recipient, amount))),
                  TransferChanges(Erc20Token(token), amount, source, recipient), true, None))
    case TransferErc721(collection, recipient, tokenId) =>
      Ok(Prepared(Call(source, collection, 0, Some(SafeTransferFrom(source, recipient, tokenId))),
                  TransferChanges(Moved.Erc721Token(collection, tokenId), 1, source, recipient), false, None))
    case TransferErc1155(collection, recipient, tokenId, amount) =>
      Ok(Prepared(Call(source, collection, 0, Some(SafeTransferFromAmount(source, recipient, tokenId, amount))),
                  TransferChanges(Erc1155Token(collection, tokenId), amount, source, recipient), false, None))
    case RevokeErc20Approval(token, spender) =>
      Ok(Prepared(Call(source, token, 0, Some(Approve(spender, 0))), [], true, None))
    case RevokeNftOperator(_, collection, operator) =>
      Ok(Prepared(Call(source, collection, 0, Some(SetApprovalForAll(operator, false))), [], false, None))
    case _ => answers.adapter
  }

  function ValidReturn(prepared: Prepared, returned: ReturnData): Result<bool, string> {
    if !prepared.expectsBoolean then Ok(true)
    else match returned
         case NoData => Err("Expected a boolean success result from the token contract")
         case Undecodable => Err("Return data cannot be decoded")
         case Bool(success) => if success then Ok(true) else Err("Token contract returned false during simulation")
  }

  /** Prepare, call, check the returned data, estimate gas. */
  function Try(p: Local, request: SimulationRequest, answers: Answers): Result<(Prepared, Option<nat>), string> {
    match Prepare(request.action, request.priorGas, answers)
    case Err(reason) => Err(reason)
    case Ok(prepared) =>
      if answers.returned.Err? then Err(answers.returned.error)
      else if ValidReturn(prepared, answers.returned.value).Err? then Err(ValidReturn(prepared, answers.returned.value).error)
      else if prepared.gas.Some? then Ok((prepared, prepared.gas))
      else if !p.estimateGas then Ok((prepared, None))
      else if answers.gas.Err? then Err(answers.gas.error)
      else Ok((prepared, Some(answers.gas.value)))
  }

  function Failed(p: Local, request: SimulationRequest, status: SimulationStatus, reason: string, now: int): SimulationResult {
    SimulationResult(request.planId, request.planHash, request.action.id, status, None, [],
                     Some(if reason == "" then NoProviderReason else Said(reason)), now, now + p.ttl)
  }

  function Simulate(p: Local, request: SimulationRequest, answers: Answers): SimulationResult {
    var unsupported := Supports(p, request.action.chainId, request.action);
    if unsupported.Some? then Failed(p, request, SimulationStatus.UNSUPPORTED, unsupported.value, answers.now)
    else match Try(p, request, answers)
         case Ok((prepared, gas)) =>
           SimulationResult(request.planId, request.planHash, request.action.id, SUCCEEDED, gas, prepared.changes, None,
                            answers.now, answers.now + p.ttl)
         case Err(reason) =>
           Failed(p, request, if p.mentionsRevert(reason) then REVERTED else ERROR, reason, answers.now)
  }

  /** The provider as the orchestrator sees it. */
  function Asked(p: Local, chainId: nat, client: nat -> Answers): Provider {
    (n: nat, request: SimulationRequest) =>
      var unsupported := Supports(p, chainId, request.action);
      if unsupported.Some? then Refused(unsupported) else Gave(Simulate(p, request, client(n)))
  }

  // ----- what a result says

  /** The provider knows how to simulate the action. */
  ghost predicate Knows(p: Local, a: RescueAction) {
    a.chainId == p.chainId && (a.parameters.IsAdapter() ==> p.resolves(a))
  }

  /** The call was answered, and by a token that says so, if it should, with true; and there is an
      estimate of its gas, if there should be one. */
  ghost predicate Answered(p: Local, answers: Answers, expectsBoolean: bool, gas: Option<nat>) {
    && answers.returned.Ok? && (expectsBoolean ==> answers.returned.value == Bool(true))
    && (gas.None? && p.estimateGas ==> answers.gas.Ok?)
  }

  /** Gas for this and all earlier actions leaves something of the balance and of the planned maximum. */
  ghost predicate LeavesSomething(prior: nat, maximum: nat, answers: Answers) {
    && answers.gas.Ok? && answers.price.Ok? && answers.balance.Ok?
    && (answers.gas.value + prior) * answers.price.value < answers.balance.value
    && (answers.gas.value + prior) * answers.price.value < maximum
  }

  ghost predicate Works(p: Local, request: SimulationRequest, answers: Answers) {
    match request.action.parameters
    case TransferNative(_, maximum) => LeavesSomething(request.priorGas, maximum, answers) && answers.returned.Ok?
    case TransferErc20(_, _, _) => Answered(p, answers, true, None)
    case RevokeErc20Approval(_, _) => Answered(p, answers, true, None)
    case TransferErc721(_, _, _) => Answered(p, answers, false, None)
    case TransferErc1155(_, _, _, _) => Answered(p, answers, false, None)
    case RevokeNftOperator(_, _, _) => Answered(p, answers, false, None)
    case _ => answers.adapter.Ok? && Answered(p, answers, answers.adapter.value.expectsBoolean, answers.adapter.value.gas)
  }

  /** The source loses this much of the asset and the recipient gains as much, and nothing else changes. */
  ghost predicate Moves(changes: seq<AssetChange>, asset: Moved, amount: nat, source: string, recipient: string) {
    changes == [AssetChange(asset, source, DEBIT, amount), AssetChange(asset, recipient, CREDIT, amount)]
  }

  /** The recorded changes are those of the action itself. */
  ghost predicate ChangesFit(a: RescueAction, changes: seq<AssetChange>, answers: Answers) {
    match a.parameters
    case TransferNative(recipient, maximum) =>
      exists value: nat :: 0 < value <= maximum && Moves(changes, NativeCoin, value, a.sourceAddress, recipient)
    case TransferErc20(token, recipient, amount) => Moves(changes, Erc20Token(token), amount, a.sourceAddress, recipient)
    case TransferErc721(collection, recipient, tokenId) =>
      Moves(changes, Moved.Erc721Token(collection, tokenId), 1, a.sourceAddress, recipient)
    case TransferErc1155(collection, recipient, tokenId, amount) =>
      Moves(changes, Erc1155Token(collection, tokenId), amount, a.sourceAddress, recipient)
    case RevokeErc20Approval(_, _) => changes == []
    case RevokeNftOperator(_, _, _) => changes == []
    case _ => answers.adapter.Ok? && changes == answers.adapter.value.changes
  }

  lemma WorksIff(p: Local, request: SimulationRequest, answers: Answers)
    ensures Try(p, request, answers).Ok? <==> Works(p, request, answers)
  {
    if request.action.parameters.TransferNative? {
      assert PrepareNative(request.action, request.priorGas, answers).Ok? <==>
             LeavesSomething(request.priorGas, request.action.parameters.maximumAmount, answers);
    }
  }

  /** A simulation succeeds exactly if the action is known and its call works; otherwise it gives a
      reason, and is a revert exactly if that mentions one. */
  lemma SimulationSucceedsIff(p: Local, request: SimulationRequest, answers: Answers)
    ensures var r := Simulate(p, request, answers);
            && r.planId == request.planId && r.planHash == request.planHash && r.actionId == request.action.id
            && r.simulatedAt == answers.now && r.expiresAt == answers.now + p.ttl
            && (r.status.UNSUPPORTED? <==> !Knows(p, request.action))
            && (r.status.SUCCEEDED? <==> Knows(p, request.action) && Works(p, request, answers))
            && (r.status.SUCCEEDED? <==> r.failureReason.None?)
            && (r.status.REVERTED? || r.status.ERROR? ==>
                  exists reason :: (r.status.REVERTED? <==> p.mentionsRevert(reason))
                                   && r.failureReason == Some(if reason == "" then NoProviderReason else Said(reason)))
  {
    WorksIff(p, request, answers);
  }

  /** A successful simulation records what the action moves and what gas was estimated, a failed one nothing. */
  lemma SimulationRecords(p: Local, request: SimulationRequest, answers: Answers)
    ensures var a, r := request.action, Simulate(p, request, answers);
            if r.status.SUCCEEDED? then
              && ChangesFit(a, r.assetChanges, answers)
              && (!a.parameters.IsAdapter() && answers.gas.Ok? ==>
                    r.gasEstimate == if p.estimateGas || a.parameters.TransferNative? then Some(answers.gas.value) else None)
            else r.assetChanges == [] && r.gasEstimate.None?
  {
    var a, r := request.action, Simulate(p, request, answers);
    if r.status.SUCCEEDED? && a.parameters.TransferNative? {
      NativeChanges(a, request.priorGas, answers);
    }
  }

  lemma NativeChanges(a: RescueAction, prior: nat, answers: Answers)
    requires a.parameters.TransferNative? && PrepareNative(a, prior, answers).Ok?
    ensures ChangesFit(a, PrepareNative(a, prior, answers).value.changes, answers)
  {
    var prepared := PrepareNative(a, prior, answers).value;
    assert (answers.gas.value + prior) * answers.price.value >= 0;
    assert Moves(prepared.changes, NativeCoin, prepared.call.value, a.sourceAddress, a.parameters.recipient);
  }

  /** The value of a native transfer and the gas set aside for it are the balance, or the
      planned maximum if that is smaller. */
  ghost predicate SpendsTheRest(a: RescueAction, result: SimulationResult, gas: nat, answers: Answers)
    requires a.parameters.TransferNative?
  {
    && answers.price.Ok? && answers.balance.Ok?
    && exists value: nat ::
         && value > 0
         && result.assetChanges == TransferChanges(NativeCoin, value, a.sourceAddress, a.parameters.recipient)
         && value + gas * answers.price.value == Minimum(answers.balance.value, a.parameters.maximumAmount)
  }

  lemma NativePreparation(p: Local, request: SimulationRequest, answers: Answers, result: SimulationResult)
    requires request.action.parameters.TransferNative? && result == Simulate(p, request, answers) && result.status.SUCCEEDED?
    ensures answers.gas.Ok? && result.gasEstimate == Some(answers.gas.value)
    ensures SpendsTheRest(request.action, result, answers.gas.value + request.priorGas, answers)
  {}

  lemma AskedGives(p: Local, chainId: nat, client: nat -> Answers, n: nat, request: SimulationRequest)
    ensures var answer := Asked(p, chainId, client)(n, request);
            answer.Refused? || answer == Gave(Simulate(p, request, client(n)))
  {}

  /** The provider answers about the action it is asked about. */
  lemma AskedEchoes(p: Local, chainId: nat, client: nat -> Answers)
    ensures Echoes(Asked(p, chainId, client))
  {
    forall n, request | Asked(p, chainId, client)(n, request).Gave?
      ensures Asked(p, chainId, client)(n, request).result.actionId == request.action.id
    {
      AskedGives(p, chainId, client, n, request);
    }
  }

  lemma OutcomeSucceeds(request: SimulationRequest, answer: Answer, now: int)
    requires Outcome(request, answer, now).Some? && Outcome(request, answer, now).value.status.SUCCEEDED?
    ensures answer == Gave(Outcome(request, answer, now).value)
  {}

  /** A successful result is the provider's own. */
  lemma {:induction false} SucceededResult(p: Local, sealed: SealedPlan, client: nat -> Answers, clock: Clock,
                                           results: seq<SimulationResult>, j: nat)
    requires j < |results| <= |sealed.plan.actions| && results[j].status.SUCCEEDED?
    requires Simulates(sealed, Asked(p, sealed.plan.chainId, client), clock, results)
    ensures results[j] == Simulate(p, RequestFor(sealed, j, TotalGas(results[..j])), client(j))
  {
    var provider := Asked(p, sealed.plan.chainId, client);
    var request := RequestFor(sealed, j, TotalGas(results[..j]));
    assert StepFollows(sealed, provider, clock, j, results[..j], results[j]);
    OutcomeSucceeds(request, provider(j, request), clock(j));
    AskedGives(p, sealed.plan.chainId, client, j, request);
  }

  lemma {:induction false} TotalGasWithLast(results: seq<SimulationResult>, gas: nat)
    requires results != []
    requires results[|results| - 1].status.SUCCEEDED? && results[|results| - 1].gasEstimate == Some(gas)
    ensures TotalGas(results) == gas + TotalGas(results[..|results| - 1])
  {}

  lemma {:induction false} LastNativeSpends(p: Local, sealed: SealedPlan, client: nat -> Answers, clock: Clock, results: seq<SimulationResult>)
    requires |results| == |sealed.plan.actions| && results != []
    requires Simulates(sealed, Asked(p, sealed.plan.chainId, client), clock, results)
    requires var j := |results| - 1; sealed.plan.actions[j].parameters.TransferNative? && results[j].status.SUCCEEDED?
    ensures SpendsTheRest(sealed.plan.actions[|results| - 1], results[|results| - 1], TotalGas(results), client(|results| - 1))
  {
    var j := |results| - 1;
    SucceededResult(p, sealed, client, clock, results, j);
    NativePreparation(p, RequestFor(sealed, j, TotalGas(results[..j])), client(j), results[j]);
    TotalGasWithLast(results, client(j).gas.value);
  }

  /** On the planner's plans the gas set aside is the gas recorded for the whole plan. */
  lemma {:induction false} NativeSpendsTheRest(cmp: Comparison<RescueAction>, r: Request, p: Local, sealed: SealedPlan,
                                               client: nat -> Answers, clock: Clock, results: seq<SimulationResult>, j: nat)
    requires PickOrder(cmp, Actions(ById(PlannedActions(r))), sealed.plan.actions)
    requires |results| == |sealed.plan.actions| && j < |results|
    requires Simulates(sealed, Asked(p, sealed.plan.chainId, client), clock, results)
    requires sealed.plan.actions[j].parameters.TransferNative? && results[j].status.SUCCEEDED?
    ensures SpendsTheRest(sealed.plan.actions[j], results[j], TotalGas(results), client(j))
  {
    NativeNeedsEverything(cmp, r, sealed, Asked(p, sealed.plan.chainId, client), clock, results, j);
    LastNativeSpends(p, sealed, client, clock, results);
  }
}
