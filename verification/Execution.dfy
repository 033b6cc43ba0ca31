/** Building the wallet transaction for a simulated action (packages/execution/src/index.ts). */
module Execution {
  import opened Basics
  import opened RescueActions
  import opened Simulator
  import opened LocalProvider

  datatype WalletTransaction = WalletTransaction(
    actionId: string, chainId: nat, source: string, to: string, value: nat, data: Option<CallData>)

  datatype WalletError =
    | IntegrityFailed | OtherPlan | NotSuccessful | Expired | UnknownAction
    | NoNativeAmount | AboveMaximum | AdapterNeedsBuilder

  /** The first debit of native coin recorded for the source. */
  function NativeDebit(changes: seq<AssetChange>, source: string): Option<nat> {
    if changes == [] then None
    else if changes[0].asset.NativeCoin? && changes[0].direction.DEBIT? && SameText(changes[0].account, source)
    then Some(changes[0].amount)
    else NativeDebit(changes[1..], source)
  }

  function TransactionForAction(a: RescueAction, simulation: SimulationResult): Result<WalletTransaction, WalletError> {
    var source := a.sourceAddress;
    match a.parameters
    case TransferNative(recipient, maximum) =>
      var debit := NativeDebit(simulation.assetChanges, source);
      if debit.None? || debit.value == 0 then Err(NoNativeAmount)
      else if debit.value > maximum then Err(AboveMaximum)
      else Ok(WalletTransaction(a.id, a.chainId, source, recipient, debit.value, None))
    case TransferErc20(token, recipient, amount) =>
      Ok(WalletTransaction(a.id, a.chainId, source, token, 0, Some(Transfer(recipient, amount))))
    case TransferErc721(collection, recipient, tokenId) =>
      Ok(WalletTransaction(a.id, a.chainId, source, collection, 0, Some(SafeTransferFrom(source, recipient, tokenId))))
    case TransferErc1155(collection, recipient, tokenId, amount) =>
      Ok(WalletTransaction(a.id, a.chainId, source, collection, 0, Some(SafeTransferFromAmount(source, recipient, tokenId, amount))))
    case RevokeErc20Approval(token, spender) =>
      Ok(WalletTransaction(a.id, a.chainId, source, token, 0, Some(Approve(spender, 0))))
    case RevokeNftOperator(_, collection, operator) =>
      Ok(WalletTransaction(a.id, a.chainId, source, collection, 0, Some(SetApprovalForAll(operator, false))))
    case _ => Err(AdapterNeedsBuilder)
  }

  function PrepareWalletTransaction(verify: SealedPlan -> bool, sealed: SealedPlan, simulation: SimulationResult, now: int)
    : Result<WalletTransaction, WalletError>
  {
    if !verify(sealed) then Err(WalletError.IntegrityFailed)
    else if simulation.planId != sealed.plan.id || simulation.planHash != sealed.integrityHash then Err(OtherPlan)
    else if !simulation.status.SUCCEEDED? then Err(NotSuccessful)
    else if simulation.expiresAt <= now then Err(Expired)
    else match FindAction(sealed.plan.actions, simulation.actionId)
         case None => Err(UnknownAction)
         case Some(action) => TransactionForAction(action, simulation)
  }

  predicate Carries(tx: WalletTransaction, call: Call) {
    tx.source == call.account && tx.to == call.to && tx.value == call.value && tx.data == call.data
  }

  /** A transaction prepared from a simulated standard action is the call that was simulated;
      the native value, which only the simulation knew, is recovered from the recorded debit. */
  lemma SameAsSimulated(p: Local, request: SimulationRequest, answers: Answers)
    requires Simulate(p, request, answers).status.SUCCEEDED? && !request.action.parameters.IsAdapter()
    ensures Prepare(request.action, request.priorGas, answers).Ok?
    ensures var tx := TransactionForAction(request.action, Simulate(p, request, answers));
            && tx.Ok? && tx.value.actionId == request.action.id && tx.value.chainId == request.action.chainId
            && Carries(tx.value, Prepare(request.action, request.priorGas, answers).value.call)
            && (request.action.parameters.TransferNative? ==> tx.value.value <= request.action.parameters.maximumAmount)
  {}

  /** For a result of the local provider, preparation succeeds exactly when the simulation
      succeeded, has not expired and concerns a standard action, and then it sends what was
      simulated. */
  lemma SimulatedActionsArePrepared(verify: SealedPlan -> bool, p: Local, sealed: SealedPlan, k: nat, gas: nat,
                                                       answers: Answers, now: int)
    requires verify(sealed) && DistinctIds(sealed.plan.actions) && k < |sealed.plan.actions|
    ensures var a := sealed.plan.actions[k];
            var result := Simulate(p, RequestFor(sealed, k, gas), answers);
            var tx := PrepareWalletTransaction(verify, sealed, result, now);
            && (tx.Ok? <==> result.status.SUCCEEDED? && now < result.expiresAt && !a.parameters.IsAdapter())
            && (tx.Ok? ==>
                  && tx.value.actionId == a.id && tx.value.chainId == a.chainId
                  && Prepare(a, gas, answers).Ok? && Carries(tx.value, Prepare(a, gas, answers).value.call))
  {
    var request := RequestFor(sealed, k, gas);
    AboutTheRequest(p, request, answers);
    PreparedAt(verify, sealed, k, Simulate(p, request, answers), now);
    if Simulate(p, request, answers).status.SUCCEEDED? {
      if sealed.plan.actions[k].parameters.IsAdapter() {
        assert TransactionForAction(sealed.plan.actions[k], Simulate(p, request, answers)).Err?;
      } else {
        SameAsSimulated(p, request, answers);
      }
    }
  }

  lemma AboutTheRequest(p: Local, request: SimulationRequest, answers: Answers)
    ensures var result := Simulate(p, request, answers);
            result.planId == request.planId && result.planHash == request.planHash && result.actionId == request.action.id
  {}

  lemma PreparedAt(verify: SealedPlan -> bool, sealed: SealedPlan, k: nat, result: SimulationResult, now: int)
    requires verify(sealed) && DistinctIds(sealed.plan.actions) && k < |sealed.plan.actions|
    requires result.planId == sealed.plan.id && result.planHash == sealed.integrityHash
    requires result.actionId == sealed.plan.actions[k].id
    ensures PrepareWalletTransaction(verify, sealed, result, now)
         == if !result.status.SUCCEEDED? then Err(NotSuccessful)
            else if result.expiresAt <= now then Err(Expired)
            else TransactionForAction(sealed.plan.actions[k], result)
  {
    FoundAt(sealed.plan.actions, k);
  }

  lemma {:induction false} FoundAt(actions: seq<RescueAction>, k: nat)
    requires DistinctIds(actions) && k < |actions|
    ensures FindAction(actions, actions[k].id) == Some(actions[k])
  {
    assert actions[k] in actions;
    assert actions[k].id in IdSet(actions);
    SameIdSameAction(actions, FindAction(actions, actions[k].id).value, actions[k]);
  }

  /** Whatever result it is given, a prepared transaction does what the named action of the plan
      says, and moves no more than the planned maximum. */
  lemma PreparedFollowsPlan(verify: SealedPlan -> bool, sealed: SealedPlan, simulation: SimulationResult, now: int)
    requires PrepareWalletTransaction(verify, sealed, simulation, now).Ok?
    ensures verify(sealed) && simulation.planId == sealed.plan.id && simulation.planHash == sealed.integrityHash
    ensures simulation.status.SUCCEEDED? && now < simulation.expiresAt
    ensures var tx := PrepareWalletTransaction(verify, sealed, simulation, now).value;
            exists a :: a in sealed.plan.actions && a.id == simulation.actionId && tx.source == a.sourceAddress
                        && tx.actionId == a.id && tx.chainId == a.chainId
                        && match a.parameters
                           case TransferNative(recipient, maximum) =>
                             tx.to == recipient && tx.data == None && 0 < tx.value <= maximum
                           case TransferErc20(token, recipient, amount) =>
                             tx.to == token && tx.data == Some(Transfer(recipient, amount)) && tx.value == 0
                           case TransferErc721(collection, recipient, tokenId) =>
                             tx.to == collection && tx.data == Some(SafeTransferFrom(a.sourceAddress, recipient, tokenId)) && tx.value == 0
                           case TransferErc1155(collection, recipient, tokenId, amount) =>
                             tx.to == collection && tx.value == 0
                             && tx.data == Some(SafeTransferFromAmount(a.sourceAddress, recipient, tokenId, amount))
                           case RevokeErc20Approval(token, spender) =>
                             tx.to == token && tx.data == Some(Approve(spender, 0)) && tx.value == 0
                           case RevokeNftOperator(_, collection, operator) =>
                             tx.to == collection && tx.data == Some(SetApprovalForAll(operator, false)) && tx.value == 0
                           case _ => false
  {}
}
