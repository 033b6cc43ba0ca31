/** What the delegate does for one action of a package
    (contracts/src/SafeExit7702RescueDelegate.sol:230-420), and that it is what the plan says. */
module DelegateCalls {
  import opened Basics
  import opened RescueActions
  import opened Simulator
  import opened LocalProvider
  import opened DelegatePackage
  import Execution
  import Planner
  import Jobs

  /** _resolveAmount: the largest amount stands for all there is; None where it reverts. */
  function Resolve(requested: nat, available: nat): Option<nat> {
    var amount := if requested == FULL_BALANCE then available else requested;
    if 0 < amount <= available then Some(amount) else None
  }

  /** _executeAction: the one call made from the source, when it holds `available` of the asset and the
      asset's contract exists; None where it reverts before that call. */
  function CallFor(d: Delegated, source: string, destination: string, available: nat): Option<Call> {
    var transfers := !IsZero(d.asset) && !SameText(d.asset, source) && SameText(d.counterparty, destination);
    var approves := !IsZero(d.asset) && !SameText(d.asset, source) && !IsZero(d.counterparty) && d.tokenId == 0 && d.amount == 0;
    var amount := Resolve(d.amount, available);
    match d.kind
    case NATIVE =>
      if !IsZero(d.asset) || !SameText(d.counterparty, destination) || d.tokenId != 0 || amount.None? then None
      else Some(Call(source, destination, amount.value, None))
    case ERC20 =>
      if !transfers || d.tokenId != 0 || amount.None? then None
      else Some(Call(source, d.asset, 0, Some(Transfer(destination, amount.value))))
    case ERC721 =>
      if !transfers || d.amount != 1 then None
      else Some(Call(source, d.asset, 0, Some(SafeTransferFrom(source, destination, d.tokenId))))
    case ERC1155 =>
      if !transfers || amount.None? then None
      else Some(Call(source, d.asset, 0, Some(SafeTransferFromAmount(source, destination, d.tokenId, amount.value))))
    case REVOKE_ERC20 =>
      if !approves then None else Some(Call(source, d.asset, 0, Some(Approve(d.counterparty, 0))))
    case REVOKE_NFT =>
      if !approves then None else Some(Call(source, d.asset, 0, Some(SetApprovalForAll(d.counterparty, false))))
  }

  // ----- calls that differ in the spelling of addresses only

  predicate SameData(x: CallData, y: CallData) {
    match (x, y)
    case (Transfer(r, n), Transfer(s, m)) => SameText(r, s) && n == m
    case (Approve(r, n), Approve(s, m)) => SameText(r, s) && n == m
    case (SafeTransferFrom(f, r, t), SafeTransferFrom(g, s, u)) => SameText(f, g) && SameText(r, s) && t == u
    case (SafeTransferFromAmount(f, r, t, n), SafeTransferFromAmount(g, s, u, m)) =>
      SameText(f, g) && SameText(r, s) && t == u && n == m
    case (SetApprovalForAll(o, b), SetApprovalForAll(p, c)) => SameText(o, p) && b == c
    case _ => false
  }

  predicate SameCall(x: Call, y: Call) {
    && SameText(x.account, y.account) && SameText(x.to, y.to) && x.value == y.value
    && match (x.data, y.data)
       case (None, None) => true
       case (Some(d), Some(e)) => SameData(d, e)
       case _ => false
  }

  /** How much of its asset an action of the plan moves, if it moves an amount. */
  function AmountOf(a: RescueAction): Option<nat> {
    match a.parameters
    case TransferErc20(_, _, amount) => Some(amount)
    case TransferErc1155(_, _, _, amount) => Some(amount)
    case _ => None
  }

  /** The call simulated for an action other than a native transfer. */
  function PlannedCall(a: RescueAction, prior: nat, answers: Answers): Option<Call> {
    match Prepare(a, prior, answers)
    case Ok(prepared) => Some(prepared.call)
    case Err(_) => None
  }

  lemma MatchingRevocation(plan: RescueActions.Plan, p: LocalPackage, i: nat, a: RescueAction, available: nat, prior: nat, answers: Answers)
    requires i < |p.actionIds| && i < |p.actions| && MatchesPlan(plan, p, i) && ActionValid(p.actions[i], p)
    requires FindAction(plan.actions, p.actionIds[i]) == Some(a) && Planner.IsRevocation(a)
    ensures var made := CallFor(p.actions[i], p.sourceAddress, p.destinationAddress, available);
            && made.Some? && PlannedCall(a, prior, answers).Some?
            && SameCall(made.value, PlannedCall(a, prior, answers).value)
  {}

  lemma MatchingTransfer(plan: RescueActions.Plan, p: LocalPackage, i: nat, a: RescueAction, available: nat, prior: nat, answers: Answers)
    requires i < |p.actionIds| && i < |p.actions| && MatchesPlan(plan, p, i) && ActionValid(p.actions[i], p)
    requires FindAction(plan.actions, p.actionIds[i]) == Some(a) && !Planner.IsRevocation(a) && !a.parameters.TransferNative?
    requires AmountOf(a).Some? ==> AmountOf(a).value <= available && AmountOf(a).value != FULL_BALANCE
    ensures var made := CallFor(p.actions[i], p.sourceAddress, p.destinationAddress, available);
            && made.Some? && PlannedCall(a, prior, answers).Some?
            && SameCall(made.value, PlannedCall(a, prior, answers).value)
  {}

  /** An action of a package that matches the plan's makes the call that was simulated for it, up to
      the spelling of addresses, if the source holds the amount. */
  lemma MatchingActsAsPlanned(plan: RescueActions.Plan, p: LocalPackage, i: nat, a: RescueAction, available: nat, prior: nat, answers: Answers)
    requires i < |p.actionIds| && i < |p.actions| && MatchesPlan(plan, p, i) && ActionValid(p.actions[i], p)
    requires FindAction(plan.actions, p.actionIds[i]) == Some(a) && !a.parameters.TransferNative?
    requires AmountOf(a).Some? ==> AmountOf(a).value <= available && AmountOf(a).value != FULL_BALANCE
    ensures var made := CallFor(p.actions[i], p.sourceAddress, p.destinationAddress, available);
            && made.Some? && PlannedCall(a, prior, answers).Some?
            && SameCall(made.value, PlannedCall(a, prior, answers).value)
  {
    if Planner.IsRevocation(a) {
      MatchingRevocation(plan, p, i, a, available, prior, answers);
    } else {
      MatchingTransfer(plan, p, i, a, available, prior, answers);
    }
  }

  /** A native transfer moves all the source holds, to the planned recipient. */
  lemma NativeMovesAll(plan: RescueActions.Plan, p: LocalPackage, i: nat, a: RescueAction, available: nat)
    requires i < |p.actionIds| && i < |p.actions| && MatchesPlan(plan, p, i) && ActionValid(p.actions[i], p)
    requires FindAction(plan.actions, p.actionIds[i]) == Some(a) && a.parameters.TransferNative? && available > 0
    ensures var made := CallFor(p.actions[i], p.sourceAddress, p.destinationAddress, available);
            && made.Some? && SameText(made.value.account, a.sourceAddress)
            && SameText(made.value.to, a.parameters.recipient) && made.value.value == available && made.value.data.None?
  {}

  /** Only a token amount of 2^256 - 1 is taken for another: for all there is. */
  lemma LargestAmountMovesAll(plan: RescueActions.Plan, p: LocalPackage, i: nat, a: RescueAction, available: nat)
    requires i < |p.actionIds| && i < |p.actions| && MatchesPlan(plan, p, i) && ActionValid(p.actions[i], p)
    requires FindAction(plan.actions, p.actionIds[i]) == Some(a) && a.parameters.TransferErc20? && 0 < available
    requires a.parameters.amount == FULL_BALANCE
    ensures var made := CallFor(p.actions[i], p.sourceAddress, p.destinationAddress, available);
            made.Some? && made.value.data == Some(Transfer(p.destinationAddress, available))
  {}

  /** The wallet's own transaction for such an action is that call as well. */
  lemma WalletMakesPlannedCall(a: RescueAction, simulation: SimulationResult, prior: nat, answers: Answers)
    requires !a.parameters.TransferNative? && !a.parameters.IsAdapter()
    ensures var tx := Execution.TransactionForAction(a, simulation);
            tx.Ok? && PlannedCall(a, prior, answers).Some? && Execution.Carries(tx.value, PlannedCall(a, prior, answers).value)
  {}

  /** What a package's i-th action does is what the plan's action of that id does: the same call for a
      transfer of an amount the source holds, or for a revocation; all it holds for native coin. */
  ghost predicate ActsAsPlanned(plan: RescueActions.Plan, p: LocalPackage, i: nat, available: nat)
    requires i < |p.actionIds| && i < |p.actions|
  {
    var a := FindAction(plan.actions, p.actionIds[i]);
    var made := CallFor(p.actions[i], p.sourceAddress, p.destinationAddress, available);
    && a.Some?
    && if a.value.parameters.TransferNative? then
         available > 0 ==>
           && made.Some? && SameText(made.value.account, a.value.sourceAddress)
           && SameText(made.value.to, a.value.parameters.recipient) && made.value.value == available && made.value.data.None?
       else
         (AmountOf(a.value).Some? ==> AmountOf(a.value).value <= available && AmountOf(a.value).value != FULL_BALANCE) ==>
           forall prior, answers ::
             && made.Some? && PlannedCall(a.value, prior, answers).Some?
             && SameCall(made.value, PlannedCall(a.value, prior, answers).value)
  }

  lemma MatchingActs(plan: RescueActions.Plan, p: LocalPackage, i: nat, available: nat)
    requires i < |p.actionIds| && i < |p.actions| && MatchesPlan(plan, p, i) && ActionValid(p.actions[i], p)
    ensures ActsAsPlanned(plan, p, i, available)
  {
    var a := FindAction(plan.actions, p.actionIds[i]).value;
    if a.parameters.TransferNative? {
      if available > 0 {
        NativeMovesAll(plan, p, i, a, available);
      }
    } else if AmountOf(a).Some? ==> AmountOf(a).value <= available && AmountOf(a).value != FULL_BALANCE {
      forall prior, answers
        ensures var made := CallFor(p.actions[i], p.sourceAddress, p.destinationAddress, available);
                && made.Some? && PlannedCall(a, prior, answers).Some?
                && SameCall(made.value, PlannedCall(a, prior, answers).value)
      {
        MatchingActsAsPlanned(plan, p, i, a, available, prior, answers);
      }
    }
  }

  /** What the package relies on is this job's: its plan and block, the accounts of the request, and for
      each action a successful simulation that outlasts the package. */
  ghost predicate BelongsTo(request: TaskRequest, j: Jobs.Job, p: LocalPackage, now: int) {
    && j.incident.Some? && j.plan.Some? && j.simulation.Some?
    && p.jobId == j.id && p.incidentId == j.incident.value.id && p.planId == j.plan.value.plan.id
    && Lower(p.planHash) == Lower(j.plan.value.integrityHash) && p.observedAtBlock == j.plan.value.plan.observedAtBlock
    && p.chainId == request.chainId == RESCUE_CHAIN && Lower(p.sourceAddress) == Lower(request.sourceAddress)
    && Lower(p.destinationAddress) == Lower(request.destinationAddress) && now < p.expiresAt
    && |p.actionIds| == |p.actions| == |p.resultIds|
    && forall i :: 0 <= i < |p.actionIds| ==>
         && p.actionIds[i] in j.simulation.value.executableActionIds
         && exists x :: x in j.simulation.value.results && x.id == p.resultIds[i] && x.result.actionId == p.actionIds[i]
                        && x.result.status.SUCCEEDED? && x.providerId == p.providerId && x.result.expiresAt > p.expiresAt
  }

  lemma {:induction false} CommittedIsEarlier(report: Jobs.SimulationReport, ids: seq<string>, i: nat)
    requires i < |ids| && forall k :: 0 <= k < |ids| ==> FirstRecorded(report.results, ids[k]).Some?
    ensures CommittedExpiry(report, ids) <= FirstRecorded(report.results, ids[i]).value.result.expiresAt
  {
    if i < |ids| - 1 {
      CommittedIsEarlier(report, ids[..|ids| - 1], i);
    }
  }

  /** A package that passes the hand-over check belongs to the job and the request it is handed over for. */
  lemma PassingBelongs(hash: seq<Delegated> -> string, request: TaskRequest, j: Jobs.Job, p: LocalPackage, now: int)
    requires InSigningScope(hash, request, j, p, now)
    ensures BelongsTo(request, j, p, now) && Lower(p.delegatePlanHash) == Lower(hash(p.actions))
  {
    var report := j.simulation.value;
    forall i | 0 <= i < |p.actionIds|
      ensures exists x :: x in report.results && x.id == p.resultIds[i] && x.result.actionId == p.actionIds[i]
                          && x.result.status.SUCCEEDED? && x.providerId == p.providerId && x.result.expiresAt > p.expiresAt
    {
      assert MatchesSimulation(report, p, i);
      CommittedIsEarlier(report, p.actionIds, i);
      var x := FirstRecorded(report.results, p.actionIds[i]).value;
      assert x in report.results;
    }
  }

  /** An assembled package names the delegate and factory it was assembled for, and commits to its actions. */
  lemma AssembledNames(verify: SealedPlan -> bool, trusted: string, hash: seq<Delegated> -> string, c: Context,
                       factory: string, delegate: string, now: int)
    requires Assemble(verify, trusted, hash, c, factory, delegate, now).Ok?
    ensures var p := Assemble(verify, trusted, hash, c, factory, delegate, now).value;
            && verify(c.sealed) && p.factoryAddress == factory && p.delegateAddress == delegate
            && Lower(p.delegatePlanHash) == Lower(hash(p.actions))
            && p.chainId == c.sealed.plan.chainId == RESCUE_CHAIN && p.providerId == trusted
  {
    AssembledIsDraft(verify, trusted, hash, c, factory, delegate, now);
  }

  /** The action belongs into a package: it needs no adapter, and the trusted provider's simulation of it
      succeeded and has not expired. */
  ghost predicate Rescuable(trusted: string, report: Jobs.SimulationReport, a: RescueAction, now: int) {
    && !a.parameters.IsAdapter() && a.supportStatus.SUPPORTED? && a.id in report.executableActionIds && report.providerId == trusted
    && exists x :: x in report.results && x.result.actionId == a.id && x.result.status.SUCCEEDED?
                   && x.providerId == trusted && x.result.expiresAt > now
  }

  lemma RescuableIff(trusted: string, report: Jobs.SimulationReport, a: RescueAction, now: int)
    requires OneResultEach(report)
    ensures IsEligible(trusted, report, a, now) <==> Rescuable(trusted, report, a, now)
  {
    var recorded := LastRecorded(report.results, a.id);
    if recorded.Some? {
      assert recorded.value in report.results;
    }
  }

  lemma {:induction false} EligibleInOrder(trusted: string, report: Jobs.SimulationReport, actions: seq<RescueAction>, now: int, i: nat, k: nat)
    returns (m: nat, n: nat)
    requires i < k < |Eligible(trusted, report, actions, now)|
    ensures m < n < |actions|
    ensures actions[m] == Eligible(trusted, report, actions, now)[i].action
    ensures actions[n] == Eligible(trusted, report, actions, now)[k].action
  {
    var init := actions[..|actions| - 1];
    var before := Eligible(trusted, report, init, now);
    if k < |before| {
      m, n := EligibleInOrder(trusted, report, init, now, i, k);
    } else {
      EligibleMembers(trusted, report, init, now);
      assert before[i] in before;
      m :| 0 <= m < |init| && init[m] == before[i].action;
      n := |actions| - 1;
    }
  }

  lemma SelectedIffRescuable(trusted: string, report: Jobs.SimulationReport, actions: seq<RescueAction>, now: int, a: RescueAction)
    requires DistinctIds(actions) && OneResultEach(report) && a in actions
    ensures a.id in IdsOf(Eligible(trusted, report, actions, now)) <==> Rescuable(trusted, report, a, now)
  {
    var selected := Eligible(trusted, report, actions, now);
    EligibleMembers(trusted, report, actions, now);
    RescuableIff(trusted, report, a, now);
    if a.id in IdsOf(selected) {
      var i :| 0 <= i < |selected| && IdsOf(selected)[i] == a.id;
      assert selected[i] in selected;
      FoundByItsId(actions, a);
      FoundByItsId(actions, selected[i].action);
    }
    if IsEligible(trusted, report, a, now) {
      var s := Selected(a, LastRecorded(report.results, a.id).value);
      assert s in selected;
      var i :| 0 <= i < |selected| && selected[i] == s;
      assert IdsOf(selected)[i] == a.id;
    }
  }

  /** These ids are of actions of the plan, in its order. */
  ghost predicate FollowPlan(actions: seq<RescueAction>, ids: seq<string>) {
    && (forall i :: 0 <= i < |ids| ==> ids[i] in IdSet(actions))
    && forall i, k :: 0 <= i < k < |ids| ==> exists m, n :: 0 <= m < n < |actions| && actions[m].id == ids[i] && actions[n].id == ids[k]
  }

  lemma SelectedFollowPlan(trusted: string, report: Jobs.SimulationReport, actions: seq<RescueAction>, now: int)
    ensures FollowPlan(actions, IdsOf(Eligible(trusted, report, actions, now)))
  {
    var selected := Eligible(trusted, report, actions, now);
    var ids := IdsOf(selected);
    EligibleMembers(trusted, report, actions, now);
    forall i | 0 <= i < |ids| ensures ids[i] in IdSet(actions) {
      assert selected[i] in selected;
    }
    forall i, k | 0 <= i < k < |ids| ensures exists m, n :: 0 <= m < n < |actions| && actions[m].id == ids[i] && actions[n].id == ids[k] {
      var m, n := EligibleInOrder(trusted, report, actions, now, i, k);
      assert actions[m].id == ids[i] && actions[n].id == ids[k];
    }
  }

  /** An assembled package has every action of the plan that belongs into it, and no other, in plan order. */
  lemma AssembledIsComplete(verify: SealedPlan -> bool, trusted: string, hash: seq<Delegated> -> string, c: Context,
                            factory: string, delegate: string, now: int)
    requires Assemble(verify, trusted, hash, c, factory, delegate, now).Ok?
    requires DistinctIds(c.sealed.plan.actions) && OneResultEach(c.report)
    ensures var p := Assemble(verify, trusted, hash, c, factory, delegate, now).value;
            && FollowPlan(c.sealed.plan.actions, p.actionIds)
            && forall a :: a in c.sealed.plan.actions ==> (a.id in p.actionIds <==> Rescuable(trusted, c.report, a, now))
  {
    var actions := c.sealed.plan.actions;
    AssembledIsDraft(verify, trusted, hash, c, factory, delegate, now);
    SelectedFollowPlan(trusted, c.report, actions, now);
    forall a | a in actions
      ensures a.id in IdsOf(Eligible(trusted, c.report, actions, now)) <==> Rescuable(trusted, c.report, a, now)
    {
      SelectedIffRescuable(trusted, c.report, actions, now, a);
    }
  }

  /** Every assembled package does what the plan says, action by action, whatever the source holds. */
  lemma AssembledActsAsPlanned(verify: SealedPlan -> bool, trusted: string, hash: seq<Delegated> -> string, c: Context,
                               factory: string, delegate: string, now: int, i: nat, available: nat)
    requires Assemble(verify, trusted, hash, c, factory, delegate, now).Ok? && DistinctIds(c.sealed.plan.actions)
    requires i < |Assemble(verify, trusted, hash, c, factory, delegate, now).value.actions|
    ensures var p := Assemble(verify, trusted, hash, c, factory, delegate, now).value;
            && |p.actionIds| == |p.actions| && ActsAsPlanned(c.sealed.plan, p, i, available)
            && p.actions[i].tokenId <= FULL_BALANCE && p.actions[i].amount <= FULL_BALANCE
  {
    var p := Assemble(verify, trusted, hash, c, factory, delegate, now).value;
    var selected := Eligible(trusted, c.report, c.sealed.plan.actions, now);
    AssembledIsDraft(verify, trusted, hash, c, factory, delegate, now);
    DraftMatchesPlan(trusted, hash, c, now, selected, p, i);
    MatchingActs(c.sealed.plan, p, i, available);
  }

  /** So does every package that passes the hand-over check, wherever it comes from. */
  lemma PassingActsAsPlanned(hash: seq<Delegated> -> string, request: TaskRequest, j: Jobs.Job, p: LocalPackage, now: int, i: nat, available: nat)
    requires InSigningScope(hash, request, j, p, now) && i < |p.actions|
    ensures |p.actionIds| == |p.actions| && ActsAsPlanned(j.plan.value.plan, p, i, available)
    ensures p.actions[i].tokenId <= FULL_BALANCE && p.actions[i].amount <= FULL_BALANCE
  {
    MatchingActs(j.plan.value.plan, p, i, available);
  }
}
