/** Assembling the package for an EIP-7702 rescue from a simulated plan
    (apps/web/src/lib/live-eip7702-signing-package-builder.ts), the rules every such package
    obeys (packages/agent-service/src/eip7702-signing-package.ts), and the check made before it is
    handed over (packages/okx-transport/src/provider-bridge.ts). */
module DelegatePackage {
  import opened Basics
  import opened RescueActions
  import opened Jobs
  import opened Simulator
  import Planner
  import Eip7702Runtime

  const MAX_ACTIONS: nat := 256
  const RESCUE_CHAIN: nat := 196

  /** The largest uint256, which stands for the whole live balance. */
  const FULL_BALANCE: nat := 0x1_0000_0000_0000_0000_0000_0000_0000_0000_0000_0000_0000_0000_0000_0000_0000_0000 - 1

  function ZeroAddress(): string {
    "0x" + seq(40, _ => '0')
  }

  predicate IsZero(address: string) {
    SameText(address, ZeroAddress())
  }

  // ----- delegated actions

  datatype Kind = NATIVE | ERC20 | ERC721 | ERC1155 | REVOKE_ERC20 | REVOKE_NFT

  datatype Delegated = Delegated(kind: Kind, asset: string, counterparty: string, tokenId: nat, amount: nat)

  predicate FitsUint256(d: Delegated) {
    d.tokenId <= FULL_BALANCE && d.amount <= FULL_BALANCE
  }

  /** One action of toEip7702RescueActions; None where it throws. */
  function ToDelegated(a: RescueAction, source: string, destination: string): Option<Delegated> {
    var d := match a.parameters
      case TransferNative(recipient, _) =>
        if SameText(recipient, destination) then Some(Delegated(NATIVE, ZeroAddress(), destination, 0, FULL_BALANCE)) else None
      case TransferErc20(token, recipient, amount) =>
        if SameText(recipient, destination) then Some(Delegated(ERC20, token, destination, 0, amount)) else None
      case TransferErc721(collection, recipient, tokenId) =>
        if SameText(recipient, destination) then Some(Delegated(ERC721, collection, destination, tokenId, 1)) else None
      case TransferErc1155(collection, recipient, tokenId, amount) =>
        if SameText(recipient, destination) then Some(Delegated(ERC1155, collection, destination, tokenId, amount)) else None
      case RevokeErc20Approval(token, spender) => Some(Delegated(REVOKE_ERC20, token, spender, 0, 0))
      case RevokeNftOperator(_, collection, operator) => Some(Delegated(REVOKE_NFT, collection, operator, 0, 0))
      case _ => None;
    if !SameText(a.sourceAddress, source) || !a.supportStatus.SUPPORTED? then None
    else if d.None? || !FitsUint256(d.value) then None
    else d
  }

  /** toEip7702RescueActions. */
  function ToDelegatedAll(actions: seq<RescueAction>, source: string, destination: string): (r: Option<seq<Delegated>>)
    ensures r.Some? ==>
              && !SameText(source, destination) && |r.value| == |actions|
              && forall i :: 0 <= i < |actions| ==> ToDelegated(actions[i], source, destination) == Some(r.value[i])
    ensures r.None? ==>
              SameText(source, destination) || exists i :: 0 <= i < |actions| && ToDelegated(actions[i], source, destination).None?
  {
    if SameText(source, destination) then None
    else if forall i :: 0 <= i < |actions| ==> ToDelegated(actions[i], source, destination).Some?
    then Some(seq(|actions|, i requires 0 <= i < |actions| => ToDelegated(actions[i], source, destination).value))
    else None
  }

  // ----- the package and its rules

  datatype LocalPackage = LocalPackage(
    jobId: string, incidentId: string, planId: string, planHash: string, delegatePlanHash: string, chainId: nat,
    sourceAddress: string, destinationAddress: string, observedAtBlock: nat, expiresAt: int, deadline: int,
    factoryAddress: string, delegateAddress: string, actionIds: seq<string>, actions: seq<Delegated>,
    executionIndexes: seq<nat>, resultIds: seq<string>, providerId: string, simulationExpiresAt: int)

  predicate ContractValid(address: string, p: LocalPackage) {
    !IsZero(address) && !SameText(address, p.sourceAddress) && !SameText(address, p.destinationAddress)
  }

  /** The fixed scope of each kind of action. */
  predicate ActionValid(d: Delegated, p: LocalPackage) {
    var toDestination := SameText(d.counterparty, p.destinationAddress);
    var asset := !IsZero(d.asset) && !SameText(d.asset, p.sourceAddress);
    match d.kind
    case NATIVE => IsZero(d.asset) && toDestination && d.tokenId == 0 && d.amount == FULL_BALANCE
    case ERC20 => asset && toDestination && d.tokenId == 0 && d.amount != 0
    case ERC721 => asset && toDestination && d.amount == 1
    case ERC1155 => asset && toDestination && d.amount != 0
    case REVOKE_ERC20 => asset && !IsZero(d.counterparty) && d.tokenId == 0 && d.amount == 0
    case REVOKE_NFT => asset && !IsZero(d.counterparty) && d.tokenId == 0 && d.amount == 0
  }

  predicate NoRepeats(s: seq<string>) {
    forall i, k :: 0 <= i < k < |s| ==> s[i] != s[k]
  }

  /** What the three rules on execution indexes come down to. */
  predicate CoversInOrder(indexes: seq<nat>, count: nat) {
    |indexes| <= count && forall k :: 0 <= k < |indexes| ==> indexes[k] == k
  }

  /** The loop over the execution indexes: in bounds, increasing, and each at its own position. */
  method IndexesValid(indexes: seq<nat>, count: nat) returns (ok: bool)
    ensures ok <==> CoversInOrder(indexes, count)
  {
    var previous: int := -1;
    ok := true;
    for position := 0 to |indexes|
      invariant ok <==> position <= count && forall k :: 0 <= k < position ==> indexes[k] == k
      invariant position > 0 ==> previous == indexes[position - 1]
      invariant position == 0 ==> previous == -1
    {
      var index := indexes[position];
      if index >= count || index <= previous || index != position {
        ok := false;
      }
      previous := index;
    }
  }

  /** The cross-field rules of eip7702LocalSigningPackageSchema. */
  predicate PackageValid(hash: seq<Delegated> -> string, p: LocalPackage) {
    && p.chainId == RESCUE_CHAIN && 1 <= |p.actions| <= MAX_ACTIONS
    && !SameText(p.sourceAddress, p.destinationAddress)
    && ContractValid(p.factoryAddress, p) && ContractValid(p.delegateAddress, p)
    && !SameText(p.factoryAddress, p.delegateAddress)
    && |p.actionIds| == |p.actions| && NoRepeats(p.actionIds)
    && |p.resultIds| == |p.executionIndexes| && NoRepeats(p.resultIds)
    && |p.executionIndexes| == |p.actions| && CoversInOrder(p.executionIndexes, |p.actions|)
    && p.expiresAt / 1000 == p.deadline && p.deadline > 0
    && p.simulationExpiresAt > p.expiresAt
    && SameText(hash(p.actions), p.delegatePlanHash)
    && (forall i :: 0 <= i < |p.actions| ==> FitsUint256(p.actions[i]) && ActionValid(p.actions[i], p))
  }

  // ----- the builder

  datatype Selected = Selected(action: RescueAction, recorded: Recorded)

  /** `new Map(results.map((result) => [result.actionId, result])).get(id)`: the last one. */
  function LastRecorded(results: seq<Recorded>, id: string): (r: Option<Recorded>)
    ensures r.Some? ==> r.value in results && r.value.result.actionId == id
    ensures r.None? ==> forall x :: x in results ==> x.result.actionId != id
  {
    if results == [] then None
    else if results[|results| - 1].result.actionId == id then Some(results[|results| - 1])
    else LastRecorded(results[..|results| - 1], id)
  }

  predicate IsEligible(trusted: string, report: SimulationReport, a: RescueAction, now: int) {
    var recorded := LastRecorded(report.results, a.id);
    && report.providerId == trusted
    && !a.parameters.IsAdapter() && a.id in report.executableActionIds && a.supportStatus.SUPPORTED?
    && recorded.Some? && recorded.value.result.status.SUCCEEDED? && recorded.value.providerId == trusted
    && recorded.value.result.expiresAt > now
  }

  /** eligibleActions, in plan order. */
  function Eligible(trusted: string, report: SimulationReport, actions: seq<RescueAction>, now: int): seq<Selected> {
    if actions == [] then []
    else
      var last := actions[|actions| - 1];
      Eligible(trusted, report, actions[..|actions| - 1], now)
      + if IsEligible(trusted, report, last, now) then [Selected(last, LastRecorded(report.results, last.id).value)] else []
  }

  function EarliestExpiry(selected: seq<Selected>): (r: int)
    requires selected != []
    ensures forall s :: s in selected ==> r <= s.recorded.result.expiresAt
    ensures exists s :: s in selected && r == s.recorded.result.expiresAt
  {
    var last := selected[|selected| - 1].recorded.result.expiresAt;
    if |selected| == 1 then
      assert selected[0] in selected;
      last
    else
      var init := selected[..|selected| - 1];
      var rest := EarliestExpiry(init);
      assert selected == init + [selected[|selected| - 1]];
      assert selected[|selected| - 1] in selected;
      if last < rest then last else rest
  }

  /** packageExpiry, in milliseconds; None when the simulations expire too soon. */
  function PackageExpiry(selected: seq<Selected>, now: int): (r: Option<int>)
    requires selected != []
    ensures r.Some? ==>
              && now + 29_000 < r.value <= now + 600_000 && r.value % 1000 == 0
              && forall s :: s in selected ==> r.value + 10_000 <= s.recorded.result.expiresAt
  {
    var latest := EarliestExpiry(selected) - 10_000;
    var expiry := if now + 600_000 < latest then now + 600_000 else latest;
    if expiry <= now + 30_000 then None else Some(expiry / 1000 * 1000)
  }

  datatype Context = Context(jobId: string, incidentId: string, sealed: SealedPlan, report: SimulationReport)

  datatype BuildError = IntegrityFailed | WrongChain | NothingEligible | UndelegatableAction | ExpiresTooSoon | InvalidPackage

  function ActionsOf(selected: seq<Selected>): seq<RescueAction> {
    seq(|selected|, i requires 0 <= i < |selected| => selected[i].action)
  }

  function IdsOf(selected: seq<Selected>): seq<string> {
    seq(|selected|, i requires 0 <= i < |selected| => selected[i].action.id)
  }

  function ResultIdsOf(selected: seq<Selected>): seq<string> {
    seq(|selected|, i requires 0 <= i < |selected| => selected[i].recorded.id)
  }

  /** The package before it is parsed. */
  function Draft(c: Context, hash: seq<Delegated> -> string, factory: string, delegate: string,
                 selected: seq<Selected>, actions: seq<Delegated>, expiresAt: int): LocalPackage
    requires selected != []
  {
    var p := c.sealed.plan;
    LocalPackage(c.jobId, c.incidentId, p.id, c.sealed.integrityHash, hash(actions), p.chainId, p.sourceAddress,
                 p.destinationAddress, p.observedAtBlock, expiresAt, expiresAt / 1000, factory, delegate, IdsOf(selected),
                 actions, seq(|actions|, i => i), ResultIdsOf(selected), c.report.providerId, EarliestExpiry(selected))
  }

  /** assembleEip7702LocalSigningPackageFromPlan. */
  function Assemble(verify: SealedPlan -> bool, trusted: string, hash: seq<Delegated> -> string, c: Context,
                    factory: string, delegate: string, now: int): Result<LocalPackage, BuildError>
  {
    var p := c.sealed.plan;
    var selected := Eligible(trusted, c.report, p.actions, now);
    if !verify(c.sealed) then Err(BuildError.IntegrityFailed)
    else if p.chainId != RESCUE_CHAIN then Err(WrongChain)
    else if selected == [] then Err(NothingEligible)
    else
      var actions := ToDelegatedAll(ActionsOf(selected), p.sourceAddress, p.destinationAddress);
      if actions.None? then Err(UndelegatableAction)
      else if PackageExpiry(selected, now).None? then Err(ExpiresTooSoon)
      else
        var draft := Draft(c, hash, factory, delegate, selected, actions.value, PackageExpiry(selected, now).value);
        if PackageValid(hash, draft) then Ok(draft) else Err(InvalidPackage)
  }

  // ----- what is selected

  /** The selection is a sub-list of the plan: every position comes from a later position of it. */
  ghost predicate SelectedFrom(trusted: string, report: SimulationReport, actions: seq<RescueAction>, now: int, s: Selected) {
    && s.action in actions && IsEligible(trusted, report, s.action, now)
    && LastRecorded(report.results, s.action.id) == Some(s.recorded)
  }

  lemma {:induction false} EligibleMembers(trusted: string, report: SimulationReport, actions: seq<RescueAction>, now: int)
    ensures forall s :: s in Eligible(trusted, report, actions, now) <==> SelectedFrom(trusted, report, actions, now, s)
  {
    if actions == [] {
    } else {
      var init, last := actions[..|actions| - 1], actions[|actions| - 1];
      EligibleMembers(trusted, report, init, now);
      assert actions == init + [last];
    }
  }

  lemma {:induction false} EligibleDistinct(trusted: string, report: SimulationReport, actions: seq<RescueAction>, now: int)
    requires DistinctIds(actions)
    ensures NoRepeats(IdsOf(Eligible(trusted, report, actions, now)))
  {
    if actions == [] {
    } else {
      var init, last := actions[..|actions| - 1], actions[|actions| - 1];
      EligibleDistinct(trusted, report, init, now);
      EligibleMembers(trusted, report, init, now);
      var before, all := Eligible(trusted, report, init, now), Eligible(trusted, report, actions, now);
      forall i, k | 0 <= i < k < |all| ensures IdsOf(all)[i] != IdsOf(all)[k] {
        if k == |before| {
          assert before[i] in before;
          var m :| 0 <= m < |init| && init[m] == before[i].action;
          assert actions[m].id != actions[|actions| - 1].id;
        } else {
          assert IdsOf(before)[i] != IdsOf(before)[k];
        }
      }
    }
  }

  // ----- what the builder promises

  /** An assembled package outlives its build by more than 29 seconds and at most ten minutes, and
      ends at least ten seconds before every simulation it commits to. The runtime's window of
      fifteen minutes is therefore met until it expires. */
  lemma AssembledTimes(verify: SealedPlan -> bool, trusted: string, hash: seq<Delegated> -> string, c: Context,
                       factory: string, delegate: string, now: int)
    requires Assemble(verify, trusted, hash, c, factory, delegate, now).Ok?
    ensures var p := Assemble(verify, trusted, hash, c, factory, delegate, now).value;
            && now + 29_000 < p.expiresAt <= now + 600_000
            && p.deadline * 1000 == p.expiresAt
            && p.expiresAt <= now + Eip7702Runtime.MAXIMUM_PACKAGE_WINDOW_MS
            && forall i :: 0 <= i < |p.resultIds| ==>
                 exists x :: x in c.report.results && x.id == p.resultIds[i] && x.result.actionId == p.actionIds[i]
                             && p.expiresAt + 10_000 <= x.result.expiresAt
  {
    var p := Assemble(verify, trusted, hash, c, factory, delegate, now).value;
    var selected := Eligible(trusted, c.report, c.sealed.plan.actions, now);
    EligibleMembers(trusted, c.report, c.sealed.plan.actions, now);
    forall i | 0 <= i < |p.resultIds|
      ensures exists x :: x in c.report.results && x.id == p.resultIds[i] && x.result.actionId == p.actionIds[i]
                          && p.expiresAt + 10_000 <= x.result.expiresAt
    {
      assert selected[i] in selected;
      assert selected[i].recorded in c.report.results;
    }
  }

  /** Contracts are neither zero nor the source, counterparties are not zero, and amounts are
      positive and fit. */
  predicate Delegatable(a: RescueAction, source: string) {
    match a.parameters
    case TransferNative(_, _) => true
    case TransferErc20(token, _, amount) => !IsZero(token) && !SameText(token, source) && 0 < amount <= FULL_BALANCE
    case TransferErc721(collection, _, tokenId) => !IsZero(collection) && !SameText(collection, source) && tokenId <= FULL_BALANCE
    case TransferErc1155(collection, _, tokenId, amount) =>
      !IsZero(collection) && !SameText(collection, source) && tokenId <= FULL_BALANCE && 0 < amount <= FULL_BALANCE
    case RevokeErc20Approval(token, spender) => !IsZero(token) && !SameText(token, source) && !IsZero(spender)
    case RevokeNftOperator(_, collection, operator) => !IsZero(collection) && !SameText(collection, source) && !IsZero(operator)
    case _ => false
  }

  predicate SentTo(a: RescueAction, destination: string) {
    match a.parameters
    case TransferNative(recipient, _) => recipient == destination
    case TransferErc20(_, recipient, _) => recipient == destination
    case TransferErc721(_, recipient, _) => recipient == destination
    case TransferErc1155(_, recipient, _, _) => recipient == destination
    case _ => true
  }

  /** The planner only moves assets of the source to the destination. */
  lemma PlannedActionsStayInScope(r: Planner.Request, adapters: seq<Planner.TrustedAdapter>, a: RescueAction)
    requires Planner.InScope(r, adapters) && a in Planner.PlannedActions(r)
    ensures SameText(a.sourceAddress, r.scan.address) && a.supportStatus.SUPPORTED? && SentTo(a, r.destinationAddress)
  {
    Planner.PlannedMembers(r, a);
    if Planner.IsAssetTransfer(r, a) {
      var i :| 0 <= i < |r.scan.assets| && a in Planner.AssetActions(r.scan.assets[i], r.destinationAddress);
      assert Planner.EvidenceInScope(r.scan, r.scan.assets[i].evidence);
    } else if Planner.IsOutputTransfer(r, a) {
      OutputInScope(r, a);
    } else if Planner.IsPlannedRevocation(r, a) {
      var i :| 0 <= i < |r.scan.approvals| && a in Planner.ApprovalActions(r.scan.approvals[i], Planner.Transfers(r));
      RevocationInScope(r.scan.approvals[i], Planner.Transfers(r), a);
      assert Planner.EvidenceInScope(r.scan, r.scan.approvals[i].evidence);
    } else if a in Planner.NativeActions(r) {
      NativeInScope(r, a);
    }
  }

  lemma OutputInScope(r: Planner.Request, a: RescueAction)
    requires Planner.IsOutputTransfer(r, a)
    requires forall i :: 0 <= i < |r.candidates| ==> SameText(r.candidates[i].sourceAddress, r.scan.address)
    ensures SameText(a.sourceAddress, r.scan.address) && a.supportStatus.SUPPORTED? && SentTo(a, r.destinationAddress)
  {}

  lemma RevocationInScope(p: Planner.Approval, transfers: seq<RescueAction>, a: RescueAction)
    requires a in Planner.ApprovalActions(p, transfers)
    ensures a.sourceAddress == p.evidence.ownerAddress && a.supportStatus.SUPPORTED?
    ensures a.parameters.RevokeErc20Approval? || a.parameters.RevokeNftOperator?
  {}

  lemma NativeInScope(r: Planner.Request, a: RescueAction)
    requires a in Planner.NativeActions(r)
    requires forall i :: 0 <= i < |r.scan.assets| ==> Planner.EvidenceInScope(r.scan, r.scan.assets[i].evidence)
    ensures SameText(a.sourceAddress, r.scan.address) && a.supportStatus.SUPPORTED? && SentTo(a, r.destinationAddress)
  {
    Planner.NativesAreNative(r);
    assert Planner.Natives(r)[0] in Planner.Natives(r);
    var i :| 0 <= i < |r.scan.assets| && r.scan.assets[i] == Planner.Natives(r)[0];
    assert Planner.EvidenceInScope(r.scan, r.scan.assets[i].evidence);
  }

  /** A planned, delegatable action becomes a delegated action of valid scope. */
  lemma DelegatedIsValid(a: RescueAction, p: LocalPackage)
    requires SameText(a.sourceAddress, p.sourceAddress) && a.supportStatus.SUPPORTED? && SentTo(a, p.destinationAddress)
    requires Delegatable(a, p.sourceAddress)
    ensures var d := ToDelegated(a, p.sourceAddress, p.destinationAddress);
            d.Some? && FitsUint256(d.value) && ActionValid(d.value, p)
  {}

  /** What the caller of the builder has to provide. */
  ghost predicate Buildable(r: Planner.Request, adapters: seq<Planner.TrustedAdapter>, c: Context, factory: string, delegate: string) {
    var p := c.sealed.plan;
    && Planner.InScope(r, adapters) && p.sourceAddress == r.scan.address && p.destinationAddress == r.destinationAddress
    && p.chainId == RESCUE_CHAIN && MeetsPlanSchema(p) && |p.actions| <= MAX_ACTIONS
    && (forall a :: a in p.actions ==> a in Planner.PlannedActions(r))
    && (forall a :: a in p.actions && !a.parameters.IsAdapter() ==> Delegatable(a, p.sourceAddress))
    && (forall x, y :: x in c.report.results && y in c.report.results && x.id == y.id ==> x.result.actionId == y.result.actionId)
    && !IsZero(factory) && !SameText(factory, p.sourceAddress) && !SameText(factory, p.destinationAddress)
    && !IsZero(delegate) && !SameText(delegate, p.sourceAddress) && !SameText(delegate, p.destinationAddress)
    && !SameText(factory, delegate)
  }

  lemma {:induction false} SelectionNotLonger(trusted: string, report: SimulationReport, actions: seq<RescueAction>, now: int)
    ensures |Eligible(trusted, report, actions, now)| <= |actions|
  {
    if actions == [] {
    } else {
      SelectionNotLonger(trusted, report, actions[..|actions| - 1], now);
    }
  }

  lemma SelectedIsReady(trusted: string, r: Planner.Request, adapters: seq<Planner.TrustedAdapter>, c: Context,
                        factory: string, delegate: string, now: int, s: Selected)
    requires Buildable(r, adapters, c, factory, delegate)
    requires SelectedFrom(trusted, c.report, c.sealed.plan.actions, now, s)
    ensures SameText(s.action.sourceAddress, c.sealed.plan.sourceAddress) && s.action.supportStatus.SUPPORTED?
    ensures SentTo(s.action, c.sealed.plan.destinationAddress) && Delegatable(s.action, c.sealed.plan.sourceAddress)
  {
    PlannedActionsStayInScope(r, adapters, s.action);
  }

  lemma {:induction false} ResultIdsDistinct(trusted: string, report: SimulationReport, actions: seq<RescueAction>, now: int)
    requires DistinctIds(actions)
    requires forall x, y :: x in report.results && y in report.results && x.id == y.id ==> x.result.actionId == y.result.actionId
    ensures NoRepeats(ResultIdsOf(Eligible(trusted, report, actions, now)))
  {
    var selected := Eligible(trusted, report, actions, now);
    EligibleDistinct(trusted, report, actions, now);
    EligibleMembers(trusted, report, actions, now);
    forall i, k | 0 <= i < k < |selected| ensures ResultIdsOf(selected)[i] != ResultIdsOf(selected)[k] {
      assert selected[i] in selected && selected[k] in selected;
      assert IdsOf(selected)[i] != IdsOf(selected)[k];
    }
  }

  /** The selected actions can all be delegated, and in valid scope. */
  lemma SelectedCanBeDelegated(trusted: string, r: Planner.Request, adapters: seq<Planner.TrustedAdapter>, c: Context,
                               factory: string, delegate: string, now: int, p: LocalPackage)
    requires Buildable(r, adapters, c, factory, delegate)
    requires p.sourceAddress == c.sealed.plan.sourceAddress && p.destinationAddress == c.sealed.plan.destinationAddress
    ensures var selected := Eligible(trusted, c.report, c.sealed.plan.actions, now);
            var actions := ToDelegatedAll(ActionsOf(selected), p.sourceAddress, p.destinationAddress);
            && actions.Some? && |actions.value| == |selected|
            && forall i :: 0 <= i < |actions.value| ==> FitsUint256(actions.value[i]) && ActionValid(actions.value[i], p)
  {
    var selected := Eligible(trusted, c.report, c.sealed.plan.actions, now);
    EligibleMembers(trusted, c.report, c.sealed.plan.actions, now);
    forall i | 0 <= i < |selected|
      ensures var d := ToDelegated(ActionsOf(selected)[i], p.sourceAddress, p.destinationAddress);
              d.Some? && FitsUint256(d.value) && ActionValid(d.value, p)
    {
      assert selected[i] in selected;
      SelectedIsReady(trusted, r, adapters, c, factory, delegate, now, selected[i]);
      DelegatedIsValid(selected[i].action, p);
    }
  }

  /** For a plan of the planner the package is refused only for want of a fresh simulation, never
      by its own rules. */
  lemma PlannerPackagesMeetTheRules(verify: SealedPlan -> bool, trusted: string, hash: seq<Delegated> -> string,
                                    r: Planner.Request, adapters: seq<Planner.TrustedAdapter>, c: Context,
                                    factory: string, delegate: string, now: int)
    requires verify(c.sealed) && Buildable(r, adapters, c, factory, delegate) && now >= 0
    ensures var selected := Eligible(trusted, c.report, c.sealed.plan.actions, now);
            Assemble(verify, trusted, hash, c, factory, delegate, now).Ok? <==>
            selected != [] && PackageExpiry(selected, now).Some?
  {
    var plan := c.sealed.plan;
    var selected := Eligible(trusted, c.report, plan.actions, now);
    if selected != [] && PackageExpiry(selected, now).Some? {
      var expiresAt := PackageExpiry(selected, now).value;
      var actions := ToDelegatedAll(ActionsOf(selected), plan.sourceAddress, plan.destinationAddress);
      var p := Draft(c, hash, factory, delegate, selected, [], expiresAt);
      SelectedCanBeDelegated(trusted, r, adapters, c, factory, delegate, now, p);
      var draft := Draft(c, hash, factory, delegate, selected, actions.value, expiresAt);
      EligibleDistinct(trusted, c.report, plan.actions, now);
      ResultIdsDistinct(trusted, c.report, plan.actions, now);
      SelectionNotLonger(trusted, c.report, plan.actions, now);
      forall i | 0 <= i < |draft.actions| ensures ActionValid(draft.actions[i], draft) {
        assert ActionValid(draft.actions[i], p);
      }
      assert PackageValid(hash, draft);
    }
  }

  // ----- the check before the hand-over

  datatype NftAsset = NftAsset(collectionAddress: string, tokenId: nat)

  datatype Manifest = Manifest(erc20TokenAddresses: seq<string>, erc721Assets: seq<NftAsset>, erc1155Assets: seq<NftAsset>)

  datatype TaskRequest = TaskRequest(chainId: nat, sourceAddress: string, destinationAddress: string, assetManifest: Manifest)

  predicate ListsToken(addresses: seq<string>, asset: string) {
    exists i :: 0 <= i < |addresses| && SameText(addresses[i], asset)
  }

  predicate ListsNft(assets: seq<NftAsset>, collection: string, tokenId: nat) {
    exists i :: 0 <= i < |assets| && SameText(assets[i].collectionAddress, collection) && assets[i].tokenId == tokenId
  }

  predicate ListsCollection(assets: seq<NftAsset>, collection: string) {
    exists i :: 0 <= i < |assets| && SameText(assets[i].collectionAddress, collection)
  }

  /** isRequestedEip7702Asset. */
  predicate IsRequested(m: Manifest, d: Delegated) {
    match d.kind
    case ERC20 => ListsToken(m.erc20TokenAddresses, d.asset)
    case REVOKE_ERC20 => ListsToken(m.erc20TokenAddresses, d.asset)
    case ERC721 => ListsNft(m.erc721Assets, d.asset, d.tokenId)
    case ERC1155 => ListsNft(m.erc1155Assets, d.asset, d.tokenId)
    case REVOKE_NFT => ListsCollection(m.erc721Assets, d.asset) || ListsCollection(m.erc1155Assets, d.asset)
    case NATIVE => false
  }

  ghost predicate NamesContract(addresses: seq<string>, contract: string) {
    exists x :: x in addresses && Lower(x) == Lower(contract)
  }

  ghost predicate NamesToken(assets: seq<NftAsset>, collection: string, tokenId: nat) {
    exists x :: x in assets && Lower(x.collectionAddress) == Lower(collection) && x.tokenId == tokenId
  }

  ghost predicate NamesCollection(assets: seq<NftAsset>, collection: string) {
    exists x :: x in assets && Lower(x.collectionAddress) == Lower(collection)
  }

  /** The manifest lists what an action of the plan moves or revokes; it has no place for native coin. */
  ghost predicate ListsAction(m: Manifest, a: RescueAction) {
    match a.parameters
    case TransferErc20(token, _, _) => NamesContract(m.erc20TokenAddresses, token)
    case RevokeErc20Approval(token, _) => NamesContract(m.erc20TokenAddresses, token)
    case TransferErc721(collection, _, tokenId) => NamesToken(m.erc721Assets, collection, tokenId)
    case TransferErc1155(collection, _, tokenId, _) => NamesToken(m.erc1155Assets, collection, tokenId)
    case RevokeNftOperator(_, collection, _) =>
      NamesCollection(m.erc721Assets, collection) || NamesCollection(m.erc1155Assets, collection)
    case _ => false
  }

  lemma ListsContract(addresses: seq<string>, contract: string)
    ensures ListsToken(addresses, contract) <==> NamesContract(addresses, contract)
  {
    if x :| x in addresses && Lower(x) == Lower(contract) {
      var i :| 0 <= i < |addresses| && addresses[i] == x;
      assert SameText(addresses[i], contract);
    }
  }

  lemma ListsAsset(assets: seq<NftAsset>, collection: string, tokenId: nat)
    ensures ListsNft(assets, collection, tokenId) <==> NamesToken(assets, collection, tokenId)
    ensures ListsCollection(assets, collection) <==> NamesCollection(assets, collection)
  {
    if x :| x in assets && Lower(x.collectionAddress) == Lower(collection) && x.tokenId == tokenId {
      var i :| 0 <= i < |assets| && assets[i] == x;
      assert SameText(assets[i].collectionAddress, collection);
    }
    if x :| x in assets && Lower(x.collectionAddress) == Lower(collection) {
      var i :| 0 <= i < |assets| && assets[i] == x;
      assert SameText(assets[i].collectionAddress, collection);
    }
  }

  lemma RequestedIffListed(m: Manifest, a: RescueAction, source: string, destination: string)
    requires ToDelegated(a, source, destination).Some?
    ensures IsRequested(m, ToDelegated(a, source, destination).value) <==> ListsAction(m, a)
  {
    var d := ToDelegated(a, source, destination).value;
    ListsContract(m.erc20TokenAddresses, d.asset);
    ListsAsset(m.erc721Assets, d.asset, d.tokenId);
    ListsAsset(m.erc1155Assets, d.asset, d.tokenId);
  }

  /** assertEip7702ActionMatchesPlan. */
  predicate MatchesPlan(plan: RescueActions.Plan, p: LocalPackage, i: nat)
    requires i < |p.actionIds| && i < |p.actions|
  {
    var planned := FindAction(plan.actions, p.actionIds[i]);
    && planned.Some? && !SameText(p.sourceAddress, p.destinationAddress)
    && var expected := ToDelegated(planned.value, p.sourceAddress, p.destinationAddress);
       && expected.Some? && p.actions[i].kind == expected.value.kind
       && SameText(p.actions[i].asset, expected.value.asset) && SameText(p.actions[i].counterparty, expected.value.counterparty)
       && p.actions[i].tokenId == expected.value.tokenId && p.actions[i].amount == expected.value.amount
  }

  /** `results.find((result) => result.actionId === id)`: the first one. */
  function FirstRecorded(results: seq<Recorded>, id: string): (r: Option<Recorded>)
    ensures r.Some? ==> r.value in results && r.value.result.actionId == id
    ensures r.None? ==> forall x :: x in results ==> x.result.actionId != id
  {
    if results == [] then None
    else if results[0].result.actionId == id then Some(results[0])
    else FirstRecorded(results[1..], id)
  }

  predicate MatchesSimulation(report: SimulationReport, p: LocalPackage, i: nat)
    requires i < |p.actionIds| && i < |p.resultIds|
  {
    var recorded := FirstRecorded(report.results, p.actionIds[i]);
    && recorded.Some? && recorded.value.result.status.SUCCEEDED?
    && recorded.value.providerId == p.providerId && recorded.value.id == p.resultIds[i]
  }

  /** The earliest expiry of the simulations found for these actions. */
  function CommittedExpiry(report: SimulationReport, ids: seq<string>): int
    requires ids != [] && forall i :: 0 <= i < |ids| ==> FirstRecorded(report.results, ids[i]).Some?
  {
    var last := FirstRecorded(report.results, ids[|ids| - 1]).value.result.expiresAt;
    if |ids| == 1 then last
    else
      var rest := CommittedExpiry(report, ids[..|ids| - 1]);
      if last < rest then last else rest
  }

  /** assertEip7702SigningScope does not throw. */
  predicate InSigningScope(hash: seq<Delegated> -> string, request: TaskRequest, j: Job, p: LocalPackage, now: int) {
    && PackageValid(hash, p)
    && j.incident.Some? && j.plan.Some? && j.simulation.Some?
    && p.jobId == j.id && p.incidentId == j.incident.value.id && p.planId == j.plan.value.plan.id
    && SameText(p.planHash, j.plan.value.integrityHash) && p.observedAtBlock == j.plan.value.plan.observedAtBlock
    && p.chainId == request.chainId && SameText(p.sourceAddress, request.sourceAddress)
    && SameText(p.destinationAddress, request.destinationAddress)
    && p.providerId == j.simulation.value.providerId && now < p.expiresAt
    && (forall i :: 0 <= i < |p.actionIds| ==>
          && p.actionIds[i] in j.simulation.value.executableActionIds
          && IsRequested(request.assetManifest, p.actions[i])
          && MatchesPlan(j.plan.value.plan, p, i)
          && MatchesSimulation(j.simulation.value, p, i))
    && p.simulationExpiresAt == CommittedExpiry(j.simulation.value, p.actionIds)
  }

  /** The job a context was taken from. */
  ghost predicate IsContextOf(c: Context, j: Job) {
    && j.id == c.jobId && j.incident.Some? && j.incident.value.id == c.incidentId
    && j.plan == Some(c.sealed) && j.simulation == Some(c.report)
  }

  predicate OwnRequest(request: TaskRequest, plan: RescueActions.Plan) {
    && request.chainId == plan.chainId && SameText(plan.sourceAddress, request.sourceAddress)
    && SameText(plan.destinationAddress, request.destinationAddress)
  }

  /** Each action has one result. */
  ghost predicate OneResultEach(report: SimulationReport) {
    forall x, y :: x in report.results && y in report.results && x.result.actionId == y.result.actionId ==> x == y
  }

  lemma {:induction false} CommittedIsEarliest(report: SimulationReport, selected: seq<Selected>)
    requires selected != [] && OneResultEach(report)
    requires forall s :: s in selected ==> s.recorded in report.results && s.recorded.result.actionId == s.action.id
    ensures forall i :: 0 <= i < |selected| ==> FirstRecorded(report.results, IdsOf(selected)[i]) == Some(selected[i].recorded)
    ensures CommittedExpiry(report, IdsOf(selected)) == EarliestExpiry(selected)
  {
    forall i | 0 <= i < |selected| ensures FirstRecorded(report.results, IdsOf(selected)[i]) == Some(selected[i].recorded) {
      assert selected[i] in selected;
    }
    if |selected| > 1 {
      var init := selected[..|selected| - 1];
      assert IdsOf(init) == IdsOf(selected)[..|selected| - 1];
      forall s | s in init ensures s in selected {}
      CommittedIsEarliest(report, init);
    }
  }

  lemma {:induction false} FoundByItsId(actions: seq<RescueAction>, a: RescueAction)
    requires DistinctIds(actions) && a in actions
    ensures FindAction(actions, a.id) == Some(a)
  {}

  /** An assembled package is the draft for the selected actions, and obeys the rules. */
  ghost predicate IsDraftFor(trusted: string, hash: seq<Delegated> -> string, c: Context, now: int, selected: seq<Selected>, p: LocalPackage) {
    var plan := c.sealed.plan;
    && selected == Eligible(trusted, c.report, plan.actions, now) && selected != [] && PackageValid(hash, p)
    && p.jobId == c.jobId && p.incidentId == c.incidentId && p.planId == plan.id && p.planHash == c.sealed.integrityHash
    && p.observedAtBlock == plan.observedAtBlock && p.chainId == plan.chainId
    && p.sourceAddress == plan.sourceAddress && p.destinationAddress == plan.destinationAddress
    && p.providerId == c.report.providerId == trusted
    && p.actionIds == IdsOf(selected) && p.resultIds == ResultIdsOf(selected) && p.simulationExpiresAt == EarliestExpiry(selected)
    && Some(p.actions) == ToDelegatedAll(ActionsOf(selected), plan.sourceAddress, plan.destinationAddress)
  }

  lemma AssembledIsDraft(verify: SealedPlan -> bool, trusted: string, hash: seq<Delegated> -> string, c: Context,
                         factory: string, delegate: string, now: int)
    requires Assemble(verify, trusted, hash, c, factory, delegate, now).Ok?
    ensures var selected := Eligible(trusted, c.report, c.sealed.plan.actions, now);
            IsDraftFor(trusted, hash, c, now, selected, Assemble(verify, trusted, hash, c, factory, delegate, now).value)
  {
    var selected := Eligible(trusted, c.report, c.sealed.plan.actions, now);
    EligibleMembers(trusted, c.report, c.sealed.plan.actions, now);
    assert selected[0] in selected;
  }

  lemma DraftMatchesPlan(trusted: string, hash: seq<Delegated> -> string, c: Context, now: int, selected: seq<Selected>, p: LocalPackage, i: nat)
    requires IsDraftFor(trusted, hash, c, now, selected, p) && i < |selected| == |p.actionIds|
    requires DistinctIds(c.sealed.plan.actions)
    ensures MatchesPlan(c.sealed.plan, p, i) && FindAction(c.sealed.plan.actions, p.actionIds[i]) == Some(selected[i].action)
  {
    EligibleMembers(trusted, c.report, c.sealed.plan.actions, now);
    assert selected[i] in selected;
    FoundByItsId(c.sealed.plan.actions, selected[i].action);
    assert ToDelegated(ActionsOf(selected)[i], p.sourceAddress, p.destinationAddress) == Some(p.actions[i]);
  }

  lemma DraftMatches(trusted: string, hash: seq<Delegated> -> string, c: Context, now: int, selected: seq<Selected>, p: LocalPackage, i: nat)
    requires IsDraftFor(trusted, hash, c, now, selected, p) && i < |selected| == |p.actionIds|
    requires DistinctIds(c.sealed.plan.actions) && OneResultEach(c.report)
    ensures p.actionIds[i] in c.report.executableActionIds
    ensures MatchesPlan(c.sealed.plan, p, i) && MatchesSimulation(c.report, p, i)
    ensures FirstRecorded(c.report.results, p.actionIds[i]) == Some(selected[i].recorded)
  {
    EligibleMembers(trusted, c.report, c.sealed.plan.actions, now);
    assert selected[i] in selected;
    FoundByItsId(c.sealed.plan.actions, selected[i].action);
    assert ToDelegated(ActionsOf(selected)[i], p.sourceAddress, p.destinationAddress) == Some(p.actions[i]);
  }

  lemma DraftCommits(trusted: string, hash: seq<Delegated> -> string, c: Context, now: int, selected: seq<Selected>, p: LocalPackage)
    requires IsDraftFor(trusted, hash, c, now, selected, p) && OneResultEach(c.report)
    ensures forall i :: 0 <= i < |p.actionIds| ==> FirstRecorded(c.report.results, p.actionIds[i]).Some?
    ensures p.simulationExpiresAt == CommittedExpiry(c.report, p.actionIds)
  {
    EligibleMembers(trusted, c.report, c.sealed.plan.actions, now);
    CommittedIsEarliest(c.report, selected);
  }

  lemma DraftPassesIff(trusted: string, hash: seq<Delegated> -> string, c: Context, now: int, selected: seq<Selected>, p: LocalPackage,
                       request: TaskRequest, j: Job, later: int)
    requires IsDraftFor(trusted, hash, c, now, selected, p) && DistinctIds(c.sealed.plan.actions) && OneResultEach(c.report)
    requires IsContextOf(c, j) && OwnRequest(request, c.sealed.plan) && later < p.expiresAt
    ensures InSigningScope(hash, request, j, p, later) <==>
            forall i :: 0 <= i < |p.actions| ==> IsRequested(request.assetManifest, p.actions[i])
  {
    DraftCommits(trusted, hash, c, now, selected, p);
    forall i | 0 <= i < |p.actionIds|
      ensures p.actionIds[i] in c.report.executableActionIds && MatchesPlan(c.sealed.plan, p, i) && MatchesSimulation(c.report, p, i)
    {
      DraftMatches(trusted, hash, c, now, selected, p, i);
    }
  }

  lemma DraftRequestedIff(trusted: string, hash: seq<Delegated> -> string, c: Context, now: int, selected: seq<Selected>, p: LocalPackage, m: Manifest)
    requires IsDraftFor(trusted, hash, c, now, selected, p)
    ensures (forall i :: 0 <= i < |p.actions| ==> IsRequested(m, p.actions[i])) <==>
            (forall s :: s in selected ==> ListsAction(m, s.action))
  {
    forall i | 0 <= i < |selected|
      ensures i < |p.actions| && (IsRequested(m, p.actions[i]) <==> ListsAction(m, selected[i].action))
    {
      RequestedIffListed(m, ActionsOf(selected)[i], p.sourceAddress, p.destinationAddress);
    }
  }

  /** Handed over for its own job and request before it expires, an assembled package passes exactly
      when the request's manifest lists what each of the selected actions is about. */
  lemma AssembledPassesIff(verify: SealedPlan -> bool, trusted: string, hash: seq<Delegated> -> string, c: Context,
                           factory: string, delegate: string, now: int, request: TaskRequest, j: Job, later: int)
    requires Assemble(verify, trusted, hash, c, factory, delegate, now).Ok?
    requires DistinctIds(c.sealed.plan.actions) && OneResultEach(c.report)
    requires IsContextOf(c, j) && OwnRequest(request, c.sealed.plan)
    requires later < Assemble(verify, trusted, hash, c, factory, delegate, now).value.expiresAt
    ensures InSigningScope(hash, request, j, Assemble(verify, trusted, hash, c, factory, delegate, now).value, later) <==>
            forall s :: s in Eligible(trusted, c.report, c.sealed.plan.actions, now) ==> ListsAction(request.assetManifest, s.action)
  {
    var selected := Eligible(trusted, c.report, c.sealed.plan.actions, now);
    var p := Assemble(verify, trusted, hash, c, factory, delegate, now).value;
    AssembledIsDraft(verify, trusted, hash, c, factory, delegate, now);
    DraftPassesIff(trusted, hash, c, now, selected, p, request, j, later);
    DraftRequestedIff(trusted, hash, c, now, selected, p, request.assetManifest);
  }

  /** Once a native transfer is among the selected actions, no request and no job let the package pass. */
  lemma SelectedNativeNeverPasses(verify: SealedPlan -> bool, trusted: string, hash: seq<Delegated> -> string, c: Context,
                                  factory: string, delegate: string, now: int, request: TaskRequest, j: Job, later: int, s: Selected)
    requires Assemble(verify, trusted, hash, c, factory, delegate, now).Ok?
    requires s in Eligible(trusted, c.report, c.sealed.plan.actions, now) && s.action.parameters.TransferNative?
    ensures !InSigningScope(hash, request, j, Assemble(verify, trusted, hash, c, factory, delegate, now).value, later)
  {
    var selected := Eligible(trusted, c.report, c.sealed.plan.actions, now);
    var p := Assemble(verify, trusted, hash, c, factory, delegate, now).value;
    AssembledIsDraft(verify, trusted, hash, c, factory, delegate, now);
    DraftRequestedIff(trusted, hash, c, now, selected, p, request.assetManifest);
    assert !ListsAction(request.assetManifest, s.action);
    var i :| 0 <= i < |p.actions| && !IsRequested(request.assetManifest, p.actions[i]);
  }
}
