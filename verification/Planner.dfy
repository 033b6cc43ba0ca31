/** The deterministic rescue planner (packages/planner/src/planner.ts:186-697): from a wallet
    scan to an ordered plan. */
module Planner {
  import opened Basics
  import opened Sorting
  import opened RescueActions
  import opened Ordering

  // ----- requests

  datatype Evidence = Evidence(id: string, chainId: nat, ownerAddress: string, supportStatus: SupportStatus)

  datatype Asset =
    | Native(evidence: Evidence, valueUsd: Option<Dollars>, balance: nat)
    | Erc20(evidence: Evidence, valueUsd: Option<Dollars>, contractAddress: string, balance: nat)
    | Erc721(evidence: Evidence, valueUsd: Option<Dollars>, contractAddress: string, tokenId: nat)
    | Erc1155(evidence: Evidence, valueUsd: Option<Dollars>, contractAddress: string, tokenId: nat, balance: nat)

  datatype Approval =
    | Erc20Allowance(evidence: Evidence, tokenAddress: string, spenderAddress: string, amount: nat)
    | Erc721Token(evidence: Evidence, collectionAddress: string, operatorAddress: string, tokenId: nat)
    | NftOperator(evidence: Evidence, standard: string, collectionAddress: string, operatorAddress: string, approved: bool)

  datatype Output =
    | Erc20Output(id: string, valueUsd: Option<Dollars>, contractAddress: string, amount: nat)
    | Erc721Output(id: string, valueUsd: Option<Dollars>, contractAddress: string, tokenId: nat)
    | Erc1155Output(id: string, valueUsd: Option<Dollars>, contractAddress: string, tokenId: nat, amount: nat)

  datatype CandidateKind = Claim(reference: string) | Withdraw(positionId: string) | Custom(operationId: string)

  datatype Candidate = Candidate(
    id: string, evidenceId: string, adapterId: string, adapterVersion: string, chainId: nat, sourceAddress: string,
    contractAddress: string, description: string, riskLevel: RiskLevel, valueUsd: Option<Dollars>,
    expectedEffects: seq<Effect>, kind: CandidateKind, outputs: seq<Output>)

  datatype Scan = Scan(
    id: string, incidentId: string, chainId: nat, address: string, complete: bool, observedAtBlock: nat,
    assets: seq<Asset>, approvals: seq<Approval>)

  datatype Request = Request(
    incidentId: string, destinationAddress: string, policyVersion: string, scan: Scan, candidates: seq<Candidate>)

  datatype TrustedAdapter = TrustedAdapter(
    adapterId: string, adapterVersion: string, chainId: nat, contractAddress: string,
    claims: bool, withdrawals: bool, customs: bool, allowedOutputs: seq<string>, allowedOperations: seq<string>)

  datatype PlanError = SameAddresses | OutOfScope | DependencyCycle

  // ----- scope

  function Trusting(adapters: seq<TrustedAdapter>, c: Candidate): (r: Option<TrustedAdapter>) {
    if adapters == [] then None
    else if adapters[0].adapterId == c.adapterId && adapters[0].adapterVersion == c.adapterVersion
            && adapters[0].chainId == c.chainId && SameText(adapters[0].contractAddress, c.contractAddress)
    then Some(adapters[0])
    else Trusting(adapters[1..], c)
  }

  predicate TrustsCandidate(t: TrustedAdapter, c: Candidate) {
    && (match c.kind
        case Claim(_) => t.claims
        case Withdraw(_) => t.withdrawals
        case Custom(operationId) => t.customs && operationId in t.allowedOperations)
    && forall i :: 0 <= i < |c.outputs| ==>
         exists k :: 0 <= k < |t.allowedOutputs| && SameText(t.allowedOutputs[k], c.outputs[i].contractAddress)
  }

  predicate EvidenceInScope(scan: Scan, e: Evidence) {
    e.chainId == scan.chainId && SameText(e.ownerAddress, scan.address)
  }

  /** validateEvidenceScope. */
  predicate InScope(request: Request, adapters: seq<TrustedAdapter>) {
    var scan, cs := request.scan, request.candidates;
    && scan.incidentId == request.incidentId
    && (forall i :: 0 <= i < |scan.assets| ==> EvidenceInScope(scan, scan.assets[i].evidence))
    && (forall i :: 0 <= i < |scan.approvals| ==> EvidenceInScope(scan, scan.approvals[i].evidence))
    && (forall i, j :: 0 <= i < j < |cs| ==> cs[i].id != cs[j].id)
    && (forall i :: 0 <= i < |cs| ==>
          && cs[i].chainId == scan.chainId && SameText(cs[i].sourceAddress, scan.address)
          && var t := Trusting(adapters, cs[i]); t.Some? && TrustsCandidate(t.value, cs[i]))
  }

  // ----- actions for evidence

  function RiskForValue(v: Option<Dollars>): RiskLevel {
    match v
    case None => MEDIUM
    case Some(x) => if x >= 10000.0 then CRITICAL else if x >= 1000.0 then HIGH else if x >= 100.0 then MEDIUM else LOW
  }

  function TransferId(assetId: string): string { "action:transfer:" + assetId }
  function AdapterActionId(candidateId: string): string { "action:adapter:" + candidateId }
  function OutputId(candidateId: string, outputId: string): string {
    "action:adapter-output:" + (candidateId + ":" + outputId)
  }
  function RevokeId(approvalId: string): string { "action:revoke:" + approvalId }

  function AssetEffects(a: Asset): seq<Effect> {
    [Effect(ASSET_TRANSFERRED, Some(a.evidence.id), if a.Native? then MoveNative else MoveAsset)]
  }

  function AssetTransfer(a: Asset, destination: string, dependencies: seq<string>): RescueAction {
    RescueAction(TransferId(a.evidence.id), a.evidence.chainId, a.evidence.ownerAddress, dependencies, [a.evidence.id],
                 AssetEffects(a), RiskForValue(a.valueUsd), a.valueUsd, SUPPORTED,
                 match a
                 case Native(_, _, balance) => TransferNative(destination, balance)
                 case Erc20(_, _, contract, balance) => TransferErc20(contract, destination, balance)
                 case Erc721(_, _, contract, tokenId) => TransferErc721(contract, destination, tokenId)
                 case Erc1155(_, _, contract, tokenId, balance) => TransferErc1155(contract, destination, tokenId, balance))
  }

  /** A supported asset of which nothing is left. */
  predicate IsEmpty(a: Asset) {
    !a.Erc721? && a.balance == 0
  }

  function AssetActions(a: Asset, destination: string): seq<RescueAction> {
    if !a.evidence.supportStatus.SUPPORTED? || a.Native? || IsEmpty(a) then []
    else [AssetTransfer(a, destination, [])]
  }

  function AssetOmissions(a: Asset): seq<Omission> {
    if a.evidence.supportStatus.SUPPORTED? then []
    else [Omission(a.evidence.id, a.evidence.supportStatus, UnverifiedAsset)]
  }

  function NativeAssets(a: Asset): seq<Asset> {
    if a.evidence.supportStatus.SUPPORTED? && a.Native? && a.balance > 0 then [a] else []
  }

  function AdapterAction(c: Candidate): RescueAction {
    RescueAction(AdapterActionId(c.id), c.chainId, c.sourceAddress, [], [c.evidenceId],
                 if c.expectedEffects != [] then c.expectedEffects else [Effect(POSITION_CHANGED, None, Words(c.description))],
                 c.riskLevel, c.valueUsd, SUPPORTED,
                 match c.kind
                 case Claim(reference) => ClaimSupportedAirdrop(c.adapterId, c.contractAddress, reference)
                 case Withdraw(positionId) => WithdrawSupportedPosition(c.adapterId, c.contractAddress, positionId)
                 case Custom(operationId) => CustomSupportedAdapter(c.adapterId, c.contractAddress, operationId))
  }

  function OutputEffects(o: Output): seq<Effect> {
    [Effect(ASSET_TRANSFERRED, Some(o.id), MoveOutput)]
  }

  function OutputTransfer(c: Candidate, o: Output, destination: string): RescueAction {
    RescueAction(OutputId(c.id, o.id), c.chainId, c.sourceAddress, [AdapterActionId(c.id)], [c.evidenceId, o.id],
                 OutputEffects(o), RiskForValue(if o.valueUsd.Some? then o.valueUsd else c.valueUsd), o.valueUsd, SUPPORTED,
                 match o
                 case Erc20Output(_, _, contract, amount) => TransferErc20(contract, destination, amount)
                 case Erc721Output(_, _, contract, tokenId) => TransferErc721(contract, destination, tokenId)
                 case Erc1155Output(_, _, contract, tokenId, amount) => TransferErc1155(contract, destination, tokenId, amount))
  }

  function CandidateActions(c: Candidate, destination: string): seq<RescueAction> {
    [AdapterAction(c)] + FlatMap((o: Output) => [OutputTransfer(c, o, destination)], c.outputs)
  }

  /** The ERC-20 contract an action moves tokens of, in lower case. */
  function TokenMoved(a: RescueAction): Option<string> {
    match a.parameters
    case TransferErc20(token, _, _) => Some(Lower(token))
    case _ => None
  }

  /** The NFT contract an action moves tokens of, in lower case. */
  function CollectionMoved(a: RescueAction): Option<string> {
    match a.parameters
    case TransferErc721(collection, _, _) => Some(Lower(collection))
    case TransferErc1155(collection, _, _, _) => Some(Lower(collection))
    case _ => None
  }

  /** The ids of the actions that move tokens of one contract, in order. */
  function MoversOf(moved: RescueAction -> Option<string>, contract: string, actions: seq<RescueAction>): seq<string> {
    FlatMap((a: RescueAction) => if moved(a) == Some(contract) then [a.id] else [], actions)
  }

  function RevocationEffects(parameters: Parameters): seq<Effect> {
    [Effect(ALLOWANCE_REVOKED, None, if parameters.RevokeErc20Approval? then ClearAllowance else RemoveOperator)]
  }

  function RevokeAction(e: Evidence, dependencies: seq<string>, parameters: Parameters): RescueAction {
    RescueAction(RevokeId(e.id), e.chainId, e.ownerAddress, dependencies, [e.id], RevocationEffects(parameters), HIGH, None,
                 SUPPORTED, parameters)
  }

  /** The revocation of an approval; `transfers` are the actions planned before the approvals. */
  function ApprovalActions(p: Approval, transfers: seq<RescueAction>): seq<RescueAction> {
    if !p.evidence.supportStatus.SUPPORTED? then []
    else match p
         case Erc20Allowance(e, token, spender, amount) =>
           if amount == 0 then []
           else [RevokeAction(e, MoversOf(TokenMoved, Lower(token), transfers), RevokeErc20Approval(token, spender))]
         case NftOperator(e, standard, collection, operator, approved) =>
           if !approved then []
           else [RevokeAction(e, MoversOf(CollectionMoved, Lower(collection), transfers),
                              RevokeNftOperator(standard, collection, operator))]
         case Erc721Token(_, _, _, _) => []
  }

  function ApprovalOmissions(p: Approval): seq<Omission> {
    if !p.evidence.supportStatus.SUPPORTED?
    then [Omission(p.evidence.id, p.evidence.supportStatus, UnverifiedApproval)]
    else if p.Erc721Token? then [Omission(p.evidence.id, UNSUPPORTED, TokenApproval)]
    else []
  }

  function DuplicateNative(a: Asset): seq<Omission> {
    [Omission(a.evidence.id, UNSUPPORTED, RepeatedNative)]
  }

  // ----- what a plan is made of

  function AssetTransfers(assets: seq<Asset>, destination: string): seq<RescueAction> {
    FlatMap((a: Asset) => AssetActions(a, destination), assets)
  }

  function AdapterActions(candidates: seq<Candidate>, destination: string): seq<RescueAction> {
    FlatMap((c: Candidate) => CandidateActions(c, destination), candidates)
  }

  function Transfers(r: Request): seq<RescueAction> {
    AssetTransfers(r.scan.assets, r.destinationAddress) + AdapterActions(r.candidates, r.destinationAddress)
  }

  function RevocationsOf(transfers: seq<RescueAction>, approvals: seq<Approval>): seq<RescueAction> {
    FlatMap((p: Approval) => ApprovalActions(p, transfers), approvals)
  }

  function Revocations(r: Request): seq<RescueAction> {
    RevocationsOf(Transfers(r), r.scan.approvals)
  }

  function Natives(r: Request): seq<Asset> {
    FlatMap(NativeAssets, r.scan.assets)
  }

  function ActionIds(actions: seq<RescueAction>): seq<string> {
    FlatMap((a: RescueAction) => [a.id], actions)
  }

  lemma {:induction false} ActionIdsLength(actions: seq<RescueAction>)
    ensures |ActionIds(actions)| == |actions|
  {
    if actions == [] {
    } else {
      ActionIdsLength(actions[..|actions| - 1]);
    }
  }

  function NativeActions(r: Request): seq<RescueAction> {
    if Natives(r) == [] then []
    else [AssetTransfer(Natives(r)[0], r.destinationAddress, ActionIds(Transfers(r) + Revocations(r)))]
  }

  /** All actions of a plan, in the order in which the planner creates them. */
  function PlannedActions(r: Request): seq<RescueAction> {
    Transfers(r) + Revocations(r) + NativeActions(r)
  }

  /** Everything the plan leaves out, in order. */
  function PlannedOmissions(r: Request): seq<Omission> {
    (if r.scan.complete then [] else [Omission(r.scan.id, UNKNOWN, IncompleteScan)])
    + FlatMap(AssetOmissions, r.scan.assets)
    + FlatMap(ApprovalOmissions, r.scan.approvals)
    + (if Natives(r) == [] then [] else FlatMap(DuplicateNative, Natives(r)[1..]))
  }

  function PrioritiesOf(actions: seq<RescueAction>): Priorities {
    if actions == [] then map[]
    else PrioritiesOf(actions[..|actions| - 1])[actions[|actions| - 1].id := PriorityFor(actions[|actions| - 1])]
  }

  lemma PlannedParts(r: Request, actions: seq<RescueAction>, natives: seq<Asset>)
    requires actions == Transfers(r) + Revocations(r) && natives == Natives(r)
    ensures PlannedActions(r)
         == actions + if natives == [] then [] else [AssetTransfer(natives[0], r.destinationAddress, ActionIds(actions))]
    ensures PlannedOmissions(r)
         == (if r.scan.complete then [] else [Omission(r.scan.id, UNKNOWN, IncompleteScan)])
            + FlatMap(AssetOmissions, r.scan.assets) + FlatMap(ApprovalOmissions, r.scan.approvals)
            + if |natives| > 1 then FlatMap(DuplicateNative, natives[1..]) else []
  {}

  /** The requests that get a plan. */
  ghost predicate Plannable(r: Request, adapters: seq<TrustedAdapter>) {
    !SameText(r.scan.address, r.destinationAddress) && InScope(r, adapters) && !NativeIdClashes(r)
  }

  /** The plan for a request: within the schema's rules, in pick order, with exactly the planned
      omissions, and READY exactly without any. */
  ghost predicate IsPlanOf(collate: Comparison<string>, r: Request, p: RescueActions.Plan) {
    && MeetsPlanSchema(p)
    && PickOrder(CompareActions(collate, PrioritiesOf(PlannedActions(r))), Actions(ById(PlannedActions(r))), p.actions)
    && p.omissions == PlannedOmissions(r) && (p.status.READY? <==> PlannedOmissions(r) == [])
    && p.id == "plan:" + r.incidentId + ":1:" + Decimal(r.scan.observedAtBlock)
    && p.incidentId == r.incidentId && p.policyVersion == r.policyVersion && p.chainId == r.scan.chainId
    && p.sourceAddress == r.scan.address && p.destinationAddress == r.destinationAddress
    && p.observedAtBlock == r.scan.observedAtBlock
  }

  // ----- the planner

  /** The transfers of each contract so far, as `addTransferIndex` keeps them. */
  ghost predicate Indexes(index: map<string, seq<string>>, moved: RescueAction -> Option<string>, actions: seq<RescueAction>) {
    forall k :: MoversOf(moved, k, actions) == if k in index then index[k] else []
  }

  function AddToIndex(index: map<string, seq<string>>, key: Option<string>, id: string): map<string, seq<string>> {
    if key.None? then index
    else index[key.value := (if key.value in index then index[key.value] else []) + [id]]
  }

  lemma {:induction false} IndexesStep(index: map<string, seq<string>>, moved: RescueAction -> Option<string>, actions: seq<RescueAction>, a: RescueAction)
    requires Indexes(index, moved, actions)
    ensures Indexes(AddToIndex(index, moved(a), a.id), moved, actions + [a])
  {}

  /** The builder's working state: `actions`, `priorities` and the two transfer indexes. */
  class Draft {
    var actions: seq<RescueAction>
    var priorities: Priorities
    var tokenTransfers: map<string, seq<string>>
    var collectionTransfers: map<string, seq<string>>

    constructor ()
      ensures Valid() && actions == []
    {
      actions, priorities, tokenTransfers, collectionTransfers := [], map[], map[], map[];
    }

    ghost predicate Valid()
      reads this
    {
      && priorities == PrioritiesOf(actions)
      && Indexes(tokenTransfers, TokenMoved, actions)
      && Indexes(collectionTransfers, CollectionMoved, actions)
    }

    method AddAction(a: RescueAction)
      requires Valid()
      modifies this
      ensures Valid() && actions == old(actions) + [a]
    {
      IndexesStep(tokenTransfers, TokenMoved, actions, a);
      IndexesStep(collectionTransfers, CollectionMoved, actions, a);
      assert (actions + [a])[..|actions|] == actions;
      actions := actions + [a];
      priorities := priorities[a.id := PriorityFor(a)];
      tokenTransfers := AddToIndex(tokenTransfers, TokenMoved(a), a.id);
      collectionTransfers := AddToIndex(collectionTransfers, CollectionMoved(a), a.id);
    }
  }

  class DeterministicRescuePlanner {
    const collate: Comparison<string>
    const trustedAdapters: seq<TrustedAdapter>

    constructor (collate: Comparison<string>, trustedAdapters: seq<TrustedAdapter>)
      ensures this.collate == collate && this.trustedAdapters == trustedAdapters
    {
      this.collate, this.trustedAdapters := collate, trustedAdapters;
    }

    method AddAssets(r: Request, draft: Draft) returns (omissions: seq<Omission>, natives: seq<Asset>)
      requires draft.Valid() && draft.actions == []
      modifies draft
      ensures draft.Valid()
      ensures draft.actions == AssetTransfers(r.scan.assets, r.destinationAddress)
      ensures omissions == FlatMap(AssetOmissions, r.scan.assets)
      ensures natives == Natives(r)
    {
      omissions, natives := [], [];
      var assets := r.scan.assets;
      for i := 0 to |assets|
        invariant draft.Valid()
        invariant draft.actions == AssetTransfers(assets[..i], r.destinationAddress)
        invariant omissions == FlatMap(AssetOmissions, assets[..i])
        invariant natives == FlatMap(NativeAssets, assets[..i])
      {
        FlatMapStep((a: Asset) => AssetActions(a, r.destinationAddress), assets, i);
        FlatMapStep(AssetOmissions, assets, i);
        FlatMapStep(NativeAssets, assets, i);
        var asset := assets[i];
        if !asset.evidence.supportStatus.SUPPORTED? {
          omissions := omissions + AssetOmissions(asset);
        } else if asset.Native? {
          if asset.balance > 0 {
            natives := natives + [asset];
          }
        } else if !IsEmpty(asset) {
          draft.AddAction(AssetTransfer(asset, r.destinationAddress, []));
        }
      }
      assert assets[..|assets|] == assets;
    }

    method AddCandidate(r: Request, draft: Draft, c: Candidate)
      requires draft.Valid()
      modifies draft
      ensures draft.Valid()
      ensures draft.actions == old(draft.actions) + CandidateActions(c, r.destinationAddress)
    {
      var step := (o: Output) => [OutputTransfer(c, o, r.destinationAddress)];
      draft.AddAction(AdapterAction(c));
      for i := 0 to |c.outputs|
        invariant draft.Valid()
        invariant draft.actions == old(draft.actions) + ([AdapterAction(c)] + FlatMap(step, c.outputs[..i]))
      {
        FlatMapStep(step, c.outputs, i);
        draft.AddAction(OutputTransfer(c, c.outputs[i], r.destinationAddress));
      }
      assert c.outputs[..|c.outputs|] == c.outputs;
    }

    method AddCandidates(r: Request, draft: Draft)
      requires draft.Valid()
      modifies draft
      ensures draft.Valid()
      ensures draft.actions == old(draft.actions) + AdapterActions(r.candidates, r.destinationAddress)
    {
      for i := 0 to |r.candidates|
        invariant draft.Valid()
        invariant CandidatesAdded(r, i, old(draft.actions), draft.actions)
      {
        ghost var actions := draft.actions;
        AddCandidate(r, draft, r.candidates[i]);
        CandidateAdded(r, i, old(draft.actions), actions);
      }
      assert r.candidates[..|r.candidates|] == r.candidates;
    }

    method AddApproval(draft: Draft, approval: Approval, ghost transfers: seq<RescueAction>, ghost before: seq<Approval>)
      returns (omissions: seq<Omission>)
      requires draft.Valid() && draft.actions == transfers + RevocationsOf(transfers, before)
      modifies draft
      ensures draft.Valid()
      ensures draft.actions == old(draft.actions) + ApprovalActions(approval, transfers)
      ensures omissions == ApprovalOmissions(approval)
    {
      RevocationsMoveNothing(transfers, before);
      omissions := [];
      if !approval.evidence.supportStatus.SUPPORTED? {
        omissions := ApprovalOmissions(approval);
        return;
      }
      match approval {
        case Erc20Allowance(e, token, spender, amount) =>
          if amount != 0 {
            var key := Lower(token);
            var dependencies := if key in draft.tokenTransfers then draft.tokenTransfers[key] else [];
            assert dependencies == MoversOf(TokenMoved, key, draft.actions);
            draft.AddAction(RevokeAction(e, dependencies, RevokeErc20Approval(token, spender)));
          }
        case NftOperator(e, standard, collection, operator, approved) =>
          if approved {
            var key := Lower(collection);
            var dependencies := if key in draft.collectionTransfers then draft.collectionTransfers[key] else [];
            assert dependencies == MoversOf(CollectionMoved, key, draft.actions);
            draft.AddAction(RevokeAction(e, dependencies, RevokeNftOperator(standard, collection, operator)));
          }
        case Erc721Token(_, _, _, _) =>
          omissions := ApprovalOmissions(approval);
      }
    }

    method AddApprovals(draft: Draft, approvals: seq<Approval>) returns (omissions: seq<Omission>)
      requires draft.Valid()
      modifies draft
      ensures draft.Valid()
      ensures draft.actions == old(draft.actions) + RevocationsOf(old(draft.actions), approvals)
      ensures omissions == FlatMap(ApprovalOmissions, approvals)
    {
      omissions := [];
      ghost var transfers := draft.actions;
      for i := 0 to |approvals|
        invariant draft.Valid() && ApprovalsAdded(transfers, approvals[..i], draft.actions, omissions)
      {
        ghost var actions := draft.actions;
        var more := AddApproval(draft, approvals[i], transfers, approvals[..i]);
        ApprovalAdded(transfers, approvals, i, actions, omissions);
        omissions := omissions + more;
      }
      assert approvals[..|approvals|] == approvals;
    }

    /** All actions and omissions, before the sort. */
    method Collect(r: Request) returns (draft: Draft, omissions: seq<Omission>)
      ensures fresh(draft) && draft.Valid()
      ensures draft.actions == PlannedActions(r) && omissions == PlannedOmissions(r)
    {
      draft := new Draft();
      omissions := if r.scan.complete then [] else [Omission(r.scan.id, UNKNOWN, IncompleteScan)];
      var assetOmissions, natives := AddAssets(r, draft);
      AddCandidates(r, draft);
      assert draft.actions == Transfers(r);
      var approvalOmissions := AddApprovals(draft, r.scan.approvals);
      PlannedParts(r, draft.actions, natives);
      omissions := omissions + assetOmissions + approvalOmissions;
      if |natives| > 1 {
        omissions := omissions + FlatMap(DuplicateNative, natives[1..]);
      }
      if natives != [] {
        draft.AddAction(AssetTransfer(natives[0], r.destinationAddress, ActionIds(draft.actions)));
      }
    }

    /** Builds the plan, or reports a dependency cycle exactly when the native asset shares
        its id with another planned asset. */
    method Plan(r: Request, now: string) returns (result: Result<RescueActions.Plan, PlanError>)
      requires IsCollation(collate)
      ensures SameText(r.scan.address, r.destinationAddress) <==> result == Err(SameAddresses)
      ensures !SameText(r.scan.address, r.destinationAddress) ==>
                (!InScope(r, trustedAdapters) <==> result == Err(OutOfScope))
      ensures !SameText(r.scan.address, r.destinationAddress) && InScope(r, trustedAdapters) ==>
                (result == Err(PlanError.DependencyCycle) <==> NativeIdClashes(r))
      ensures result.Ok? <==> Plannable(r, trustedAdapters)
      ensures result.Ok? ==> IsPlanOf(collate, r, result.value) && result.value.createdAt == now
    {
      if SameText(r.scan.address, r.destinationAddress) {
        return Err(SameAddresses);
      }
      if !InScope(r, trustedAdapters) {
        return Err(OutOfScope);
      }
      var draft, omissions := Collect(r);
      var sorted := TopologicalPrioritySort(collate, draft.actions, draft.priorities);
      CycleExactlyOnClash(r);
      if sorted.Err? {
        return Err(PlanError.DependencyCycle);
      }
      ByIdElements(draft.actions);
      PickOrderIsTopological(CompareActions(collate, draft.priorities), Actions(ById(draft.actions)), sorted.value);
      return Ok(RescueActions.Plan(
                  "plan:" + r.incidentId + ":1:" + Decimal(r.scan.observedAtBlock), r.incidentId, r.policyVersion,
                  r.scan.chainId, r.scan.address, r.destinationAddress, r.scan.observedAtBlock,
                  if |omissions| > 0 then PARTIAL else READY, sorted.value, omissions, now));
    }
  }

  // ----- where actions come from

  predicate IsRevocation(a: RescueAction) {
    a.parameters.RevokeErc20Approval? || a.parameters.RevokeNftOperator?
  }

  ghost predicate IsAssetTransfer(r: Request, a: RescueAction) {
    exists i :: 0 <= i < |r.scan.assets| && a in AssetActions(r.scan.assets[i], r.destinationAddress)
  }

  ghost predicate IsAdapterAction(r: Request, a: RescueAction) {
    exists i :: 0 <= i < |r.candidates| && a == AdapterAction(r.candidates[i])
  }

  ghost predicate IsOutputTransfer(r: Request, a: RescueAction) {
    exists i, k :: 0 <= i < |r.candidates| && 0 <= k < |r.candidates[i].outputs|
                   && a == OutputTransfer(r.candidates[i], r.candidates[i].outputs[k], r.destinationAddress)
  }

  ghost predicate IsPlannedRevocation(r: Request, a: RescueAction) {
    exists i :: 0 <= i < |r.scan.approvals| && a in ApprovalActions(r.scan.approvals[i], Transfers(r))
  }

  lemma {:induction false} AdapterStep(candidates: seq<Candidate>, i: nat, destination: string)
    requires i < |candidates|
    ensures AdapterActions(candidates[..i + 1], destination)
         == AdapterActions(candidates[..i], destination) + CandidateActions(candidates[i], destination)
  {
    FlatMapStep((c: Candidate) => CandidateActions(c, destination), candidates, i);
  }

  lemma CandidateMembers(r: Request, c: Candidate, a: RescueAction)
    ensures a in CandidateActions(c, r.destinationAddress) <==>
            a == AdapterAction(c) || exists k :: 0 <= k < |c.outputs| && a == OutputTransfer(c, c.outputs[k], r.destinationAddress)
  {
    var step := (o: Output) => [OutputTransfer(c, o, r.destinationAddress)];
    FlatMapMember(step, c.outputs);
    assert a in CandidateActions(c, r.destinationAddress) <==> a == AdapterAction(c) || a in FlatMap(step, c.outputs);
    if k :| 0 <= k < |c.outputs| && a == OutputTransfer(c, c.outputs[k], r.destinationAddress) {
      assert a in step(c.outputs[k]);
    }
  }

  lemma TransferMembers(r: Request, a: RescueAction)
    ensures a in Transfers(r) <==> IsAssetTransfer(r, a) || IsAdapterAction(r, a) || IsOutputTransfer(r, a)
  {
    var assetStep := (x: Asset) => AssetActions(x, r.destinationAddress);
    var candidateStep := (c: Candidate) => CandidateActions(c, r.destinationAddress);
    FlatMapMember(assetStep, r.scan.assets);
    FlatMapMember(candidateStep, r.candidates);
    forall i | 0 <= i < |r.candidates|
      ensures a in candidateStep(r.candidates[i]) <==>
              a == AdapterAction(r.candidates[i])
              || exists k :: 0 <= k < |r.candidates[i].outputs|
                             && a == OutputTransfer(r.candidates[i], r.candidates[i].outputs[k], r.destinationAddress)
    {
      CandidateMembers(r, r.candidates[i], a);
    }
    assert a in FlatMap(assetStep, r.scan.assets) <==> IsAssetTransfer(r, a) by {
      if i :| 0 <= i < |r.scan.assets| && a in AssetActions(r.scan.assets[i], r.destinationAddress) {
        assert a in assetStep(r.scan.assets[i]);
      }
    }
  }

  lemma {:induction false} RevocationMembers(transfers: seq<RescueAction>, approvals: seq<Approval>, a: RescueAction)
    ensures a in RevocationsOf(transfers, approvals) <==>
            exists i :: 0 <= i < |approvals| && a in ApprovalActions(approvals[i], transfers)
  {
    var step := (p: Approval) => ApprovalActions(p, transfers);
    FlatMapMember(step, approvals);
    if i :| 0 <= i < |approvals| && a in ApprovalActions(approvals[i], transfers) {
      assert a in step(approvals[i]);
    }
  }

  lemma {:induction false} RevocationStep(transfers: seq<RescueAction>, approvals: seq<Approval>, i: nat)
    requires i < |approvals|
    ensures RevocationsOf(transfers, approvals[..i + 1])
         == RevocationsOf(transfers, approvals[..i]) + ApprovalActions(approvals[i], transfers)
  {
    FlatMapStep((p: Approval) => ApprovalActions(p, transfers), approvals, i);
  }

  /** What has been added to the draft after the first `i` candidates. */
  ghost predicate CandidatesAdded(r: Request, i: nat, before: seq<RescueAction>, actions: seq<RescueAction>)
    requires i <= |r.candidates|
  {
    actions == before + AdapterActions(r.candidates[..i], r.destinationAddress)
  }

  lemma CandidateAdded(r: Request, i: nat, before: seq<RescueAction>, actions: seq<RescueAction>)
    requires i < |r.candidates| && CandidatesAdded(r, i, before, actions)
    ensures CandidatesAdded(r, i + 1, before, actions + CandidateActions(r.candidates[i], r.destinationAddress))
  {
    AdapterStep(r.candidates, i, r.destinationAddress);
  }

  /** What has been added when these approvals have been gone through. */
  ghost predicate ApprovalsAdded(transfers: seq<RescueAction>, approvals: seq<Approval>, actions: seq<RescueAction>, omissions: seq<Omission>) {
    actions == transfers + RevocationsOf(transfers, approvals) && omissions == FlatMap(ApprovalOmissions, approvals)
  }

  lemma {:induction false} ApprovalAdded(transfers: seq<RescueAction>, approvals: seq<Approval>, i: nat,
                                         actions: seq<RescueAction>, omissions: seq<Omission>)
    requires i < |approvals| && ApprovalsAdded(transfers, approvals[..i], actions, omissions)
    ensures ApprovalsAdded(transfers, approvals[..i + 1], actions + ApprovalActions(approvals[i], transfers),
                           omissions + ApprovalOmissions(approvals[i]))
  {
    RevocationStep(transfers, approvals, i);
    FlatMapStep(ApprovalOmissions, approvals, i);
  }

  lemma {:induction false} NoMovers(moved: RescueAction -> Option<string>, key: string, a: seq<RescueAction>, b: seq<RescueAction>)
    requires forall x :: x in b ==> moved(x) != Some(key)
    ensures MoversOf(moved, key, a + b) == MoversOf(moved, key, a)
    decreases |b|
  {
    if b == [] {
      assert a + b == a;
    } else {
      assert (a + b)[..|a + b| - 1] == a + b[..|b| - 1];
      NoMovers(moved, key, a, b[..|b| - 1]);
    }
  }

  ghost predicate SameMovers(moved: RescueAction -> Option<string>, a: seq<RescueAction>, b: seq<RescueAction>) {
    forall k :: MoversOf(moved, k, a) == MoversOf(moved, k, b)
  }

  /** Revocations planned so far do not change the transfer indexes. */
  lemma {:induction false} RevocationsMoveNothing(transfers: seq<RescueAction>, approvals: seq<Approval>)
    ensures var done := transfers + RevocationsOf(transfers, approvals);
            SameMovers(TokenMoved, done, transfers) && SameMovers(CollectionMoved, done, transfers)
  {
    var revokes := RevocationsOf(transfers, approvals);
    forall a | a in revokes ensures IsRevocation(a) {
      RevocationMembers(transfers, approvals, a);
    }
    forall k ensures MoversOf(TokenMoved, k, transfers + revokes) == MoversOf(TokenMoved, k, transfers) {
      NoMovers(TokenMoved, k, transfers, revokes);
    }
    forall k ensures MoversOf(CollectionMoved, k, transfers + revokes) == MoversOf(CollectionMoved, k, transfers) {
      NoMovers(CollectionMoved, k, transfers, revokes);
    }
  }

  lemma {:induction false} MoverIds(moved: RescueAction -> Option<string>, key: string, actions: seq<RescueAction>, d: string)
    ensures d in MoversOf(moved, key, actions) <==> exists a :: a in actions && moved(a) == Some(key) && a.id == d
  {
    var step := (a: RescueAction) => if moved(a) == Some(key) then [a.id] else [];
    FlatMapMember(step, actions);
    if a :| a in actions && moved(a) == Some(key) && a.id == d {
      var i :| 0 <= i < |actions| && actions[i] == a;
      assert d in step(actions[i]);
    }
  }

  lemma {:induction false} ActionIdMembers(actions: seq<RescueAction>, d: string)
    ensures d in ActionIds(actions) <==> d in IdSet(actions)
  {
    var step := (a: RescueAction) => [a.id];
    FlatMapMember(step, actions);
    if d in IdSet(actions) {
      var a :| a in actions && a.id == d;
      var i :| 0 <= i < |actions| && actions[i] == a;
      assert d in step(actions[i]);
    }
  }

  // ----- when the dependencies are acyclic

  /** The id of the first native asset to be moved is also the id of another planned asset. */
  ghost predicate NativeIdClashes(r: Request) {
    Natives(r) != []
    && exists i :: 0 <= i < |r.scan.assets| && !r.scan.assets[i].Native?
                   && AssetActions(r.scan.assets[i], r.destinationAddress) != []
                   && r.scan.assets[i].evidence.id == Natives(r)[0].evidence.id
  }

  /** Adapters and asset transfers come first, then adapter outputs, revocations and the native transfer. */
  function Level(a: RescueAction): nat {
    if a.parameters.TransferNative? then 3
    else if IsRevocation(a) then 2
    else if |a.id| > 14 && a.id[14] == '-' then 1
    else 0
  }

  lemma IdShapes(x: string, y: string)
    ensures TransferId(x)[7] == 't' && RevokeId(x)[7] == 'r'
    ensures AdapterActionId(x)[7] == 'a' && AdapterActionId(x)[14] == ':'
    ensures OutputId(x, y)[7] == 'a' && OutputId(x, y)[14] == '-'
    ensures TransferId(x) == TransferId(y) ==> x == y
    ensures AdapterActionId(x) == AdapterActionId(y) ==> x == y
    ensures RevokeId(x) == RevokeId(y) ==> x == y
  {
    assert x == TransferId(x)[16..] && y == TransferId(y)[16..];
    assert x == AdapterActionId(x)[15..] && y == AdapterActionId(y)[15..];
    assert x == RevokeId(x)[14..] && y == RevokeId(y)[14..];
  }

  lemma PlannedMembers(r: Request, a: RescueAction)
    ensures a in PlannedActions(r) <==>
            IsAssetTransfer(r, a) || IsAdapterAction(r, a) || IsOutputTransfer(r, a) || IsPlannedRevocation(r, a)
            || a in NativeActions(r)
  {
    TransferMembers(r, a);
    RevocationMembers(Transfers(r), r.scan.approvals, a);
  }

  lemma AssetShape(r: Request, a: RescueAction)
    requires IsAssetTransfer(r, a)
    ensures |a.id| > 7 && a.id[7] == 't' && Level(a) == 0
  {}

  lemma AdapterShape(r: Request, a: RescueAction)
    requires IsAdapterAction(r, a)
    ensures |a.id| > 14 && a.id[7] == 'a' && a.id[14] == ':' && Level(a) == 0
  {}

  lemma OutputShape(r: Request, a: RescueAction)
    requires IsOutputTransfer(r, a)
    ensures |a.id| > 14 && a.id[7] == 'a' && a.id[14] == '-' && Level(a) == 1
  {}

  lemma RevocationShape(r: Request, a: RescueAction)
    requires IsPlannedRevocation(r, a)
    ensures |a.id| > 7 && a.id[7] == 'r' && Level(a) == 2
  {
    var i :| 0 <= i < |r.scan.approvals| && a in ApprovalActions(r.scan.approvals[i], Transfers(r));
    RevocationOf(r.scan.approvals[i], Transfers(r), a);
  }

  lemma RevocationOf(p: Approval, transfers: seq<RescueAction>, a: RescueAction)
    requires a in ApprovalActions(p, transfers)
    ensures |a.id| > 7 && a.id[7] == 'r' && Level(a) == 2
  {}

  lemma NativeShape(r: Request, a: RescueAction)
    requires a in NativeActions(r)
    ensures |a.id| > 7 && a.id[7] == 't' && Level(a) == 3
  {
    NativesAreNative(r);
    assert Natives(r)[0] in Natives(r);
    IdShapes(Natives(r)[0].evidence.id, "");
  }

  /** The kind of a planned action can be read off its id. */
  lemma LevelShape(r: Request, a: RescueAction)
    requires a in PlannedActions(r)
    ensures |a.id| > 7
    ensures Level(a) == 3 <==> a in NativeActions(r)
    ensures Level(a) == 3 ==> a.id[7] == 't'
    ensures Level(a) == 2 <==> a.id[7] == 'r'
    ensures a.id[7] == 'a' ==> |a.id| > 14 && Level(a) == if a.id[14] == '-' then 1 else 0
    ensures Level(a) == 1 ==> a.id[7] == 'a'
    ensures a.id[7] == 't' && Level(a) < 3 ==> IsAssetTransfer(r, a)
  {
    PlannedMembers(r, a);
    if a in NativeActions(r) { NativeShape(r, a); }
    else if IsAssetTransfer(r, a) { AssetShape(r, a); }
    else if IsAdapterAction(r, a) { AdapterShape(r, a); }
    else if IsOutputTransfer(r, a) { OutputShape(r, a); }
    else { RevocationShape(r, a); }
  }

  lemma NativesAreNative(r: Request)
    ensures forall a :: a in Natives(r) <==> a in r.scan.assets && NativeAssets(a) == [a]
  {
    var step := NativeAssets;
    FlatMapMember(step, r.scan.assets);
    forall a | a in r.scan.assets && NativeAssets(a) == [a] ensures a in Natives(r) {
      var i :| 0 <= i < |r.scan.assets| && r.scan.assets[i] == a;
      assert a in step(r.scan.assets[i]);
    }
  }

  /** Outputs depend on their adapter action, revocations on transfers, the native transfer on
      everything else, and nothing else depends on anything. */
  lemma DependencyShape(r: Request, a: RescueAction, d: string)
    requires a in PlannedActions(r) && d in a.dependencies
    ensures d in IdSet(PlannedActions(r))
    ensures Level(a) == 1 ==> |d| > 14 && d[7] == 'a' && d[14] == ':'
    ensures Level(a) == 2 ==> |d| > 7 && d[7] != 'r' && d in IdSet(Transfers(r))
    ensures Level(a) == 3 ==> d in IdSet(Transfers(r) + Revocations(r))
    ensures Level(a) > 0
  {
    PlannedMembers(r, a);
    LevelShape(r, a);
    if IsOutputTransfer(r, a) {
      var i, k :| 0 <= i < |r.candidates| && 0 <= k < |r.candidates[i].outputs|
                  && a == OutputTransfer(r.candidates[i], r.candidates[i].outputs[k], r.destinationAddress);
      IdShapes(r.candidates[i].id, r.candidates[i].outputs[k].id);
      PlannedMembers(r, AdapterAction(r.candidates[i]));
    } else if IsPlannedRevocation(r, a) {
      var i :| 0 <= i < |r.scan.approvals| && a in ApprovalActions(r.scan.approvals[i], Transfers(r));
      RevocationDependencies(r, r.scan.approvals[i], a, d);
      var b :| b in Transfers(r) && b.id == d;
      TransferMembers(r, b);
      assert b in PlannedActions(r);
      LevelShape(r, b);
      NotRevoking(r, b);
    } else if a in NativeActions(r) {
      ActionIdMembers(Transfers(r) + Revocations(r), d);
      var b :| b in Transfers(r) + Revocations(r) && b.id == d;
      assert b in PlannedActions(r);
    }
  }

  lemma NotRevoking(r: Request, a: RescueAction)
    requires a in Transfers(r)
    ensures Level(a) < 2
  {
    TransferMembers(r, a);
  }

  /** A revocation depends on the transfers of its contract, and on nothing else. */
  lemma RevocationDependencies(r: Request, p: Approval, a: RescueAction, d: string)
    requires a in ApprovalActions(p, Transfers(r))
    ensures d in a.dependencies <==> exists b :: b in Transfers(r) && b.id == d && Revokes(a, b)
  {
    match p {
      case Erc20Allowance(_, token, _, _) =>
        MoverIds(TokenMoved, Lower(token), Transfers(r), d);
        assert forall b :: Revokes(a, b) <==> TokenMoved(b) == Some(Lower(token));
      case NftOperator(_, _, collection, _, _) =>
        MoverIds(CollectionMoved, Lower(collection), Transfers(r), d);
        assert forall b :: Revokes(a, b) <==> CollectionMoved(b) == Some(Lower(collection));
      case Erc721Token(_, _, _, _) =>
    }
  }

  /** `b` moves tokens of the contract on which `a` revokes an approval. */
  predicate Revokes(a: RescueAction, b: RescueAction) {
    match a.parameters
    case RevokeErc20Approval(token, _) => TokenMoved(b) == Some(Lower(token))
    case RevokeNftOperator(_, collection, _) => CollectionMoved(b) == Some(Lower(collection))
    case _ => false
  }

  /** A clash means that the native transfer's id occurs among its own dependencies. */
  lemma ClashMeans(r: Request)
    ensures NativeIdClashes(r) <==>
            Natives(r) != [] && TransferId(Natives(r)[0].evidence.id) in IdSet(Transfers(r) + Revocations(r))
  {
    if Natives(r) == [] {
      return;
    }
    var x := Natives(r)[0].evidence.id;
    if NativeIdClashes(r) {
      var i :| 0 <= i < |r.scan.assets| && !r.scan.assets[i].Native?
               && AssetActions(r.scan.assets[i], r.destinationAddress) != [] && r.scan.assets[i].evidence.id == x;
      var a := AssetTransfer(r.scan.assets[i], r.destinationAddress, []);
      assert a in AssetActions(r.scan.assets[i], r.destinationAddress);
      TransferMembers(r, a);
      assert a in Transfers(r) + Revocations(r);
    }
    if TransferId(x) in IdSet(Transfers(r) + Revocations(r)) {
      var a :| a in Transfers(r) + Revocations(r) && a.id == TransferId(x);
      assert a in PlannedActions(r);
      PlannedMembers(r, a);
      LevelShape(r, a);
      IdShapes(x, "");
      OnlyAssetsClash(r, a, x);
    }
  }

  lemma OnlyAssetsClash(r: Request, a: RescueAction, x: string)
    requires a in Transfers(r) + Revocations(r) && a.id == TransferId(x)
    ensures exists i :: 0 <= i < |r.scan.assets| && !r.scan.assets[i].Native?
                        && AssetActions(r.scan.assets[i], r.destinationAddress) != [] && r.scan.assets[i].evidence.id == x
  {
    TransferMembers(r, a);
    RevocationMembers(Transfers(r), r.scan.approvals, a);
    assert a in PlannedActions(r);
    LevelShape(r, a);
    IdShapes(x, "");
    assert Level(a) < 3;
    var i :| 0 <= i < |r.scan.assets| && a in AssetActions(r.scan.assets[i], r.destinationAddress);
    IdShapes(x, r.scan.assets[i].evidence.id);
  }

  lemma LevelsRank(r: Request, a: RescueAction, d: string, b: RescueAction)
    requires !NativeIdClashes(r)
    requires a in PlannedActions(r) && d in a.dependencies
    requires b in PlannedActions(r) && b.id == d
    ensures Level(b) < Level(a)
  {
    DependencyShape(r, a, d);
    LevelShape(r, a);
    LevelShape(r, b);
    ClashMeans(r);
    assert forall x :: x in IdSet(Transfers(r)) ==> x in IdSet(Transfers(r) + Revocations(r));
  }

  lemma ClashIsCyclic(r: Request, rank: RescueAction -> nat)
    requires NativeIdClashes(r)
    ensures !Ranked(rank, Actions(ById(PlannedActions(r))))
  {
    var all := Actions(ById(PlannedActions(r)));
    var native := NativeActions(r)[0];
    ClashingNative(r);
    assert native in all && !DependencyBelow(rank, all, native, native.id);
  }

  lemma ClashingNative(r: Request)
    requires NativeIdClashes(r)
    ensures NativeActions(r) != [] && NativeActions(r)[0] in Actions(ById(PlannedActions(r)))
    ensures NativeActions(r)[0].id in NativeActions(r)[0].dependencies
  {
    var planned, native := PlannedActions(r), NativeActions(r)[0];
    ByIdKeys(planned);
    ActionsOf(ById(planned));
    assert planned[|planned| - 1] == native;
    ClashMeans(r);
    ActionIdMembers(Transfers(r) + Revocations(r), native.id);
  }

  /** Without the clash an action's level ranks it above its dependencies. */
  lemma LevelsAreRanks(r: Request, rank: RescueAction -> nat, a: RescueAction, d: string)
    requires !NativeIdClashes(r) && a in PlannedActions(r) && d in a.dependencies
    requires forall x :: rank(x) == Level(x)
    ensures DependencyBelow(rank, Actions(ById(PlannedActions(r))), a, d)
  {
    var planned := PlannedActions(r);
    var all := Actions(ById(planned));
    ByIdElements(planned);
    ActionsOf(ById(planned));
    DependencyShape(r, a, d);
    var b := ById(planned)[d];
    assert b in all && b.id == d;
    forall c | c in all && c.id == d ensures rank(c) < rank(a) {
      assert c in planned;
      LevelsRank(r, a, d, c);
    }
  }

  lemma RankedByLevel(r: Request, rank: RescueAction -> nat)
    requires !NativeIdClashes(r) && forall x :: rank(x) == Level(x)
    ensures Ranked(rank, Actions(ById(PlannedActions(r))))
  {
    var all := Actions(ById(PlannedActions(r)));
    ByIdElements(PlannedActions(r));
    forall a, d | a in all && d in a.dependencies ensures DependencyBelow(rank, all, a, d) {
      LevelsAreRanks(r, rank, a, d);
    }
  }

  lemma AllRanked(r: Request)
    requires !NativeIdClashes(r)
    ensures exists rank: RescueAction -> nat :: Ranked(rank, Actions(ById(PlannedActions(r))))
  {
    var rank: RescueAction -> nat := x => Level(x);
    RankedByLevel(r, rank);
    assert Ranked(rank, Actions(ById(PlannedActions(r))));
  }

  /** The dependencies are acyclic exactly when the native transfer's id is its own. */
  lemma CycleExactlyOnClash(r: Request)
    ensures (exists rank: RescueAction -> nat :: Ranked(rank, Actions(ById(PlannedActions(r))))) <==> !NativeIdClashes(r)
  {
    if NativeIdClashes(r) {
      forall rank: RescueAction -> nat ensures !Ranked(rank, Actions(ById(PlannedActions(r)))) {
        ClashIsCyclic(r, rank);
      }
    } else {
      AllRanked(r);
    }
  }
}
