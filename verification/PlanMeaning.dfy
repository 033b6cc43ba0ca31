/** What a plan does with the assets, adapter outputs and approvals it was made for
    (packages/planner/src/planner.ts:196-374, 514-673). */
module PlanMeaning {
  import opened Basics
  import opened Sorting
  import opened RescueActions
  import opened Ordering
  import opened Planner
  import opened PlanProperties

  // ----- amounts

  /** What can be held in some amount. Contracts are compared in lower case. */
  datatype Holding = Coin | Token(contract: string) | Nft(contract: string, tokenId: nat) | Multi(contract: string, tokenId: nat)

  function MovedBy(a: RescueAction, h: Holding): nat {
    match a.parameters
    case TransferNative(_, maximum) => if h == Coin then maximum else 0
    case TransferErc20(token, _, amount) => if h == Token(Lower(token)) then amount else 0
    case TransferErc721(collection, _, tokenId) => if h == Nft(Lower(collection), tokenId) then 1 else 0
    case TransferErc1155(collection, _, tokenId, amount) => if h == Multi(Lower(collection), tokenId) then amount else 0
    case _ => 0
  }

  function AmountMoved(actions: seq<RescueAction>, h: Holding): nat {
    if actions == [] then 0 else AmountMoved(actions[..|actions| - 1], h) + MovedBy(actions[|actions| - 1], h)
  }

  /** What an asset of the scan counts for: nothing unless it is supported. */
  function HeldAs(a: Asset, h: Holding): nat {
    if !a.evidence.supportStatus.SUPPORTED? then 0
    else match a
         case Native(_, _, balance) => if h == Coin then balance else 0
         case Erc20(_, _, contract, balance) => if h == Token(Lower(contract)) then balance else 0
         case Erc721(_, _, contract, tokenId) => if h == Nft(Lower(contract), tokenId) then 1 else 0
         case Erc1155(_, _, contract, tokenId, balance) => if h == Multi(Lower(contract), tokenId) then balance else 0
  }

  function AmountHeld(assets: seq<Asset>, h: Holding): nat {
    if assets == [] then 0 else AmountHeld(assets[..|assets| - 1], h) + HeldAs(assets[|assets| - 1], h)
  }

  function PaidAs(o: Output, h: Holding): nat {
    match o
    case Erc20Output(_, _, contract, amount) => if h == Token(Lower(contract)) then amount else 0
    case Erc721Output(_, _, contract, tokenId) => if h == Nft(Lower(contract), tokenId) then 1 else 0
    case Erc1155Output(_, _, contract, tokenId, amount) => if h == Multi(Lower(contract), tokenId) then amount else 0
  }

  function AmountPaid(outputs: seq<Output>, h: Holding): nat {
    if outputs == [] then 0 else AmountPaid(outputs[..|outputs| - 1], h) + PaidAs(outputs[|outputs| - 1], h)
  }

  /** What the adapters pay out in all. */
  function AmountPaidOut(candidates: seq<Candidate>, h: Holding): nat {
    if candidates == [] then 0
    else AmountPaidOut(candidates[..|candidates| - 1], h) + AmountPaid(candidates[|candidates| - 1].outputs, h)
  }

  lemma {:induction false} AmountAppend(a: seq<RescueAction>, b: seq<RescueAction>, h: Holding)
    ensures AmountMoved(a + b, h) == AmountMoved(a, h) + AmountMoved(b, h)
    decreases |b|
  {
    if b == [] {
      assert a + b == a;
    } else {
      AmountAppend(a, b[..|b| - 1], h);
      assert (a + b)[..|a + b| - 1] == a + b[..|b| - 1];
    }
  }

  lemma {:induction false} AmountRemoved(actions: seq<RescueAction>, k: nat, h: Holding)
    requires k < |actions|
    ensures AmountMoved(actions, h) == AmountMoved(actions[..k] + actions[k + 1..], h) + MovedBy(actions[k], h)
  {
    assert actions == actions[..k] + ([actions[k]] + actions[k + 1..]);
    AmountAppend(actions[..k], [actions[k]] + actions[k + 1..], h);
    AmountAppend([actions[k]], actions[k + 1..], h);
    AmountAppend(actions[..k], actions[k + 1..], h);
    assert AmountMoved([actions[k]], h) == MovedBy(actions[k], h);
  }

  /** Listing the same actions in another order moves the same amounts. */
  lemma {:induction false} OrderDoesNotCount(a: seq<RescueAction>, b: seq<RescueAction>, h: Holding)
    requires DistinctIds(a) && DistinctIds(b) && ToSet(a) == ToSet(b) && |a| == |b|
    ensures AmountMoved(a, h) == AmountMoved(b, h)
    decreases |a|
  {
    if a == [] {
    } else {
      var init, last := a[..|a| - 1], a[|a| - 1];
      assert last in ToSet(a);
      var k :| 0 <= k < |b| && b[k] == last;
      var rest := b[..k] + b[k + 1..];
      AmountRemoved(b, k, h);
      WithoutOne(a, b, k);
      OrderDoesNotCount(init, rest, h);
    }
  }

  lemma {:induction false} WithoutOne(a: seq<RescueAction>, b: seq<RescueAction>, k: nat)
    requires a != [] && DistinctIds(a) && DistinctIds(b) && ToSet(a) == ToSet(b) && k < |b| && b[k] == a[|a| - 1]
    ensures DistinctIds(b[..k] + b[k + 1..]) && ToSet(a[..|a| - 1]) == ToSet(b[..k] + b[k + 1..])
  {
    var init, rest := a[..|a| - 1], b[..k] + b[k + 1..];
    forall x ensures x in init <==> x in rest {
      InInit(a, x);
      InRest(b, k, x);
      assert x in a <==> x in ToSet(a);
      assert x in b <==> x in ToSet(b);
    }
  }

  lemma {:induction false} InInit(a: seq<RescueAction>, x: RescueAction)
    requires a != [] && DistinctIds(a)
    ensures x in a[..|a| - 1] <==> x in a && x != a[|a| - 1]
  {
    assert a == a[..|a| - 1] + [a[|a| - 1]];
  }

  lemma {:induction false} InRest(b: seq<RescueAction>, k: nat, x: RescueAction)
    requires k < |b| && DistinctIds(b)
    ensures x in b[..k] + b[k + 1..] <==> x in b && x != b[k]
  {
    assert b == b[..k] + [b[k]] + b[k + 1..];
    if x in b && x != b[k] {
      var i :| 0 <= i < |b| && b[i] == x;
      assert i < k ==> b[..k][i] == x;
      assert i > k ==> b[k + 1..][i - k - 1] == x;
    }
  }

  // ----- what is planned

  lemma AssetMoves(a: Asset, destination: string, h: Holding)
    requires h != Coin
    ensures AmountMoved(AssetActions(a, destination), h) == HeldAs(a, h)
    ensures AmountMoved(AssetActions(a, destination), Coin) == 0
  {}

  lemma {:induction false} AssetsMove(assets: seq<Asset>, destination: string, h: Holding)
    ensures AmountMoved(AssetTransfers(assets, destination), h) == if h == Coin then 0 else AmountHeld(assets, h)
  {
    if assets == [] {
    } else {
      var init, last := assets[..|assets| - 1], assets[|assets| - 1];
      AssetsMove(init, destination, h);
      AssetMoves(last, destination, if h == Coin then Token("") else h);
      AmountAppend(AssetTransfers(init, destination), AssetActions(last, destination), h);
    }
  }

  lemma {:induction false} OutputsMove(c: Candidate, outputs: seq<Output>, destination: string, h: Holding)
    ensures AmountMoved(FlatMap((o: Output) => [OutputTransfer(c, o, destination)], outputs), h) == AmountPaid(outputs, h)
  {
    if outputs == [] {
    } else {
      var step := (o: Output) => [OutputTransfer(c, o, destination)];
      var init, last := outputs[..|outputs| - 1], outputs[|outputs| - 1];
      OutputsMove(c, init, destination, h);
      AmountAppend(FlatMap(step, init), step(last), h);
      OutputMoves(c, last, destination, h);
    }
  }

  lemma OutputMoves(c: Candidate, o: Output, destination: string, h: Holding)
    ensures AmountMoved([OutputTransfer(c, o, destination)], h) == PaidAs(o, h)
  {}

  lemma CandidateMoves(c: Candidate, destination: string, h: Holding)
    ensures AmountMoved(CandidateActions(c, destination), h) == AmountPaid(c.outputs, h)
  {
    var outputs := FlatMap((o: Output) => [OutputTransfer(c, o, destination)], c.outputs);
    AmountAppend([AdapterAction(c)], outputs, h);
    OutputsMove(c, c.outputs, destination, h);
    assert AmountMoved([AdapterAction(c)], h) == 0;
  }

  lemma {:induction false} CandidatesMove(candidates: seq<Candidate>, destination: string, h: Holding)
    ensures AmountMoved(AdapterActions(candidates, destination), h) == AmountPaidOut(candidates, h)
  {
    if candidates == [] {
    } else {
      var init, last := candidates[..|candidates| - 1], candidates[|candidates| - 1];
      CandidatesMove(init, destination, h);
      CandidateMoves(last, destination, h);
      AmountAppend(AdapterActions(init, destination), CandidateActions(last, destination), h);
    }
  }

  lemma RevocationMovesNothing(p: Approval, transfers: seq<RescueAction>, h: Holding)
    ensures AmountMoved(ApprovalActions(p, transfers), h) == 0
  {}

  lemma {:induction false} NoRevocationMoves(transfers: seq<RescueAction>, approvals: seq<Approval>, h: Holding)
    ensures AmountMoved(RevocationsOf(transfers, approvals), h) == 0
  {
    if approvals == [] {
    } else {
      var init, last := approvals[..|approvals| - 1], approvals[|approvals| - 1];
      NoRevocationMoves(transfers, init, h);
      RevocationMovesNothing(last, transfers, h);
      AmountAppend(RevocationsOf(transfers, init), ApprovalActions(last, transfers), h);
    }
  }

  /** The balance of the first supported native asset that has any. */
  function FirstCoins(assets: seq<Asset>): nat {
    if assets == [] then 0
    else if assets[0].Native? && assets[0].evidence.supportStatus.SUPPORTED? && assets[0].balance > 0 then assets[0].balance
    else FirstCoins(assets[1..])
  }

  lemma {:induction false} FlatMapFirst<A, B>(f: A -> seq<B>, s: seq<A>)
    requires s != []
    ensures FlatMap(f, s) == f(s[0]) + FlatMap(f, s[1..])
  {
    if |s| == 1 {
      assert s[..0] == [] && s[1..] == [];
    } else {
      var init, tail, last := s[..|s| - 1], s[1..], s[|s| - 1];
      FlatMapFirst(f, init);
      assert init[0] == s[0] && init[1..] == tail[..|tail| - 1] && tail[|tail| - 1] == last;
      assert FlatMap(f, tail) == FlatMap(f, init[1..]) + f(last);
      assert FlatMap(f, s) == FlatMap(f, init) + f(last);
    }
  }

  lemma {:induction false} NativesStart(assets: seq<Asset>)
    ensures var natives := FlatMap(NativeAssets, assets);
            if natives == [] then FirstCoins(assets) == 0 else natives[0].Native? && natives[0].balance == FirstCoins(assets)
  {
    if assets == [] {
    } else {
      FlatMapFirst(NativeAssets, assets);
      NativesStart(assets[1..]);
    }
  }

  lemma NativeMoves(r: Request, h: Holding)
    ensures AmountMoved(NativeActions(r), h) == if h == Coin then FirstCoins(r.scan.assets) else 0
  {
    NativesStart(r.scan.assets);
  }

  lemma {:induction false} NoCoinPaid(outputs: seq<Output>)
    ensures AmountPaid(outputs, Coin) == 0
  {
    if outputs == [] {
    } else {
      NoCoinPaid(outputs[..|outputs| - 1]);
    }
  }

  lemma {:induction false} NoCoinPaidOut(candidates: seq<Candidate>)
    ensures AmountPaidOut(candidates, Coin) == 0
  {
    if candidates == [] {
    } else {
      NoCoinPaidOut(candidates[..|candidates| - 1]);
      NoCoinPaid(candidates[|candidates| - 1].outputs);
    }
  }

  /** What a request has to be moved. */
  function ToMove(r: Request, h: Holding): nat {
    if h == Coin then FirstCoins(r.scan.assets) else AmountHeld(r.scan.assets, h) + AmountPaidOut(r.candidates, h)
  }

  lemma TransfersMove(r: Request, h: Holding)
    ensures AmountMoved(Transfers(r), h) == if h == Coin then 0 else AmountHeld(r.scan.assets, h) + AmountPaidOut(r.candidates, h)
  {
    AmountAppend(AssetTransfers(r.scan.assets, r.destinationAddress), AdapterActions(r.candidates, r.destinationAddress), h);
    AssetsMove(r.scan.assets, r.destinationAddress, h);
    CandidatesMove(r.candidates, r.destinationAddress, h);
    NoCoinPaidOut(r.candidates);
  }

  lemma PlannedMoves(r: Request, h: Holding)
    ensures AmountMoved(PlannedActions(r), h) == ToMove(r, h)
  {
    AmountAppend(Transfers(r) + Revocations(r), NativeActions(r), h);
    AmountAppend(Transfers(r), Revocations(r), h);
    TransfersMove(r, h);
    NoRevocationMoves(Transfers(r), r.scan.approvals, h);
    NativeMoves(r, h);
  }

  /** Nothing is left and nothing is invented: with unique evidence, and unless joined output ids
      collide, a plan moves of every token exactly the supported balances and the adapter outputs,
      and of native coin the first balance there is. */
  lemma PlanConserves(collate: Comparison<string>, r: Request, p: RescueActions.Plan, h: Holding)
    requires IsPlanOf(collate, r, p) && UniqueEvidence(r) && OutputKeysDistinct(r)
    ensures AmountMoved(p.actions, h) == ToMove(r, h)
  {
    var cmp := CompareActions(collate, PrioritiesOf(PlannedActions(r)));
    PlannedIdsDistinct(r);
    NothingLostIff(cmp, PlannedActions(r), p.actions);
    PickOrderIsTopologicalFor(cmp, r, p.actions);
    OrderDoesNotCount(p.actions, PlannedActions(r), h);
    PlannedMoves(r, h);
  }

  // ----- item by item

  /** The level of risk that goes with a value, if there is one. */
  ghost predicate RiskOf(v: Option<Dollars>, level: RiskLevel) {
    match v
    case None => level.MEDIUM?
    case Some(x) =>
      && (level.LOW? <==> x < 100.0) && (level.MEDIUM? <==> 100.0 <= x < 1000.0)
      && (level.HIGH? <==> 1000.0 <= x < 10000.0) && (level.CRITICAL? <==> 10000.0 <= x)
  }

  /** The action moves this asset, all of it, from its owner to the destination. */
  ghost predicate MovesAsset(x: RescueAction, a: Asset, destination: string) {
    && x.evidenceIds == [a.evidence.id] && x.chainId == a.evidence.chainId && x.sourceAddress == a.evidence.ownerAddress
    && x.estimatedValueUsd == a.valueUsd && RiskOf(a.valueUsd, x.riskLevel) && x.supportStatus.SUPPORTED?
    && x.expectedEffects == [Effect(ASSET_TRANSFERRED, Some(a.evidence.id), if a.Native? then MoveNative else MoveAsset)]
    && match a
       case Native(_, _, balance) => x.parameters == TransferNative(destination, balance)
       case Erc20(_, _, contract, balance) => x.parameters == TransferErc20(contract, destination, balance)
       case Erc721(_, _, contract, tokenId) => x.parameters == TransferErc721(contract, destination, tokenId)
       case Erc1155(_, _, contract, tokenId, balance) => x.parameters == TransferErc1155(contract, destination, tokenId, balance)
  }

  /** The action moves this output of the adapter, after the adapter's own action. */
  ghost predicate MovesOutput(x: RescueAction, c: Candidate, o: Output, destination: string) {
    && x.evidenceIds == [c.evidenceId, o.id] && x.chainId == c.chainId && x.sourceAddress == c.sourceAddress
    && x.dependencies == [AdapterActionId(c.id)]
    && x.estimatedValueUsd == o.valueUsd && RiskOf(if o.valueUsd.Some? then o.valueUsd else c.valueUsd, x.riskLevel)
    && x.supportStatus.SUPPORTED?
    && x.expectedEffects == [Effect(ASSET_TRANSFERRED, Some(o.id), MoveOutput)]
    && match o
       case Erc20Output(_, _, contract, amount) => x.parameters == TransferErc20(contract, destination, amount)
       case Erc721Output(_, _, contract, tokenId) => x.parameters == TransferErc721(contract, destination, tokenId)
       case Erc1155Output(_, _, contract, tokenId, amount) => x.parameters == TransferErc1155(contract, destination, tokenId, amount)
  }

  /** The action is the adapter's own. */
  ghost predicate Adapts(x: RescueAction, c: Candidate) {
    && x.id == AdapterActionId(c.id) && x.dependencies == []
    && x.evidenceIds == [c.evidenceId] && x.chainId == c.chainId && x.sourceAddress == c.sourceAddress
    && x.estimatedValueUsd == c.valueUsd && x.riskLevel == c.riskLevel && x.supportStatus.SUPPORTED?
    && (c.expectedEffects != [] ==> x.expectedEffects == c.expectedEffects)
    && (c.expectedEffects == [] ==> x.expectedEffects == [Effect(POSITION_CHANGED, None, Words(c.description))])
    && match c.kind
       case Claim(reference) => x.parameters == ClaimSupportedAirdrop(c.adapterId, c.contractAddress, reference)
       case Withdraw(positionId) => x.parameters == WithdrawSupportedPosition(c.adapterId, c.contractAddress, positionId)
       case Custom(operationId) => x.parameters == CustomSupportedAdapter(c.adapterId, c.contractAddress, operationId)
  }

  /** The action revokes this approval. */
  ghost predicate RevokesApproval(x: RescueAction, p: Approval) {
    && x.evidenceIds == [p.evidence.id] && x.chainId == p.evidence.chainId && x.sourceAddress == p.evidence.ownerAddress
    && x.estimatedValueUsd == None && x.riskLevel.HIGH? && x.supportStatus.SUPPORTED?
    && x.expectedEffects == [Effect(ALLOWANCE_REVOKED, None, if p.Erc20Allowance? then ClearAllowance else RemoveOperator)]
    && match p
       case Erc20Allowance(_, token, spender, amount) => amount > 0 && x.parameters == RevokeErc20Approval(token, spender)
       case NftOperator(_, standard, collection, operator, approved) =>
         approved && x.parameters == RevokeNftOperator(standard, collection, operator)
       case Erc721Token(_, _, _, _) => false
  }

  /** What the planner has to do about an asset: move it, unless it is unsupported, empty, or another
      native balance than the first. */
  ghost predicate HasToMove(r: Request, i: nat)
    requires i < |r.scan.assets|
  {
    var a := r.scan.assets[i];
    && a.evidence.supportStatus.SUPPORTED? && (!a.Erc721? ==> a.balance > 0)
    && (a.Native? ==> forall k :: 0 <= k < i ==> !IsSupportedCoin(r.scan.assets[k]))
  }

  predicate IsSupportedCoin(a: Asset) {
    a.Native? && a.evidence.supportStatus.SUPPORTED? && a.balance > 0
  }

  ghost predicate HasToRevoke(p: Approval) {
    && p.evidence.supportStatus.SUPPORTED?
    && match p
       case Erc20Allowance(_, _, _, amount) => amount > 0
       case NftOperator(_, _, _, _, approved) => approved
       case Erc721Token(_, _, _, _) => false
  }

  // ----- the planned actions are these

  lemma AssetActionMoves(a: Asset, destination: string, dependencies: seq<string>)
    ensures MovesAsset(AssetTransfer(a, destination, dependencies), a, destination)
  {}

  lemma OutputActionMoves(c: Candidate, o: Output, destination: string)
    ensures MovesOutput(OutputTransfer(c, o, destination), c, o, destination)
  {}

  lemma CandidateActionAdapts(c: Candidate)
    ensures Adapts(AdapterAction(c), c)
  {}

  lemma ApprovalActionRevokes(p: Approval, transfers: seq<RescueAction>)
    ensures HasToRevoke(p) <==> ApprovalActions(p, transfers) != []
    ensures HasToRevoke(p) ==> |ApprovalActions(p, transfers)| == 1 && RevokesApproval(ApprovalActions(p, transfers)[0], p)
  {}

  // ----- in the plan

  lemma InPlan(collate: Comparison<string>, r: Request, p: RescueActions.Plan)
    requires IsPlanOf(collate, r, p) && UniqueEvidence(r) && OutputKeysDistinct(r)
    ensures DistinctIds(p.actions) && forall x :: x in p.actions <==> x in PlannedActions(r)
  {
    var cmp := CompareActions(collate, PrioritiesOf(PlannedActions(r)));
    PlannedIdsDistinct(r);
    NothingLostIff(cmp, PlannedActions(r), p.actions);
    PickOrderIsTopologicalFor(cmp, r, p.actions);
    forall x ensures x in p.actions <==> x in PlannedActions(r) {
      assert x in ToSet(p.actions) <==> x in ToSet(PlannedActions(r));
    }
  }

  lemma {:induction false} FirstCoinIsFirst(assets: seq<Asset>, i: nat)
    requires i < |assets| && IsSupportedCoin(assets[i]) && forall k :: 0 <= k < i ==> !IsSupportedCoin(assets[k])
    ensures FlatMap(NativeAssets, assets) != [] && FlatMap(NativeAssets, assets)[0] == assets[i]
    decreases i
  {
    FlatMapFirst(NativeAssets, assets);
    if i > 0 {
      FirstCoinIsFirst(assets[1..], i - 1);
    }
  }

  lemma AssetIsPlanned(r: Request, i: nat) returns (x: RescueAction)
    requires i < |r.scan.assets| && HasToMove(r, i)
    ensures x in PlannedActions(r) && MovesAsset(x, r.scan.assets[i], r.destinationAddress)
    ensures x.id == TransferId(r.scan.assets[i].evidence.id)
  {
    var a := r.scan.assets[i];
    if a.Native? {
      FirstCoinIsFirst(r.scan.assets, i);
      x := NativeActions(r)[0];
      AssetActionMoves(a, r.destinationAddress, ActionIds(Transfers(r) + Revocations(r)));
    } else {
      x := AssetTransfer(a, r.destinationAddress, []);
      AssetActionMoves(a, r.destinationAddress, []);
      assert x in AssetActions(a, r.destinationAddress);
      PlannedMembers(r, x);
    }
  }

  /** An action of another kind moves no asset of the scan. */
  lemma OnlyTransfersMove(r: Request, i: nat, x: RescueAction)
    requires UniqueEvidence(r) && i < |r.scan.assets|
    requires x in PlannedActions(r) && MovesAsset(x, r.scan.assets[i], r.destinationAddress)
    ensures x.id == TransferId(r.scan.assets[i].evidence.id)
  {
    var a := r.scan.assets[i];
    PlannedMembers(r, x);
    if IsAssetTransfer(r, x) {
      var m :| 0 <= m < |r.scan.assets| && x in AssetActions(r.scan.assets[m], r.destinationAddress);
      assert x.evidenceIds == [r.scan.assets[m].evidence.id];
    } else if x in NativeActions(r) {
      assert x.evidenceIds == [Natives(r)[0].evidence.id];
      assert x.id == TransferId(x.evidenceIds[0]);
    } else {
      NotATransfer(r, a, x);
    }
  }

  lemma NotATransfer(r: Request, a: Asset, x: RescueAction)
    requires IsAdapterAction(r, x) || IsOutputTransfer(r, x) || IsPlannedRevocation(r, x)
    ensures !MovesAsset(x, a, r.destinationAddress)
  {
    if IsPlannedRevocation(r, x) {
      var m :| 0 <= m < |r.scan.approvals| && x in ApprovalActions(r.scan.approvals[m], Transfers(r));
      ApprovalActionRevokes(r.scan.approvals[m], Transfers(r));
    }
  }

  /** Every supported asset with anything in it is moved whole by exactly one action of the plan. */
  lemma EveryAssetIsMoved(collate: Comparison<string>, r: Request, p: RescueActions.Plan, i: nat) returns (j: nat)
    requires IsPlanOf(collate, r, p) && UniqueEvidence(r) && OutputKeysDistinct(r)
    requires i < |r.scan.assets| && HasToMove(r, i)
    ensures j < |p.actions| && MovesAsset(p.actions[j], r.scan.assets[i], r.destinationAddress)
    ensures forall k :: 0 <= k < |p.actions| && MovesAsset(p.actions[k], r.scan.assets[i], r.destinationAddress) ==> k == j
  {
    InPlan(collate, r, p);
    var x := AssetIsPlanned(r, i);
    j :| 0 <= j < |p.actions| && p.actions[j] == x;
    forall k | 0 <= k < |p.actions| && MovesAsset(p.actions[k], r.scan.assets[i], r.destinationAddress) ensures k == j {
      assert p.actions[k] in p.actions;
      OnlyTransfersMove(r, i, p.actions[k]);
    }
  }

  /** An action of another kind moves no output of an adapter. */
  lemma OnlyOutputsMove(r: Request, i: nat, k: nat, x: RescueAction)
    requires UniqueEvidence(r) && OutputKeysDistinct(r) && i < |r.candidates| && k < |r.candidates[i].outputs|
    requires x in PlannedActions(r) && MovesOutput(x, r.candidates[i], r.candidates[i].outputs[k], r.destinationAddress)
    ensures x == OutputTransfer(r.candidates[i], r.candidates[i].outputs[k], r.destinationAddress)
  {
    OnlyOutputsHaveTwo(r, x);
    var m, n :| 0 <= m < |r.candidates| && 0 <= n < |r.candidates[m].outputs|
                && x == OutputTransfer(r.candidates[m], r.candidates[m].outputs[n], r.destinationAddress);
    OutputNames(r.candidates[m], r.candidates[m].outputs[n], r.destinationAddress);
    assert x.dependencies[0] == AdapterActionId(r.candidates[i].id) && x.evidenceIds[1] == r.candidates[i].outputs[k].id;
    IdShapes(r.candidates[i].id, r.candidates[m].id);
    assert m == i && n == k;
  }

  lemma OutputNames(c: Candidate, o: Output, destination: string)
    ensures OutputTransfer(c, o, destination).dependencies == [AdapterActionId(c.id)]
    ensures OutputTransfer(c, o, destination).evidenceIds == [c.evidenceId, o.id]
  {}

  lemma OnlyOutputsHaveTwo(r: Request, x: RescueAction)
    requires x in PlannedActions(r) && |x.evidenceIds| == 2
    ensures IsOutputTransfer(r, x)
  {
    PlannedMembers(r, x);
    if !IsOutputTransfer(r, x) {
      OneEvidenceId(r, x);
    }
  }

  lemma OneEvidenceId(r: Request, x: RescueAction)
    requires IsAssetTransfer(r, x) || IsAdapterAction(r, x) || IsPlannedRevocation(r, x) || x in NativeActions(r)
    ensures |x.evidenceIds| == 1
  {
    if IsPlannedRevocation(r, x) {
      var i :| 0 <= i < |r.scan.approvals| && x in ApprovalActions(r.scan.approvals[i], Transfers(r));
      RevocationEvidence(r.scan.approvals[i], Transfers(r), x);
    }
  }

  /** Each of an adapter's outputs is moved by exactly one action of the plan. */
  lemma EveryOutputIsMoved(collate: Comparison<string>, r: Request, p: RescueActions.Plan, i: nat, k: nat) returns (j: nat)
    requires IsPlanOf(collate, r, p) && UniqueEvidence(r) && OutputKeysDistinct(r)
    requires i < |r.candidates| && k < |r.candidates[i].outputs|
    ensures j < |p.actions| && MovesOutput(p.actions[j], r.candidates[i], r.candidates[i].outputs[k], r.destinationAddress)
    ensures forall m :: 0 <= m < |p.actions| && MovesOutput(p.actions[m], r.candidates[i], r.candidates[i].outputs[k], r.destinationAddress)
                        ==> m == j
  {
    var c, o := r.candidates[i], r.candidates[i].outputs[k];
    var x := OutputTransfer(c, o, r.destinationAddress);
    InPlan(collate, r, p);
    OutputActionMoves(c, o, r.destinationAddress);
    PlannedMembers(r, x);
    j :| 0 <= j < |p.actions| && p.actions[j] == x;
    forall m | 0 <= m < |p.actions| && MovesOutput(p.actions[m], c, o, r.destinationAddress) ensures m == j {
      assert p.actions[m] in p.actions;
      OnlyOutputsMove(r, i, k, p.actions[m]);
    }
  }

  /** Each adapter's own action is in the plan once. */
  lemma EveryAdapterActs(collate: Comparison<string>, r: Request, p: RescueActions.Plan, i: nat) returns (j: nat)
    requires IsPlanOf(collate, r, p) && UniqueEvidence(r) && OutputKeysDistinct(r) && i < |r.candidates|
    ensures j < |p.actions| && Adapts(p.actions[j], r.candidates[i])
    ensures forall m :: 0 <= m < |p.actions| && Adapts(p.actions[m], r.candidates[i]) ==> m == j
  {
    InPlan(collate, r, p);
    CandidateActionAdapts(r.candidates[i]);
    PlannedMembers(r, AdapterAction(r.candidates[i]));
    j :| 0 <= j < |p.actions| && p.actions[j] == AdapterAction(r.candidates[i]);
  }

  /** Every supported approval that is in force is revoked by exactly one action of the plan. */
  lemma EveryApprovalIsRevoked(collate: Comparison<string>, r: Request, p: RescueActions.Plan, i: nat) returns (j: nat)
    requires IsPlanOf(collate, r, p) && UniqueEvidence(r) && OutputKeysDistinct(r)
    requires i < |r.scan.approvals| && HasToRevoke(r.scan.approvals[i])
    ensures j < |p.actions| && RevokesApproval(p.actions[j], r.scan.approvals[i])
    ensures forall k :: 0 <= k < |p.actions| && RevokesApproval(p.actions[k], r.scan.approvals[i]) ==> k == j
  {
    InPlan(collate, r, p);
    var approval := r.scan.approvals[i];
    var x := ApprovalIsPlanned(r, i);
    j :| 0 <= j < |p.actions| && p.actions[j] == x;
    forall k | 0 <= k < |p.actions| && RevokesApproval(p.actions[k], approval) ensures k == j {
      assert p.actions[k] in p.actions;
      OnlyRevocationsRevoke(r, i, p.actions[k], x);
    }
  }

  lemma ApprovalIsPlanned(r: Request, i: nat) returns (x: RescueAction)
    requires i < |r.scan.approvals| && HasToRevoke(r.scan.approvals[i])
    ensures x in PlannedActions(r) && RevokesApproval(x, r.scan.approvals[i])
    ensures ApprovalActions(r.scan.approvals[i], Transfers(r)) == [x]
  {
    ApprovalActionRevokes(r.scan.approvals[i], Transfers(r));
    x := ApprovalActions(r.scan.approvals[i], Transfers(r))[0];
    assert x in ApprovalActions(r.scan.approvals[i], Transfers(r));
    PlannedMembers(r, x);
  }

  lemma OnlyRevocationsRevoke(r: Request, i: nat, x: RescueAction, y: RescueAction)
    requires UniqueEvidence(r) && i < |r.scan.approvals| && x in PlannedActions(r) && RevokesApproval(x, r.scan.approvals[i])
    requires ApprovalActions(r.scan.approvals[i], Transfers(r)) == [y]
    ensures x == y
  {
    OnlyRevocations(r, x);
    var m :| 0 <= m < |r.scan.approvals| && x in ApprovalActions(r.scan.approvals[m], Transfers(r));
    RevocationEvidence(r.scan.approvals[m], Transfers(r), x);
    SameApproval(r, i, m);
  }

  lemma RevocationEvidence(p: Approval, transfers: seq<RescueAction>, x: RescueAction)
    requires x in ApprovalActions(p, transfers)
    ensures x.evidenceIds == [p.evidence.id]
  {}

  lemma OnlyRevocations(r: Request, x: RescueAction)
    requires x in PlannedActions(r) && IsRevocation(x)
    ensures IsPlannedRevocation(r, x)
  {
    PlannedMembers(r, x);
    NativesAreNative(r);
  }

  ghost predicate ServesRequest(r: Request, x: RescueAction) {
    || (exists i :: 0 <= i < |r.scan.assets| && HasToMove(r, i) && MovesAsset(x, r.scan.assets[i], r.destinationAddress))
    || (exists i :: 0 <= i < |r.candidates| && Adapts(x, r.candidates[i]))
    || (exists i, k :: 0 <= i < |r.candidates| && 0 <= k < |r.candidates[i].outputs|
                       && MovesOutput(x, r.candidates[i], r.candidates[i].outputs[k], r.destinationAddress))
    || (exists i :: 0 <= i < |r.scan.approvals| && HasToRevoke(r.scan.approvals[i]) && RevokesApproval(x, r.scan.approvals[i]))
  }

  lemma AssetServes(r: Request, x: RescueAction)
    requires IsAssetTransfer(r, x) || x in NativeActions(r)
    ensures ServesRequest(r, x)
  {
    if IsAssetTransfer(r, x) {
      var i :| 0 <= i < |r.scan.assets| && x in AssetActions(r.scan.assets[i], r.destinationAddress);
      AssetActionMoves(r.scan.assets[i], r.destinationAddress, []);
      assert HasToMove(r, i);
    } else {
      var i := FirstCoinAt(r.scan.assets);
      AssetActionMoves(r.scan.assets[i], r.destinationAddress, ActionIds(Transfers(r) + Revocations(r)));
      assert HasToMove(r, i);
    }
  }

  lemma AdapterServes(r: Request, x: RescueAction)
    requires IsAdapterAction(r, x) || IsOutputTransfer(r, x)
    ensures ServesRequest(r, x)
  {
    if IsAdapterAction(r, x) {
      var i :| 0 <= i < |r.candidates| && x == AdapterAction(r.candidates[i]);
      CandidateActionAdapts(r.candidates[i]);
    } else {
      var i, k :| 0 <= i < |r.candidates| && 0 <= k < |r.candidates[i].outputs|
                  && x == OutputTransfer(r.candidates[i], r.candidates[i].outputs[k], r.destinationAddress);
      OutputActionMoves(r.candidates[i], r.candidates[i].outputs[k], r.destinationAddress);
    }
  }

  lemma RevocationServes(r: Request, x: RescueAction)
    requires IsPlannedRevocation(r, x)
    ensures ServesRequest(r, x)
  {
    var i :| 0 <= i < |r.scan.approvals| && x in ApprovalActions(r.scan.approvals[i], Transfers(r));
    ApprovalActionRevokes(r.scan.approvals[i], Transfers(r));
  }

  lemma OnlyPlanned(collate: Comparison<string>, r: Request, p: RescueActions.Plan, x: RescueAction)
    requires IsPlanOf(collate, r, p) && x in p.actions
    ensures x in PlannedActions(r)
  {
    NothingLostIff(CompareActions(collate, PrioritiesOf(PlannedActions(r))), PlannedActions(r), p.actions);
    assert x in ToSet(p.actions);
  }

  /** A plan does nothing else. */
  lemma NothingElseIsPlanned(collate: Comparison<string>, r: Request, p: RescueActions.Plan, x: RescueAction)
    requires IsPlanOf(collate, r, p) && x in p.actions
    ensures ServesRequest(r, x)
  {
    OnlyPlanned(collate, r, p, x);
    PlannedMembers(r, x);
    if IsAdapterAction(r, x) || IsOutputTransfer(r, x) {
      AdapterServes(r, x);
    } else if IsPlannedRevocation(r, x) {
      RevocationServes(r, x);
    } else {
      AssetServes(r, x);
    }
  }

  lemma {:induction false} FirstCoinAt(assets: seq<Asset>) returns (i: nat)
    requires FlatMap(NativeAssets, assets) != []
    ensures i < |assets| && IsSupportedCoin(assets[i]) && assets[i] == FlatMap(NativeAssets, assets)[0]
    ensures forall k :: 0 <= k < i ==> !IsSupportedCoin(assets[k])
  {
    FlatMapFirst(NativeAssets, assets);
    if IsSupportedCoin(assets[0]) {
      i := 0;
    } else {
      var n := FirstCoinAt(assets[1..]);
      i := n + 1;
    }
  }
}
