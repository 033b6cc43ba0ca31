/** Rescue actions and plans (packages/shared/src/schemas.ts). Amounts and token ids are the
    natural numbers their canonical decimal texts denote. */
module RescueActions {
  import opened Basics

  function PowerOfTwo(k: nat): nat {
    if k == 0 then 1 else 2 * PowerOfTwo(k - 1)
  }

  ghost predicate IsFraction(x: real, m: int, k: nat) {
    x * PowerOfTwo(k) as real == m as real
  }

  /** The values a finite JavaScript number can have: binary fractions. */
  ghost predicate IsFinite(x: real) {
    exists m: int, k: nat :: IsFraction(x, m, k)
  }

  type Dollars = x: real | IsFinite(x) ghost witness (assert IsFraction(0.0, 0, 0); 0.0)

  datatype RiskLevel = LOW | MEDIUM | HIGH | CRITICAL

  datatype SupportStatus = SUPPORTED | DETECTED | UNSUPPORTED | UNKNOWN

  datatype Parameters =
    | TransferNative(recipient: string, maximumAmount: nat)
    | TransferErc20(tokenAddress: string, recipient: string, amount: nat)
    | TransferErc721(collectionAddress: string, recipient: string, tokenId: nat)
    | TransferErc1155(collectionAddress: string, recipient: string, tokenId: nat, amount: nat)
    | RevokeErc20Approval(tokenAddress: string, spenderAddress: string)
    | RevokeNftOperator(standard: string, collectionAddress: string, operatorAddress: string)
    | ClaimSupportedAirdrop(adapterId: string, contractAddress: string, claimReference: string)
    | WithdrawSupportedPosition(adapterId: string, contractAddress: string, positionId: string)
    | CustomSupportedAdapter(adapterId: string, contractAddress: string, operationId: string)
  {
    predicate IsAdapter() {
      ClaimSupportedAirdrop? || WithdrawSupportedPosition? || CustomSupportedAdapter?
    }
  }

  datatype EffectType = BALANCE_INCREASE | BALANCE_DECREASE | ALLOWANCE_REVOKED | ASSET_TRANSFERRED | POSITION_CHANGED

  /** One of the planner's own sentences, or the words of an adapter candidate. */
  datatype Description = MoveAsset | MoveNative | MoveOutput | ClearAllowance | RemoveOperator | Words(text: string)

  datatype Effect = Effect(effectType: EffectType, assetId: Option<string>, description: Description)

  datatype RescueAction = RescueAction(
    id: string, chainId: nat, sourceAddress: string, dependencies: seq<string>, evidenceIds: seq<string>,
    expectedEffects: seq<Effect>, riskLevel: RiskLevel, estimatedValueUsd: Option<Dollars>, supportStatus: SupportStatus, parameters: Parameters)

  function IdSet(actions: seq<RescueAction>): set<string> {
    set a | a in actions :: a.id
  }

  predicate DistinctIds(actions: seq<RescueAction>) {
    forall i, j :: 0 <= i < j < |actions| ==> actions[i].id != actions[j].id
  }

  datatype OmissionReason = IncompleteScan | UnverifiedAsset | UnverifiedApproval | TokenApproval | RepeatedNative

  datatype Omission = Omission(evidenceId: string, supportStatus: SupportStatus, reason: OmissionReason)

  datatype PlanStatus = READY | PARTIAL

  datatype Plan = Plan(
    id: string, incidentId: string, policyVersion: string, chainId: nat, sourceAddress: string,
    destinationAddress: string, observedAtBlock: nat, status: PlanStatus,
    actions: seq<RescueAction>, omissions: seq<Omission>, createdAt: string)

  /** Every dependency names an action earlier in the list. */
  predicate DependenciesEarlier(actions: seq<RescueAction>) {
    forall i, d :: 0 <= i < |actions| && d in actions[i].dependencies ==> d in IdSet(actions[..i])
  }

  /** The cross-field rules of rescuePlanSchema. */
  predicate MeetsPlanSchema(p: Plan) {
    && !SameText(p.sourceAddress, p.destinationAddress)
    && DistinctIds(p.actions)
    && DependenciesEarlier(p.actions)
  }

  /** `actions.find((action) => action.id === id)`. */
  function FindAction(actions: seq<RescueAction>, id: string): (r: Option<RescueAction>)
    ensures r.Some? ==> r.value in actions && r.value.id == id
    ensures r.None? <==> id !in IdSet(actions)
  {
    if actions == [] then None
    else if actions[0].id == id then Some(actions[0])
    else FindAction(actions[1..], id)
  }

  lemma {:induction false} SameIdSameAction(actions: seq<RescueAction>, a: RescueAction, b: RescueAction)
    requires DistinctIds(actions) && a in actions && b in actions && a.id == b.id
    ensures a == b
  {}
}
