/** The names and texts of a rescue plan's JSON form (packages/shared/src/schemas.ts:230-376,
    packages/planner/src/planner.ts), and why no two of them are confused. */
module PlanNames {
  import opened RescueActions

  /** The keys of the plan, its actions, their parameters and effects, and its omissions. */
  datatype Key =
    | KId | KIncidentId | KVersion | KPolicyVersion | KChainId | KSourceAddress | KDestinationAddress | KObservedAtBlock
    | KStatus | KActions | KOmissions | KIntegrityHash | KCreatedAt | KDependencies | KEvidenceIds | KExpectedEffects
    | KRiskLevel | KEstimatedValueUsd | KSupportStatus | KSimulationStatus | KActionType | KParameters | KRecipient
    | KMaximumAmount | KAmountStrategy | KTokenAddress | KAmount | KCollectionAddress | KTokenId | KSpenderAddress
    | KStandard | KOperatorAddress | KAdapterId | KContractAddress | KClaimReference | KPositionId | KOperationId
    | KEffectType | KAssetId | KDescription | KEvidenceId | KReason

  datatype ActionType =
    | TRANSFER_NATIVE | TRANSFER_ERC20 | TRANSFER_ERC721 | TRANSFER_ERC1155 | REVOKE_ERC20_APPROVAL | REVOKE_NFT_OPERATOR
    | CLAIM_SUPPORTED_AIRDROP | WITHDRAW_SUPPORTED_POSITION | CUSTOM_SUPPORTED_ADAPTER

  /** The texts that come from a fixed list. */
  datatype Tag =
    | StatusTag(status: PlanStatus) | RiskTag(risk: RiskLevel) | SupportTag(support: SupportStatus)
    | EffectTag(effect: EffectType) | ActionTag(action: ActionType) | ReasonTag(reason: OmissionReason)
    | NotSimulated | MaxMinusGasReserve

  function KeyText(k: Key): string {
    match k
    case KId => "id"
    case KIncidentId => "incidentId"
    case KVersion => "version"
    case KPolicyVersion => "policyVersion"
    case KChainId => "chainId"
    case KSourceAddress => "sourceAddress"
    case KDestinationAddress => "destinationAddress"
    case KObservedAtBlock => "observedAtBlock"
    case KStatus => "status"
    case KActions => "actions"
    case KOmissions => "omissions"
    case KIntegrityHash => "integrityHash"
    case KCreatedAt => "createdAt"
    case KDependencies => "dependencies"
    case KEvidenceIds => "evidenceIds"
    case KExpectedEffects => "expectedEffects"
    case KRiskLevel => "riskLevel"
    case KEstimatedValueUsd => "estimatedValueUsd"
    case KSupportStatus => "supportStatus"
    case KSimulationStatus => "simulationStatus"
    case KActionType => "actionType"
    case KParameters => "parameters"
    case KRecipient => "recipient"
    case KMaximumAmount => "maximumAmount"
    case KAmountStrategy => "amountStrategy"
    case KTokenAddress => "tokenAddress"
    case KAmount => "amount"
    case KCollectionAddress => "collectionAddress"
    case KTokenId => "tokenId"
    case KSpenderAddress => "spenderAddress"
    case KStandard => "standard"
    case KOperatorAddress => "operatorAddress"
    case KAdapterId => "adapterId"
    case KContractAddress => "contractAddress"
    case KClaimReference => "claimReference"
    case KPositionId => "positionId"
    case KOperationId => "operationId"
    case KEffectType => "effectType"
    case KAssetId => "assetId"
    case KDescription => "description"
    case KEvidenceId => "evidenceId"
    case KReason => "reason"
  }

  function TagText(t: Tag): string {
    match t
    case StatusTag(READY) => "READY"
    case StatusTag(PARTIAL) => "PARTIAL"
    case RiskTag(LOW) => "LOW"
    case RiskTag(MEDIUM) => "MEDIUM"
    case RiskTag(HIGH) => "HIGH"
    case RiskTag(CRITICAL) => "CRITICAL"
    case SupportTag(SUPPORTED) => "SUPPORTED"
    case SupportTag(DETECTED) => "DETECTED"
    case SupportTag(UNSUPPORTED) => "UNSUPPORTED"
    case SupportTag(UNKNOWN) => "UNKNOWN"
    case EffectTag(BALANCE_INCREASE) => "BALANCE_INCREASE"
    case EffectTag(BALANCE_DECREASE) => "BALANCE_DECREASE"
    case EffectTag(ALLOWANCE_REVOKED) => "ALLOWANCE_REVOKED"
    case EffectTag(ASSET_TRANSFERRED) => "ASSET_TRANSFERRED"
    case EffectTag(POSITION_CHANGED) => "POSITION_CHANGED"
    case ActionTag(TRANSFER_NATIVE) => "TRANSFER_NATIVE"
    case ActionTag(TRANSFER_ERC20) => "TRANSFER_ERC20"
    case ActionTag(TRANSFER_ERC721) => "TRANSFER_ERC721"
    case ActionTag(TRANSFER_ERC1155) => "TRANSFER_ERC1155"
    case ActionTag(REVOKE_ERC20_APPROVAL) => "REVOKE_ERC20_APPROVAL"
    case ActionTag(REVOKE_NFT_OPERATOR) => "REVOKE_NFT_OPERATOR"
    case ActionTag(CLAIM_SUPPORTED_AIRDROP) => "CLAIM_SUPPORTED_AIRDROP"
    case ActionTag(WITHDRAW_SUPPORTED_POSITION) => "WITHDRAW_SUPPORTED_POSITION"
    case ActionTag(CUSTOM_SUPPORTED_ADAPTER) => "CUSTOM_SUPPORTED_ADAPTER"
    case ReasonTag(IncompleteScan) => "The wallet scan is incomplete; " + "missing state was " + "not treated as empty."
    case ReasonTag(UnverifiedAsset) => "The asset was detected " + "but does not have " + "verified planner support."
    case ReasonTag(UnverifiedApproval) => "The approval does not have " + "verified planner support."
    case ReasonTag(TokenApproval) => "Per-token ERC-721 approval " + "revocation is not an " + "allowlisted action type."
    case ReasonTag(RepeatedNative) => "Duplicate native-balance " + "evidence was excluded " + "from the plan."
    case NotSimulated => "NOT_SIMULATED"
    case MaxMinusGasReserve => "MAX_MINUS_GAS_RESERVE"
  }

  /** The key with this text, found by its length and one character. */
  function ReadKey(s: string): Key {
    match |s|
    case 2 => KId
    case 6 => (match s[5] case 's' => KStatus case 't' => KAmount case _ => KReason)
    case 7 => (
      match s[2]
      case 'r' => KVersion case 'a' => KChainId case 't' => KActions case 'k' => KTokenId case _ => KAssetId)
    case 8 => KStandard
    case 9 => (
      match s[6]
      case 'o' => KOmissions case 'd' => KCreatedAt case 'v' => KRiskLevel case 'e' => KRecipient case _ => KAdapterId)
    case 10 => (
      match s[4]
      case 'd' => KIncidentId case 'o' => KActionType case 'm' => KParameters case 't' => KPositionId
      case 'c' => KEffectType case _ => KEvidenceId)
    case 11 => (match s[10] case 's' => KEvidenceIds case 'd' => KOperationId case _ => KDescription)
    case 12 => (match s[10] case 'e' => KDependencies case _ => KTokenAddress)
    case 13 => (
      match s[10]
      case 'i' => KPolicyVersion case 'e' => KSourceAddress case 'a' => KIntegrityHash case 't' => KSupportStatus
      case _ => KMaximumAmount)
    case 14 => (match s[13] case 'y' => KAmountStrategy case 's' => KSpenderAddress case _ => KClaimReference)
    case 15 => (
      match s[2]
      case 's' => KObservedAtBlock case 'p' => KExpectedEffects case 'e' => KOperatorAddress case _ => KContractAddress)
    case 16 => KSimulationStatus
    case 17 => (match s[16] case 'd' => KEstimatedValueUsd case _ => KCollectionAddress)
    case _ => KDestinationAddress
  }

  function ReadTag(s: string): Tag {
    match |s|
    case 3 => RiskTag(LOW)
    case 4 => RiskTag(HIGH)
    case 5 => StatusTag(READY)
    case 6 => RiskTag(MEDIUM)
    case 7 => (match s[6] case 'L' => StatusTag(PlanStatus.PARTIAL) case _ => SupportTag(UNKNOWN))
    case 8 => (match s[7] case 'L' => RiskTag(CRITICAL) case _ => SupportTag(DETECTED))
    case 9 => SupportTag(SUPPORTED)
    case 11 => SupportTag(UNSUPPORTED)
    case 13 => NotSimulated
    case 14 => ActionTag(TRANSFER_ERC20)
    case 15 => (match s[14] case 'E' => ActionTag(TRANSFER_NATIVE) case _ => ActionTag(TRANSFER_ERC721))
    case 16 => (
      match s[0]
      case 'B' => (if s[8] == 'I' then EffectTag(BALANCE_INCREASE) else EffectTag(BALANCE_DECREASE))
      case 'P' => EffectTag(POSITION_CHANGED) case _ => ActionTag(TRANSFER_ERC1155))
    case 17 => (match s[14] case 'K' => EffectTag(ALLOWANCE_REVOKED) case _ => EffectTag(ASSET_TRANSFERRED))
    case 19 => ActionTag(REVOKE_NFT_OPERATOR)
    case 21 => (match s[20] case 'L' => ActionTag(REVOKE_ERC20_APPROVAL) case _ => MaxMinusGasReserve)
    case 23 => ActionTag(CLAIM_SUPPORTED_AIRDROP)
    case 24 => ActionTag(CUSTOM_SUPPORTED_ADAPTER)
    case 27 => ActionTag(WITHDRAW_SUPPORTED_POSITION)
    case 52 => ReasonTag(UnverifiedApproval)
    case 61 => ReasonTag(RepeatedNative)
    case 66 => ReasonTag(UnverifiedAsset)
    case 70 => ReasonTag(IncompleteScan)
    case _ => ReasonTag(TokenApproval)
  }

  predicate OfPlan(k: Key) {
    k.KId? || k.KIncidentId? || k.KVersion? || k.KPolicyVersion? || k.KChainId? || k.KSourceAddress?
    || k.KDestinationAddress? || k.KObservedAtBlock? || k.KStatus? || k.KActions? || k.KOmissions?
    || k.KIntegrityHash? || k.KCreatedAt?
  }

  predicate OfAction(k: Key) {
    k.KDependencies? || k.KEvidenceIds? || k.KExpectedEffects? || k.KRiskLevel? || k.KEstimatedValueUsd?
    || k.KSupportStatus? || k.KSimulationStatus? || k.KActionType? || k.KParameters?
  }

  predicate OfTransfer(k: Key) {
    k.KRecipient? || k.KMaximumAmount? || k.KAmountStrategy? || k.KTokenAddress? || k.KAmount?
  }

  predicate OfApproval(k: Key) {
    k.KCollectionAddress? || k.KTokenId? || k.KSpenderAddress? || k.KStandard? || k.KOperatorAddress?
  }

  lemma PlanKeyIsRead(k: Key)
    requires OfPlan(k)
    ensures ReadKey(KeyText(k)) == k
  {}

  lemma ActionKeyIsRead(k: Key)
    requires OfAction(k)
    ensures ReadKey(KeyText(k)) == k
  {}

  lemma TransferKeyIsRead(k: Key)
    requires OfTransfer(k)
    ensures ReadKey(KeyText(k)) == k
  {}

  lemma ApprovalKeyIsRead(k: Key)
    requires OfApproval(k)
    ensures ReadKey(KeyText(k)) == k
  {}

  lemma OtherKeyIsRead(k: Key)
    requires !OfPlan(k) && !OfAction(k) && !OfTransfer(k) && !OfApproval(k)
    ensures ReadKey(KeyText(k)) == k
  {}

  lemma KeyIsRead(k: Key)
    ensures ReadKey(KeyText(k)) == k
  {
    if OfPlan(k) {
      PlanKeyIsRead(k);
    } else if OfAction(k) {
      ActionKeyIsRead(k);
    } else if OfTransfer(k) {
      TransferKeyIsRead(k);
    } else if OfApproval(k) {
      ApprovalKeyIsRead(k);
    } else {
      OtherKeyIsRead(k);
    }
  }

  lemma ActionTagIsRead(t: Tag)
    requires t.ActionTag?
    ensures ReadTag(TagText(t)) == t
  {}

  lemma ReasonIsRead(t: Tag)
    requires t.ReasonTag?
    ensures ReadTag(TagText(t)) == t
  {
    if t.reason.IncompleteScan? || t.reason.TokenApproval? {
      LongReasonIsRead(t);
    } else {
      ShortReasonIsRead(t);
    }
  }

  lemma LongReasonIsRead(t: Tag)
    requires t.ReasonTag? && (t.reason.IncompleteScan? || t.reason.TokenApproval?)
    ensures ReadTag(TagText(t)) == t
  {}

  lemma ShortReasonIsRead(t: Tag)
    requires t.ReasonTag? && !t.reason.IncompleteScan? && !t.reason.TokenApproval?
    ensures ReadTag(TagText(t)) == t
  {}

  lemma OtherTagIsRead(t: Tag)
    requires !t.ActionTag? && !t.ReasonTag?
    ensures ReadTag(TagText(t)) == t
  {}

  lemma TagIsRead(t: Tag)
    ensures ReadTag(TagText(t)) == t
  {
    if t.ActionTag? {
      ActionTagIsRead(t);
    } else if t.ReasonTag? {
      ReasonIsRead(t);
    } else {
      OtherTagIsRead(t);
    }
  }

  /** Different keys have different names, and different list texts differ. */
  lemma NamesDiffer()
    ensures forall a, b :: KeyText(a) == KeyText(b) ==> a == b
    ensures forall a, b :: TagText(a) == TagText(b) ==> a == b
  {
    forall a, b | KeyText(a) == KeyText(b) ensures a == b {
      KeyIsRead(a);
      KeyIsRead(b);
    }
    forall a, b | TagText(a) == TagText(b) ensures a == b {
      TagIsRead(a);
      TagIsRead(b);
    }
  }
}
