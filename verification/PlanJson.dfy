/** A rescue plan as the JSON value that is hashed, verified and sent
    (packages/shared/src/schemas.ts:230-376, packages/planner/src/planner.ts:676-693), and why the
    value determines the plan. */
module PlanJson {
  import opened Basics
  import opened RescueActions
  import opened Ordering
  import opened Json
  import opened Integrity
  import opened PlanNames

  /** How the model's values are spelled: keys, fixed texts, descriptions and amounts of dollars. */
  datatype Spelling = Spelling(key: Key -> string, tag: Tag -> string, describe: Description -> string, show: Dollars -> string)

  ghost predicate Faithful(n: Spelling) {
    && (forall a, b :: n.key(a) == n.key(b) ==> a == b) && n.key(KIntegrityHash) == HASH_KEY
    && (forall a, b :: n.tag(a) == n.tag(b) ==> a == b)
    && (forall t :: n.describe(Words(t)) == t)
    && (forall x, y :: n.show(x) == n.show(y) ==> x == y) && (forall x :: IsNumberText(n.show(x)))
  }

  /** The repository's own names and texts are a faithful spelling. */
  lemma OwnNamesAreFaithful(describe: Description -> string, show: Dollars -> string)
    requires forall t :: describe(Words(t)) == t
    requires (forall x, y :: show(x) == show(y) ==> x == y) && forall x :: IsNumberText(show(x))
    ensures Faithful(Spelling(KeyText, TagText, describe, show))
  {
    NamesDiffer();
  }

  // ----- records

  type Fields = seq<(Key, Json)>

  function Record(n: Spelling, fields: Fields): Json {
    Object(seq(|fields|, i requires 0 <= i < |fields| => Entry(n.key(fields[i].0), fields[i].1)))
  }

  predicate DistinctNames(fields: Fields) {
    forall i, j :: 0 <= i < j < |fields| ==> fields[i].0 != fields[j].0
  }

  predicate Disjoint(f: Fields, g: Fields) {
    forall i, j :: 0 <= i < |f| && 0 <= j < |g| ==> f[i].0 != g[j].0
  }

  lemma JoinedNames(f: Fields, g: Fields)
    requires DistinctNames(f) && DistinctNames(g) && Disjoint(f, g)
    ensures DistinctNames(f + g)
  {}

  predicate SameNames(f: Fields, g: Fields) {
    |f| == |g| && forall i :: 0 <= i < |f| ==> f[i].0 == g[i].0
  }

  ghost predicate WellFormedFields(fields: Fields) {
    forall i :: 0 <= i < |fields| ==> WellFormed(fields[i].1)
  }

  lemma RecordWellFormed(n: Spelling, fields: Fields)
    requires Faithful(n) && DistinctNames(fields) && WellFormedFields(fields)
    ensures WellFormed(Record(n, fields))
  {}

  /** Field by field similar. */
  ghost predicate Alike(f: Fields, g: Fields) {
    |f| == |g| && forall i :: 0 <= i < |f| ==> Similar(f[i].1, g[i].1)
  }

  /** Similar records with the same names have similar fields. */
  lemma RecordsSimilar(n: Spelling, f: Fields, g: Fields)
    requires Faithful(n) && DistinctNames(f) && SameNames(f, g) && Similar(Record(n, f), Record(n, g))
    ensures Alike(f, g)
  {
    forall i | 0 <= i < |f| ensures Similar(f[i].1, g[i].1) {
      FieldSimilar(n, f, g, i);
    }
  }

  lemma FieldSimilar(n: Spelling, f: Fields, g: Fields, i: nat)
    requires Faithful(n) && DistinctNames(f) && SameNames(f, g) && Similar(Record(n, f), Record(n, g)) && i < |f|
    ensures Similar(f[i].1, g[i].1)
  {
    var a, b := Record(n, f).entries, Record(n, g).entries;
    assert SimilarEntryIn(a[i], b);
    var k :| 0 <= k < |b| && b[k].key == a[i].key && Similar(a[i].child, b[k].child);
    assert g[k].0 == f[k].0 == f[i].0;
  }

  lemma SimilarLengths(n: Spelling, f: Fields, g: Fields)
    requires Similar(Record(n, f), Record(n, g))
    ensures |f| == |g|
  {}

  /** The same for records with an optional field in the middle. */
  lemma PartsSimilar(n: Spelling, f: Fields, f': Fields, f'': Fields, g: Fields, g': Fields, g'': Fields)
    requires Faithful(n) && DistinctNames(f + f' + f'') && SameNames(f, g) && SameNames(f'', g'')
    requires |f'| == |g'| ==> SameNames(f', g')
    requires Similar(Record(n, f + f' + f''), Record(n, g + g' + g''))
    ensures Alike(f, g) && Alike(f', g') && Alike(f'', g'')
  {
    var all, others := f + f' + f'', g + g' + g'';
    SimilarLengths(n, all, others);
    RecordsSimilar(n, all, others);
    forall i | 0 <= i < |f| ensures Similar(f[i].1, g[i].1) {
      assert all[i] == f[i] && others[i] == g[i];
    }
    forall i | 0 <= i < |f'| ensures Similar(f'[i].1, g'[i].1) {
      assert all[|f| + i] == f'[i] && others[|f| + i] == g'[i];
    }
    forall i | 0 <= i < |f''| ensures Similar(f''[i].1, g''[i].1) {
      assert all[|f| + |f'| + i] == f''[i] && others[|f| + |f'| + i] == g''[i];
    }
  }

  function Optional<T>(k: Key, o: Option<T>, write: T -> Json): Fields {
    if o.Some? then [(k, write(o.value))] else []
  }

  // ----- leaves and lists

  lemma {:induction false} DecimalDigits(n: nat)
    ensures IsNumberText(Decimal(n))
  {
    if n < 10 {
    } else {
      DecimalDigits(n / 10);
    }
  }

  lemma {:induction false} DecimalInjective(m: nat, n: nat)
    requires Decimal(m) == Decimal(n)
    ensures m == n
  {
    LastDigit(m);
    LastDigit(n);
    if m < 10 || n < 10 {
    } else {
      DecimalInjective(m / 10, n / 10);
    }
  }

  lemma LastDigit(n: nat)
    ensures var s := Decimal(n);
            && s != [] && s[|s| - 1] as int == '0' as int + n % 10
            && (n < 10 <==> |s| == 1) && (n >= 10 ==> s[..|s| - 1] == Decimal(n / 10))
  {
    if n < 10 {
    } else {
      LastDigit(n / 10);
    }
  }

  function TextTree(s: string): Json {
    Text(s)
  }

  function Amount(n: nat): Json {
    Text(Decimal(n))
  }

  function Whole(n: nat): Json {
    Number(Decimal(n))
  }

  function Listed(n: Spelling, t: Tag): Json {
    Text(n.tag(t))
  }

  function ArrayOf<T>(write: T -> Json, s: seq<T>): Json {
    Array(seq(|s|, i requires 0 <= i < |s| => write(s[i])))
  }

  lemma ArraysSimilar<T>(write: T -> Json, s: seq<T>, t: seq<T>)
    requires Similar(ArrayOf(write, s), ArrayOf(write, t))
    ensures |s| == |t| && forall i :: 0 <= i < |s| ==> Similar(write(s[i]), write(t[i]))
  {
    var a, b := ArrayOf(write, s).items, ArrayOf(write, t).items;
    forall i | 0 <= i < |s| ensures Similar(write(s[i]), write(t[i])) {
      assert Similar(a[i], b[i]);
    }
  }

  lemma TextsDetermine(s: seq<string>, t: seq<string>)
    requires Similar(ArrayOf(TextTree, s), ArrayOf(TextTree, t))
    ensures s == t
  {
    ArraysSimilar(TextTree, s, t);
    assert forall i :: 0 <= i < |s| ==> Similar(TextTree(s[i]), TextTree(t[i])) ==> s[i] == t[i];
  }

  // ----- effects

  function EffectHead(n: Spelling, e: Effect): Fields {
    [(KEffectType, Listed(n, EffectTag(e.effectType)))]
  }

  function EffectTail(n: Spelling, e: Effect): Fields {
    [(KDescription, Text(n.describe(e.description)))]
  }

  function EffectTree(n: Spelling, e: Effect): Json {
    Record(n, EffectHead(n, e) + Optional(KAssetId, e.assetId, TextTree) + EffectTail(n, e))
  }

  /** The effect with its description in words. */
  function Spoken(n: Spelling, e: Effect): Effect {
    e.(description := Words(n.describe(e.description)))
  }

  lemma EffectDetermined(n: Spelling, d: Effect, e: Effect)
    requires Faithful(n) && Similar(EffectTree(n, d), EffectTree(n, e))
    ensures Spoken(n, d) == Spoken(n, e)
  {
    var f, g := Optional(KAssetId, d.assetId, TextTree), Optional(KAssetId, e.assetId, TextTree);
    PartsSimilar(n, EffectHead(n, d), f, EffectTail(n, d), EffectHead(n, e), g, EffectTail(n, e));
    EffectFromParts(n, d, e);
  }

  lemma EffectFromParts(n: Spelling, d: Effect, e: Effect)
    requires Faithful(n) && Alike(EffectHead(n, d), EffectHead(n, e)) && Alike(EffectTail(n, d), EffectTail(n, e))
    requires Alike(Optional(KAssetId, d.assetId, TextTree), Optional(KAssetId, e.assetId, TextTree))
    ensures Spoken(n, d) == Spoken(n, e)
  {
    var f, g := Optional(KAssetId, d.assetId, TextTree), Optional(KAssetId, e.assetId, TextTree);
    assert Similar(EffectHead(n, d)[0].1, EffectHead(n, e)[0].1) && Similar(EffectTail(n, d)[0].1, EffectTail(n, e)[0].1);
    assert d.assetId.Some? ==> Similar(f[0].1, g[0].1);
  }

  lemma EffectWellFormed(n: Spelling, e: Effect)
    requires Faithful(n)
    ensures WellFormed(EffectTree(n, e))
  {
    RecordWellFormed(n, EffectHead(n, e) + Optional(KAssetId, e.assetId, TextTree) + EffectTail(n, e));
  }

  // ----- parameters

  function TypeOf(p: Parameters): ActionType {
    match p
    case TransferNative(_, _) => TRANSFER_NATIVE
    case TransferErc20(_, _, _) => TRANSFER_ERC20
    case TransferErc721(_, _, _) => TRANSFER_ERC721
    case TransferErc1155(_, _, _, _) => TRANSFER_ERC1155
    case RevokeErc20Approval(_, _) => REVOKE_ERC20_APPROVAL
    case RevokeNftOperator(_, _, _) => REVOKE_NFT_OPERATOR
    case ClaimSupportedAirdrop(_, _, _) => CLAIM_SUPPORTED_AIRDROP
    case WithdrawSupportedPosition(_, _, _) => WITHDRAW_SUPPORTED_POSITION
    case CustomSupportedAdapter(_, _, _) => CUSTOM_SUPPORTED_ADAPTER
  }

  function ParameterFields(n: Spelling, p: Parameters): Fields {
    match p
    case TransferNative(recipient, maximumAmount) =>
      [(KRecipient, Text(recipient)), (KMaximumAmount, Amount(maximumAmount)), (KAmountStrategy, Listed(n, MaxMinusGasReserve))]
    case TransferErc20(token, recipient, amount) =>
      [(KTokenAddress, Text(token)), (KRecipient, Text(recipient)), (KAmount, Amount(amount))]
    case TransferErc721(collection, recipient, tokenId) =>
      [(KCollectionAddress, Text(collection)), (KRecipient, Text(recipient)), (KTokenId, Amount(tokenId))]
    case TransferErc1155(collection, recipient, tokenId, amount) =>
      [(KCollectionAddress, Text(collection)), (KRecipient, Text(recipient)), (KTokenId, Amount(tokenId)), (KAmount, Amount(amount))]
    case RevokeErc20Approval(token, spender) => [(KTokenAddress, Text(token)), (KSpenderAddress, Text(spender))]
    case RevokeNftOperator(standard, collection, operator) =>
      [(KStandard, Text(standard)), (KCollectionAddress, Text(collection)), (KOperatorAddress, Text(operator))]
    case ClaimSupportedAirdrop(adapterId, contract, reference) =>
      [(KAdapterId, Text(adapterId)), (KContractAddress, Text(contract)), (KClaimReference, Text(reference))]
    case WithdrawSupportedPosition(adapterId, contract, positionId) =>
      [(KAdapterId, Text(adapterId)), (KContractAddress, Text(contract)), (KPositionId, Text(positionId))]
    case CustomSupportedAdapter(adapterId, contract, operationId) =>
      [(KAdapterId, Text(adapterId)), (KContractAddress, Text(contract)), (KOperationId, Text(operationId))]
  }

  lemma ParameterNames(n: Spelling, p: Parameters)
    ensures DistinctNames(ParameterFields(n, p))
  {}

  lemma ParametersWellFormed(n: Spelling, p: Parameters)
    requires Faithful(n)
    ensures WellFormed(Record(n, ParameterFields(n, p)))
  {
    ParameterNames(n, p);
    assert WellFormedFields(ParameterFields(n, p));
    RecordWellFormed(n, ParameterFields(n, p));
  }

  lemma AmountsDetermine(m: nat, n: nat)
    ensures Similar(Amount(m), Amount(n)) ==> m == n
  {
    if Similar(Amount(m), Amount(n)) {
      DecimalInjective(m, n);
    }
  }

  lemma ParametersFromFields(n: Spelling, p: Parameters, q: Parameters)
    requires TypeOf(p) == TypeOf(q) && Alike(ParameterFields(n, p), ParameterFields(n, q))
    ensures p == q
  {
    var f, g := ParameterFields(n, p), ParameterFields(n, q);
    assert Similar(f[0].1, g[0].1) && Similar(f[1].1, g[1].1) && (|f| > 2 ==> Similar(f[2].1, g[2].1));
    match p {
      case TransferNative(_, amount) => AmountsDetermine(amount, q.maximumAmount);
      case TransferErc20(_, _, amount) => AmountsDetermine(amount, q.amount);
      case TransferErc721(_, _, tokenId) => AmountsDetermine(tokenId, q.tokenId);
      case TransferErc1155(_, _, tokenId, amount) =>
        assert Similar(f[3].1, g[3].1);
        AmountsDetermine(tokenId, q.tokenId);
        AmountsDetermine(amount, q.amount);
      case _ =>
    }
  }

  lemma SameParameterNames(n: Spelling, p: Parameters, q: Parameters)
    requires TypeOf(p) == TypeOf(q)
    ensures SameNames(ParameterFields(n, p), ParameterFields(n, q))
  {}

  lemma ParametersDetermined(n: Spelling, p: Parameters, q: Parameters)
    requires Faithful(n) && TypeOf(p) == TypeOf(q)
    requires Similar(Record(n, ParameterFields(n, p)), Record(n, ParameterFields(n, q)))
    ensures p == q
  {
    ParameterNames(n, p);
    SameParameterNames(n, p, q);
    RecordsSimilar(n, ParameterFields(n, p), ParameterFields(n, q));
    ParametersFromFields(n, p, q);
  }

  // ----- actions

  function EffectsTree(n: Spelling, effects: seq<Effect>): Json {
    ArrayOf((e: Effect) => EffectTree(n, e), effects)
  }

  function SpokenAll(n: Spelling, effects: seq<Effect>): seq<Effect> {
    seq(|effects|, i requires 0 <= i < |effects| => Spoken(n, effects[i]))
  }

  lemma EffectsDetermined(n: Spelling, s: seq<Effect>, t: seq<Effect>)
    requires Faithful(n) && Similar(EffectsTree(n, s), EffectsTree(n, t))
    ensures SpokenAll(n, s) == SpokenAll(n, t)
  {
    var write := (e: Effect) => EffectTree(n, e);
    ArraysSimilar(write, s, t);
    forall i | 0 <= i < |s| ensures Spoken(n, s[i]) == Spoken(n, t[i]) {
      assert Similar(write(s[i]), write(t[i]));
      EffectDetermined(n, s[i], t[i]);
    }
  }

  function ActionHead(n: Spelling, a: RescueAction): Fields {
    [(KId, Text(a.id)), (KChainId, Whole(a.chainId)), (KSourceAddress, Text(a.sourceAddress)),
     (KDependencies, ArrayOf(TextTree, a.dependencies)), (KEvidenceIds, ArrayOf(TextTree, a.evidenceIds)),
     (KExpectedEffects, EffectsTree(n, a.expectedEffects)), (KRiskLevel, Listed(n, RiskTag(a.riskLevel)))]
  }

  function ValueField(n: Spelling, a: RescueAction): Fields {
    if a.estimatedValueUsd.Some? then [(KEstimatedValueUsd, Number(n.show(a.estimatedValueUsd.value)))] else []
  }

  function ActionTail(n: Spelling, a: RescueAction): Fields {
    [(KSupportStatus, Listed(n, SupportTag(a.supportStatus))), (KSimulationStatus, Listed(n, NotSimulated)),
     (KActionType, Listed(n, ActionTag(TypeOf(a.parameters)))), (KParameters, Record(n, ParameterFields(n, a.parameters)))]
  }

  function ActionTree(n: Spelling, a: RescueAction): Json {
    Record(n, ActionHead(n, a) + ValueField(n, a) + ActionTail(n, a))
  }

  function SpokenAction(n: Spelling, a: RescueAction): RescueAction {
    a.(expectedEffects := SpokenAll(n, a.expectedEffects))
  }

  lemma HeadDetermines(n: Spelling, a: RescueAction, b: RescueAction)
    requires Faithful(n) && Alike(ActionHead(n, a), ActionHead(n, b))
    ensures a.id == b.id && a.chainId == b.chainId && a.sourceAddress == b.sourceAddress
    ensures a.dependencies == b.dependencies && a.evidenceIds == b.evidenceIds && a.riskLevel == b.riskLevel
    ensures SpokenAll(n, a.expectedEffects) == SpokenAll(n, b.expectedEffects)
  {
    var f, g := ActionHead(n, a), ActionHead(n, b);
    assert Similar(f[0].1, g[0].1) && Similar(f[1].1, g[1].1) && Similar(f[2].1, g[2].1) && Similar(f[6].1, g[6].1);
    assert Similar(f[3].1, g[3].1) && Similar(f[4].1, g[4].1) && Similar(f[5].1, g[5].1);
    DecimalInjective(a.chainId, b.chainId);
    TextsDetermine(a.dependencies, b.dependencies);
    TextsDetermine(a.evidenceIds, b.evidenceIds);
    EffectsDetermined(n, a.expectedEffects, b.expectedEffects);
  }

  lemma TailDetermines(n: Spelling, a: RescueAction, b: RescueAction)
    requires Faithful(n) && Alike(ActionTail(n, a), ActionTail(n, b))
    ensures a.supportStatus == b.supportStatus && a.parameters == b.parameters
  {
    var f, g := ActionTail(n, a), ActionTail(n, b);
    assert Similar(f[0].1, g[0].1) && Similar(f[2].1, g[2].1) && Similar(f[3].1, g[3].1);
    ParametersDetermined(n, a.parameters, b.parameters);
  }

  lemma ValueDetermines(n: Spelling, a: RescueAction, b: RescueAction)
    requires Faithful(n) && Alike(ValueField(n, a), ValueField(n, b))
    ensures a.estimatedValueUsd == b.estimatedValueUsd
  {
    if a.estimatedValueUsd.Some? {
      var x, y := a.estimatedValueUsd.value, b.estimatedValueUsd.value;
      assert Similar(ValueField(n, a)[0].1, ValueField(n, b)[0].1);
      assert n.show(x) == n.show(y);
      assert x == y;
    }
  }

  lemma HeadNames(n: Spelling, a: RescueAction)
    ensures DistinctNames(ActionHead(n, a))
  {}

  lemma HeadTailNames(n: Spelling, a: RescueAction)
    ensures Disjoint(ActionHead(n, a), ValueField(n, a) + ActionTail(n, a))
  {}

  lemma TailNames(n: Spelling, a: RescueAction)
    ensures DistinctNames(ValueField(n, a) + ActionTail(n, a))
  {}

  lemma ActionNames(n: Spelling, a: RescueAction)
    ensures DistinctNames(ActionHead(n, a) + ValueField(n, a) + ActionTail(n, a))
  {
    HeadNames(n, a);
    HeadTailNames(n, a);
    TailNames(n, a);
    JoinedNames(ActionHead(n, a), ValueField(n, a) + ActionTail(n, a));
    assert ActionHead(n, a) + ValueField(n, a) + ActionTail(n, a) == ActionHead(n, a) + (ValueField(n, a) + ActionTail(n, a));
  }

  lemma SameActionNames(n: Spelling, a: RescueAction, b: RescueAction)
    ensures SameNames(ActionHead(n, a), ActionHead(n, b)) && SameNames(ActionTail(n, a), ActionTail(n, b))
    ensures |ValueField(n, a)| == |ValueField(n, b)| ==> SameNames(ValueField(n, a), ValueField(n, b))
  {}

  lemma ActionDetermined(n: Spelling, a: RescueAction, b: RescueAction)
    requires Faithful(n) && Similar(ActionTree(n, a), ActionTree(n, b))
    ensures SpokenAction(n, a) == SpokenAction(n, b)
  {
    ActionNames(n, a);
    SameActionNames(n, a, b);
    PartsSimilar(n, ActionHead(n, a), ValueField(n, a), ActionTail(n, a), ActionHead(n, b), ValueField(n, b), ActionTail(n, b));
    ActionFromParts(n, a, b);
  }

  lemma ActionFromParts(n: Spelling, a: RescueAction, b: RescueAction)
    requires Faithful(n) && Alike(ActionHead(n, a), ActionHead(n, b)) && Alike(ActionTail(n, a), ActionTail(n, b))
    requires Alike(ValueField(n, a), ValueField(n, b))
    ensures SpokenAction(n, a) == SpokenAction(n, b)
  {
    HeadDetermines(n, a, b);
    ValueDetermines(n, a, b);
    TailDetermines(n, a, b);
  }

  // ----- plans

  function OmissionFields(n: Spelling, o: Omission): Fields {
    [(KEvidenceId, Text(o.evidenceId)), (KSupportStatus, Listed(n, SupportTag(o.supportStatus))),
     (KReason, Listed(n, ReasonTag(o.reason)))]
  }

  function OmissionTree(n: Spelling, o: Omission): Json {
    Record(n, OmissionFields(n, o))
  }

  function ActionsTree(n: Spelling, actions: seq<RescueAction>): Json {
    ArrayOf((a: RescueAction) => ActionTree(n, a), actions)
  }

  function OmissionsTree(n: Spelling, omissions: seq<Omission>): Json {
    ArrayOf((o: Omission) => OmissionTree(n, o), omissions)
  }

  function PlanHead(n: Spelling, p: Plan): Fields {
    [(KId, Text(p.id)), (KIncidentId, Text(p.incidentId)), (KVersion, Whole(1)), (KPolicyVersion, Text(p.policyVersion)),
     (KChainId, Whole(p.chainId)), (KSourceAddress, Text(p.sourceAddress)), (KDestinationAddress, Text(p.destinationAddress))]
  }

  function PlanTail(n: Spelling, p: Plan): Fields {
    [(KObservedAtBlock, Amount(p.observedAtBlock)), (KStatus, Listed(n, StatusTag(p.status))),
     (KActions, ActionsTree(n, p.actions)), (KOmissions, OmissionsTree(n, p.omissions)), (KCreatedAt, Text(p.createdAt))]
  }

  /** All of a plan but its hash. */
  function PayloadTree(n: Spelling, p: Plan): Json {
    Record(n, PlanHead(n, p) + PlanTail(n, p))
  }

  function SpokenActions(n: Spelling, actions: seq<RescueAction>): seq<RescueAction> {
    seq(|actions|, i requires 0 <= i < |actions| => SpokenAction(n, actions[i]))
  }

  /** The plan with every description in words, whoever wrote it. */
  function SpokenPlan(n: Spelling, p: Plan): Plan {
    p.(actions := SpokenActions(n, p.actions))
  }

  // ----- the value determines the plan

  lemma ActionsDetermined(n: Spelling, s: seq<RescueAction>, t: seq<RescueAction>)
    requires Faithful(n) && Similar(ActionsTree(n, s), ActionsTree(n, t))
    ensures SpokenActions(n, s) == SpokenActions(n, t)
  {
    var write := (a: RescueAction) => ActionTree(n, a);
    ArraysSimilar(write, s, t);
    forall i | 0 <= i < |s| ensures SpokenAction(n, s[i]) == SpokenAction(n, t[i]) {
      assert Similar(write(s[i]), write(t[i]));
      ActionDetermined(n, s[i], t[i]);
    }
  }

  lemma OmissionDetermined(n: Spelling, o: Omission, o': Omission)
    requires Faithful(n) && Similar(OmissionTree(n, o), OmissionTree(n, o'))
    ensures o == o'
  {
    var f, g := OmissionFields(n, o), OmissionFields(n, o');
    RecordsSimilar(n, f, g);
    assert Similar(f[0].1, g[0].1) && Similar(f[1].1, g[1].1) && Similar(f[2].1, g[2].1);
  }

  lemma OmissionsDetermined(n: Spelling, s: seq<Omission>, t: seq<Omission>)
    requires Faithful(n) && Similar(OmissionsTree(n, s), OmissionsTree(n, t))
    ensures s == t
  {
    var write := (o: Omission) => OmissionTree(n, o);
    ArraysSimilar(write, s, t);
    forall i | 0 <= i < |s| ensures s[i] == t[i] {
      assert Similar(write(s[i]), write(t[i]));
      OmissionDetermined(n, s[i], t[i]);
    }
  }

  lemma PlanHeadDetermines(n: Spelling, p: Plan, q: Plan)
    requires Alike(PlanHead(n, p), PlanHead(n, q))
    ensures p.id == q.id && p.incidentId == q.incidentId && p.policyVersion == q.policyVersion && p.chainId == q.chainId
    ensures p.sourceAddress == q.sourceAddress && p.destinationAddress == q.destinationAddress
  {
    var f, g := PlanHead(n, p), PlanHead(n, q);
    assert Similar(f[0].1, g[0].1) && Similar(f[1].1, g[1].1) && Similar(f[3].1, g[3].1);
    assert Similar(f[4].1, g[4].1) && Similar(f[5].1, g[5].1) && Similar(f[6].1, g[6].1);
    DecimalInjective(p.chainId, q.chainId);
  }

  lemma PlanTailDetermines(n: Spelling, p: Plan, q: Plan)
    requires Faithful(n) && Alike(PlanTail(n, p), PlanTail(n, q))
    ensures p.observedAtBlock == q.observedAtBlock && p.status == q.status && p.createdAt == q.createdAt
    ensures SpokenActions(n, p.actions) == SpokenActions(n, q.actions) && p.omissions == q.omissions
  {
    var f, g := PlanTail(n, p), PlanTail(n, q);
    assert Similar(f[0].1, g[0].1) && Similar(f[1].1, g[1].1) && Similar(f[4].1, g[4].1);
    assert Similar(f[2].1, g[2].1) && Similar(f[3].1, g[3].1);
    DecimalInjective(p.observedAtBlock, q.observedAtBlock);
    ActionsDetermined(n, p.actions, q.actions);
    OmissionsDetermined(n, p.omissions, q.omissions);
  }

  lemma PlanNamesDistinct(n: Spelling, p: Plan)
    ensures DistinctNames(PlanHead(n, p)) && DistinctNames(PlanTail(n, p))
  {}

  lemma PlanNamesDisjoint(n: Spelling, p: Plan)
    ensures Disjoint(PlanHead(n, p), PlanTail(n, p))
  {}

  lemma PlanFieldNames(n: Spelling, p: Plan)
    ensures DistinctNames(PlanHead(n, p) + PlanTail(n, p))
  {
    PlanNamesDistinct(n, p);
    PlanNamesDisjoint(n, p);
    JoinedNames(PlanHead(n, p), PlanTail(n, p));
  }

  /** Plans with the same JSON value, up to the order of keys, are the same plan. */
  lemma PlanDetermined(n: Spelling, p: Plan, q: Plan)
    requires Faithful(n) && Similar(PayloadTree(n, p), PayloadTree(n, q))
    ensures SpokenPlan(n, p) == SpokenPlan(n, q)
  {
    PlanFieldNames(n, p);
    assert PlanHead(n, p) + [] + PlanTail(n, p) == PlanHead(n, p) + PlanTail(n, p);
    assert PlanHead(n, q) + [] + PlanTail(n, q) == PlanHead(n, q) + PlanTail(n, q);
    PartsSimilar(n, PlanHead(n, p), [], PlanTail(n, p), PlanHead(n, q), [], PlanTail(n, q));
    PlanHeadDetermines(n, p, q);
    PlanTailDetermines(n, p, q);
  }

  // ----- the values are well formed

  lemma ArrayWellFormed<T>(write: T -> Json, s: seq<T>)
    requires forall i :: 0 <= i < |s| ==> WellFormed(write(s[i]))
    ensures WellFormed(ArrayOf(write, s))
  {}

  lemma EffectsWellFormed(n: Spelling, effects: seq<Effect>)
    requires Faithful(n)
    ensures WellFormed(EffectsTree(n, effects))
  {
    var write := (e: Effect) => EffectTree(n, e);
    forall i | 0 <= i < |effects| ensures WellFormed(write(effects[i])) {
      EffectWellFormed(n, effects[i]);
    }
    ArrayWellFormed(write, effects);
  }

  lemma HeadWellFormed(n: Spelling, a: RescueAction)
    requires Faithful(n)
    ensures WellFormedFields(ActionHead(n, a)) && WellFormedFields(ValueField(n, a))
  {
    DecimalDigits(a.chainId);
    ArrayWellFormed(TextTree, a.dependencies);
    ArrayWellFormed(TextTree, a.evidenceIds);
    EffectsWellFormed(n, a.expectedEffects);
    if a.estimatedValueUsd.Some? {
      var x := a.estimatedValueUsd.value;
      assert IsNumberText(n.show(x));
    }
  }

  lemma TailWellFormed(n: Spelling, a: RescueAction)
    requires Faithful(n)
    ensures WellFormedFields(ActionTail(n, a))
  {
    ParametersWellFormed(n, a.parameters);
  }

  lemma JoinedWellFormed(f: Fields, g: Fields)
    requires WellFormedFields(f) && WellFormedFields(g)
    ensures WellFormedFields(f + g)
  {}

  lemma ActionWellFormed(n: Spelling, a: RescueAction)
    requires Faithful(n)
    ensures WellFormed(ActionTree(n, a))
  {
    ActionNames(n, a);
    HeadWellFormed(n, a);
    TailWellFormed(n, a);
    JoinedWellFormed(ActionHead(n, a), ValueField(n, a));
    JoinedWellFormed(ActionHead(n, a) + ValueField(n, a), ActionTail(n, a));
    RecordWellFormed(n, ActionHead(n, a) + ValueField(n, a) + ActionTail(n, a));
  }

  lemma ListsWellFormed(n: Spelling, p: Plan)
    requires Faithful(n)
    ensures WellFormed(ActionsTree(n, p.actions)) && WellFormed(OmissionsTree(n, p.omissions))
  {
    var writeAction, writeOmission := (a: RescueAction) => ActionTree(n, a), (o: Omission) => OmissionTree(n, o);
    forall i | 0 <= i < |p.actions| ensures WellFormed(writeAction(p.actions[i])) {
      ActionWellFormed(n, p.actions[i]);
    }
    forall i | 0 <= i < |p.omissions| ensures WellFormed(writeOmission(p.omissions[i])) {
      RecordWellFormed(n, OmissionFields(n, p.omissions[i]));
    }
    ArrayWellFormed(writeAction, p.actions);
    ArrayWellFormed(writeOmission, p.omissions);
  }

  lemma PlanFieldsWellFormed(n: Spelling, p: Plan)
    requires Faithful(n)
    ensures WellFormedFields(PlanHead(n, p)) && WellFormedFields(PlanTail(n, p))
  {
    DecimalDigits(1);
    DecimalDigits(p.chainId);
    ListsWellFormed(n, p);
  }

  lemma PayloadWellFormed(n: Spelling, p: Plan)
    requires Faithful(n)
    ensures WellFormed(PayloadTree(n, p)) && HASH_KEY !in Keys(PayloadTree(n, p).entries)
  {
    PlanFieldNames(n, p);
    PlanFieldsWellFormed(n, p);
    JoinedWellFormed(PlanHead(n, p), PlanTail(n, p));
    RecordWellFormed(n, PlanHead(n, p) + PlanTail(n, p));
    NoHashField(n, p);
    OtherKeys(n, PlanHead(n, p) + PlanTail(n, p), KIntegrityHash);
  }

  lemma NoHashField(n: Spelling, p: Plan)
    ensures var fields := PlanHead(n, p) + PlanTail(n, p);
            forall i :: 0 <= i < |fields| ==> fields[i].0 != KIntegrityHash
  {}

  lemma OtherKeys(n: Spelling, fields: Fields, k: Key)
    requires Faithful(n) && forall i :: 0 <= i < |fields| ==> fields[i].0 != k
    ensures n.key(k) !in Keys(Record(n, fields).entries)
  {}

  // ----- descriptions count by their words

  lemma SpokenEffectSameTree(n: Spelling, e: Effect)
    requires Faithful(n)
    ensures EffectTree(n, Spoken(n, e)) == EffectTree(n, e)
  {
    assert EffectTail(n, Spoken(n, e)) == EffectTail(n, e);
  }

  lemma SpokenActionSameTree(n: Spelling, a: RescueAction)
    requires Faithful(n)
    ensures ActionTree(n, SpokenAction(n, a)) == ActionTree(n, a)
  {
    var effects := a.expectedEffects;
    forall i | 0 <= i < |effects| ensures EffectTree(n, SpokenAll(n, effects)[i]) == EffectTree(n, effects[i]) {
      SpokenEffectSameTree(n, effects[i]);
    }
    assert EffectsTree(n, SpokenAll(n, effects)) == EffectsTree(n, effects);
    assert ActionHead(n, SpokenAction(n, a)) == ActionHead(n, a);
  }

  lemma SpokenSameTree(n: Spelling, p: Plan)
    requires Faithful(n)
    ensures PayloadTree(n, SpokenPlan(n, p)) == PayloadTree(n, p)
  {
    var actions := p.actions;
    forall i | 0 <= i < |actions| ensures ActionTree(n, SpokenActions(n, actions)[i]) == ActionTree(n, actions[i]) {
      SpokenActionSameTree(n, actions[i]);
    }
    assert ActionsTree(n, SpokenActions(n, actions)) == ActionsTree(n, actions);
    assert PlanTail(n, SpokenPlan(n, p)) == PlanTail(n, p);
  }
}
