/** What the plans of the deterministic planner promise: no action is lost, dependencies keep
    their places, and every piece of evidence is accounted for. */
module PlanProperties {
  import opened Basics
  import opened Sorting
  import opened RescueActions
  import opened Ordering
  import opened Planner

  // ----- lists without repeated keys

  ghost predicate KeysDistinct<T>(key: T -> string, s: seq<T>) {
    forall i, j :: 0 <= i < j < |s| ==> key(s[i]) != key(s[j])
  }

  ghost predicate Apart<T(!new)>(key: T -> string, a: seq<T>, b: seq<T>) {
    forall x, y :: x in a && y in b ==> key(x) != key(y)
  }

  lemma {:induction false} AppendDistinct<T(!new)>(key: T -> string, a: seq<T>, b: seq<T>)
    ensures KeysDistinct(key, a + b) <==> KeysDistinct(key, a) && KeysDistinct(key, b) && Apart(key, a, b)
  {
    var all := a + b;
    if KeysDistinct(key, all) {
      forall i, j | 0 <= i < j < |b| ensures key(b[i]) != key(b[j]) {
        assert all[|a| + i] == b[i] && all[|a| + j] == b[j];
      }
      forall i, j | 0 <= i < j < |a| ensures key(a[i]) != key(a[j]) {
        assert all[i] == a[i] && all[j] == a[j];
      }
      forall x, y | x in a && y in b ensures key(x) != key(y) {
        var i :| 0 <= i < |a| && a[i] == x;
        var j :| 0 <= j < |b| && b[j] == y;
        assert all[i] == x && all[|a| + j] == y;
      }
    }
  }

  ghost predicate PartsDistinct<A(!new), B(!new)>(f: A -> seq<B>, key: B -> string, s: seq<A>) {
    && (forall i :: 0 <= i < |s| ==> KeysDistinct(key, f(s[i])))
    && (forall i, j :: 0 <= i < j < |s| ==> Apart(key, f(s[i]), f(s[j])))
  }

  lemma {:induction false} FlatMapDistinct<A(!new), B(!new)>(f: A -> seq<B>, key: B -> string, s: seq<A>)
    ensures KeysDistinct(key, FlatMap(f, s)) <==> PartsDistinct(f, key, s)
  {
    if s == [] {
    } else {
      var init, last := s[..|s| - 1], s[|s| - 1];
      FlatMapDistinct(f, key, init);
      FlatMapMember(f, init);
      AppendDistinct(key, FlatMap(f, init), f(last));
      assert s == init + [last];
      assert Apart(key, FlatMap(f, init), f(last)) <==> forall i :: 0 <= i < |init| ==> Apart(key, f(init[i]), f(last)) by {
        if Apart(key, FlatMap(f, init), f(last)) {
          forall i, x, y | 0 <= i < |init| && x in f(init[i]) && y in f(last) ensures key(x) != key(y) {
            assert x in FlatMap(f, init);
          }
        }
      }
      PartsSnoc(f, key, init, last);
    }
  }

  lemma {:induction false} PartsSnoc<A(!new), B(!new)>(f: A -> seq<B>, key: B -> string, init: seq<A>, last: A)
    ensures PartsDistinct(f, key, init + [last]) <==>
            PartsDistinct(f, key, init) && KeysDistinct(key, f(last))
            && forall i :: 0 <= i < |init| ==> Apart(key, f(init[i]), f(last))
  {
    var s := init + [last];
    assert s[|init|] == last;
    assert forall i :: 0 <= i < |init| ==> s[i] == init[i];
  }

  // ----- no action is lost

  /** Assets, approvals and the scan itself carry different evidence ids, and candidates different ids. */
  ghost predicate UniqueEvidence(r: Request) {
    var assets, approvals, cs := r.scan.assets, r.scan.approvals, r.candidates;
    && (forall i, j :: 0 <= i < j < |assets| ==> assets[i].evidence.id != assets[j].evidence.id)
    && (forall i, j :: 0 <= i < j < |approvals| ==> approvals[i].evidence.id != approvals[j].evidence.id)
    && (forall i, j :: 0 <= i < |assets| && 0 <= j < |approvals| ==> assets[i].evidence.id != approvals[j].evidence.id)
    && (forall i :: 0 <= i < |assets| ==> assets[i].evidence.id != r.scan.id)
    && (forall i :: 0 <= i < |approvals| ==> approvals[i].evidence.id != r.scan.id)
    && (forall i, j :: 0 <= i < j < |cs| ==> cs[i].id != cs[j].id)
  }

  ghost predicate OutputsApart(c: Candidate, d: Candidate) {
    forall k, m :: 0 <= k < |c.outputs| && 0 <= m < |d.outputs| ==>
      c.id + ":" + c.outputs[k].id != d.id + ":" + d.outputs[m].id
  }

  ghost predicate OutputIdsDistinct(c: Candidate) {
    forall k, m :: 0 <= k < m < |c.outputs| ==> c.outputs[k].id != c.outputs[m].id
  }

  /** Candidate id and output id, joined by a colon, tell all adapter outputs apart. */
  ghost predicate OutputKeysDistinct(r: Request) {
    && (forall i :: 0 <= i < |r.candidates| ==> OutputIdsDistinct(r.candidates[i]))
    && (forall i, j :: 0 <= i < j < |r.candidates| ==> OutputsApart(r.candidates[i], r.candidates[j]))
  }

  function IdOf(a: RescueAction): string { a.id }

  lemma OutputIdInjective(c: string, o: string, d: string, p: string)
    ensures OutputId(c, o) == OutputId(d, p) <==> c + ":" + o == d + ":" + p
    ensures OutputId(c, o) == OutputId(c, p) <==> o == p
  {
    assert OutputId(c, o)[22..] == c + ":" + o && OutputId(d, p)[22..] == d + ":" + p;
    assert OutputId(c, o)[22 + |c| + 1..] == o && OutputId(c, p)[22 + |c| + 1..] == p;
  }

  lemma OutputIdsApart(c: Candidate, destination: string)
    ensures KeysDistinct(IdOf, FlatMap((o: Output) => [OutputTransfer(c, o, destination)], c.outputs)) <==> OutputIdsDistinct(c)
  {
    var step := (o: Output) => [OutputTransfer(c, o, destination)];
    FlatMapDistinct(step, IdOf, c.outputs);
    forall k, m | 0 <= k < m < |c.outputs|
      ensures Apart(IdOf, step(c.outputs[k]), step(c.outputs[m])) <==> c.outputs[k].id != c.outputs[m].id
    {
      OutputIdInjective(c.id, c.outputs[k].id, c.id, c.outputs[m].id);
      assert step(c.outputs[k])[0] in step(c.outputs[k]) && step(c.outputs[m])[0] in step(c.outputs[m]);
    }
  }

  lemma CandidateIdsDistinct(c: Candidate, destination: string)
    ensures KeysDistinct(IdOf, CandidateActions(c, destination)) <==> OutputIdsDistinct(c)
  {
    var step := (o: Output) => [OutputTransfer(c, o, destination)];
    var outputs := FlatMap(step, c.outputs);
    OutputIdsApart(c, destination);
    FlatMapMember(step, c.outputs);
    AppendDistinct(IdOf, [AdapterAction(c)], outputs);
    forall x | x in outputs ensures AdapterAction(c).id != x.id {
      var k :| 0 <= k < |c.outputs| && x in step(c.outputs[k]);
      IdShapes(c.id, c.outputs[k].id);
    }
  }

  lemma CandidatesApart(c: Candidate, d: Candidate, r: Request)
    requires c.id != d.id
    ensures Apart(IdOf, CandidateActions(c, r.destinationAddress), CandidateActions(d, r.destinationAddress)) <==> OutputsApart(c, d)
  {
    var cs, ds := CandidateActions(c, r.destinationAddress), CandidateActions(d, r.destinationAddress);
    if OutputsApart(c, d) {
      forall x, y | x in cs && y in ds ensures x.id != y.id {
        CandidateMembers(r, c, x);
        CandidateMembers(r, d, y);
        CandidateIdsApart(c, d, r.destinationAddress, x, y);
      }
    }
    if Apart(IdOf, cs, ds) {
      forall k, m | 0 <= k < |c.outputs| && 0 <= m < |d.outputs|
        ensures c.id + ":" + c.outputs[k].id != d.id + ":" + d.outputs[m].id
      {
        var x, y := OutputTransfer(c, c.outputs[k], r.destinationAddress), OutputTransfer(d, d.outputs[m], r.destinationAddress);
        CandidateMembers(r, c, x);
        CandidateMembers(r, d, y);
        OutputIdInjective(c.id, c.outputs[k].id, d.id, d.outputs[m].id);
        assert IdOf(x) != IdOf(y);
      }
    }
  }

  lemma CandidateIdsApart(c: Candidate, d: Candidate, destination: string, x: RescueAction, y: RescueAction)
    requires c.id != d.id && OutputsApart(c, d)
    requires x == AdapterAction(c) || exists k :: 0 <= k < |c.outputs| && x == OutputTransfer(c, c.outputs[k], destination)
    requires y == AdapterAction(d) || exists k :: 0 <= k < |d.outputs| && y == OutputTransfer(d, d.outputs[k], destination)
    ensures x.id != y.id
  {
    IdShapes(c.id, d.id);
    IdShapes(d.id, "");
    if x != AdapterAction(c) {
      var k :| 0 <= k < |c.outputs| && x == OutputTransfer(c, c.outputs[k], destination);
      IdShapes(c.id, c.outputs[k].id);
      if y != AdapterAction(d) {
        var m :| 0 <= m < |d.outputs| && y == OutputTransfer(d, d.outputs[m], destination);
        OutputIdInjective(c.id, c.outputs[k].id, d.id, d.outputs[m].id);
      }
    } else if y != AdapterAction(d) {
      var m :| 0 <= m < |d.outputs| && y == OutputTransfer(d, d.outputs[m], destination);
      IdShapes(d.id, d.outputs[m].id);
    }
  }

  lemma AdapterIdsDistinct(r: Request)
    requires UniqueEvidence(r)
    ensures var step := (c: Candidate) => CandidateActions(c, r.destinationAddress);
            KeysDistinct(IdOf, FlatMap(step, r.candidates)) <==> OutputKeysDistinct(r)
  {
    var step := (c: Candidate) => CandidateActions(c, r.destinationAddress);
    FlatMapDistinct(step, IdOf, r.candidates);
    forall i | 0 <= i < |r.candidates|
      ensures KeysDistinct(IdOf, step(r.candidates[i])) <==> OutputIdsDistinct(r.candidates[i])
    {
      CandidateIdsDistinct(r.candidates[i], r.destinationAddress);
    }
    forall i, j | 0 <= i < j < |r.candidates|
      ensures Apart(IdOf, step(r.candidates[i]), step(r.candidates[j])) <==> OutputsApart(r.candidates[i], r.candidates[j])
    {
      CandidatesApart(r.candidates[i], r.candidates[j], r);
    }
  }

  lemma AssetIdsDistinct(r: Request)
    requires UniqueEvidence(r)
    ensures KeysDistinct(IdOf, FlatMap((a: Asset) => AssetActions(a, r.destinationAddress), r.scan.assets))
  {
    var step := (a: Asset) => AssetActions(a, r.destinationAddress);
    FlatMapDistinct(step, IdOf, r.scan.assets);
    forall i, j | 0 <= i < j < |r.scan.assets| ensures Apart(IdOf, step(r.scan.assets[i]), step(r.scan.assets[j])) {
      IdShapes(r.scan.assets[i].evidence.id, r.scan.assets[j].evidence.id);
    }
  }

  lemma RevocationIdsDistinct(r: Request)
    requires UniqueEvidence(r)
    ensures KeysDistinct(IdOf, Revocations(r))
  {
    var step := (p: Approval) => ApprovalActions(p, Transfers(r));
    FlatMapDistinct(step, IdOf, r.scan.approvals);
    forall i, j | 0 <= i < j < |r.scan.approvals| ensures Apart(IdOf, step(r.scan.approvals[i]), step(r.scan.approvals[j])) {
      RevocationsApart(r.scan.approvals[i], r.scan.approvals[j], Transfers(r));
    }
  }

  lemma RevocationsApart(p: Approval, q: Approval, transfers: seq<RescueAction>)
    requires p.evidence.id != q.evidence.id
    ensures Apart(IdOf, ApprovalActions(p, transfers), ApprovalActions(q, transfers))
  {
    IdShapes(p.evidence.id, q.evidence.id);
  }

  lemma TransferIdsDistinct(r: Request)
    requires UniqueEvidence(r)
    ensures KeysDistinct(IdOf, Transfers(r)) <==> OutputKeysDistinct(r)
  {
    var assets := FlatMap((a: Asset) => AssetActions(a, r.destinationAddress), r.scan.assets);
    var adapters := FlatMap((c: Candidate) => CandidateActions(c, r.destinationAddress), r.candidates);
    AppendDistinct(IdOf, assets, adapters);
    AssetIdsDistinct(r);
    AdapterIdsDistinct(r);
    forall x, y | x in assets && y in adapters ensures x.id != y.id {
      FromAssets(r, x);
      FromCandidates(r, y);
    }
  }

  lemma FromAssets(r: Request, x: RescueAction)
    requires x in FlatMap((a: Asset) => AssetActions(a, r.destinationAddress), r.scan.assets)
    ensures |x.id| > 7 && x.id[7] == 't'
  {
    var step := (a: Asset) => AssetActions(a, r.destinationAddress);
    FlatMapMember(step, r.scan.assets);
    var i :| 0 <= i < |r.scan.assets| && x in step(r.scan.assets[i]);
    assert IsAssetTransfer(r, x);
    AssetShape(r, x);
  }

  lemma FromCandidates(r: Request, y: RescueAction)
    requires y in FlatMap((c: Candidate) => CandidateActions(c, r.destinationAddress), r.candidates)
    ensures |y.id| > 7 && y.id[7] == 'a'
  {
    var step := (c: Candidate) => CandidateActions(c, r.destinationAddress);
    FlatMapMember(step, r.candidates);
    var i :| 0 <= i < |r.candidates| && y in step(r.candidates[i]);
    CandidateMembers(r, r.candidates[i], y);
    if IsAdapterAction(r, y) {
      AdapterShape(r, y);
    } else {
      OutputShape(r, y);
    }
  }

  lemma TransferNotRevocation(r: Request, x: RescueAction, y: RescueAction)
    requires x in Transfers(r) && y in Revocations(r)
    ensures x.id != y.id
  {
    NotRevoking(r, x);
    assert x in PlannedActions(r);
    LevelShape(r, x);
    RevocationMembers(Transfers(r), r.scan.approvals, y);
    RevocationShape(r, y);
  }

  /** With unique evidence the planned actions have different ids exactly when the joined
      output ids are different. */
  lemma PlannedIdsDistinct(r: Request)
    requires UniqueEvidence(r)
    ensures DistinctIds(PlannedActions(r)) <==> OutputKeysDistinct(r)
    ensures !NativeIdClashes(r)
  {
    NoClash(r);
    ClashMeans(r);
    TransferIdsDistinct(r);
    RevocationIdsDistinct(r);
    var transfers, revocations, natives := Transfers(r), Revocations(r), NativeActions(r);
    forall x, y | x in transfers && y in revocations ensures x.id != y.id {
      TransferNotRevocation(r, x, y);
    }
    AppendDistinct(IdOf, transfers, revocations);
    AppendDistinct(IdOf, transfers + revocations, natives);
    assert Apart(IdOf, transfers + revocations, natives);
    assert KeysDistinct(IdOf, PlannedActions(r)) <==> DistinctIds(PlannedActions(r));
  }

  lemma NoClash(r: Request)
    requires UniqueEvidence(r)
    ensures !NativeIdClashes(r)
  {
    if Natives(r) != [] {
      NativesAreNative(r);
      assert Natives(r)[0] in Natives(r);
      var j :| 0 <= j < |r.scan.assets| && r.scan.assets[j] == Natives(r)[0];
      assert r.scan.assets[j].Native?;
      assert forall i :: 0 <= i < |r.scan.assets| && !r.scan.assets[i].Native? ==> i < j || j < i;
    }
  }

  /** Without colons in candidate ids, ids that are unique per candidate are enough. */
  lemma NoColonsNoCollision(r: Request)
    requires UniqueEvidence(r)
    requires forall i :: 0 <= i < |r.candidates| ==> ':' !in r.candidates[i].id && OutputIdsDistinct(r.candidates[i])
    ensures OutputKeysDistinct(r)
  {
    forall i, j, k, m | 0 <= i < j < |r.candidates| && 0 <= k < |r.candidates[i].outputs| && 0 <= m < |r.candidates[j].outputs|
      ensures r.candidates[i].id + ":" + r.candidates[i].outputs[k].id != r.candidates[j].id + ":" + r.candidates[j].outputs[m].id
    {
      FirstColonSplits(r.candidates[i].id, r.candidates[i].outputs[k].id, r.candidates[j].id, r.candidates[j].outputs[m].id);
    }
  }

  lemma FirstColonSplits(a: string, b: string, c: string, d: string)
    requires ':' !in a && ':' !in c
    ensures a + ":" + b == c + ":" + d ==> a == c
  {
    var left, right := a + ":" + b, c + ":" + d;
    if left == right {
      assert left[|a|] == ':' && right[|c|] == ':';
      assert forall i :: 0 <= i < |a| ==> left[i] == a[i];
      assert forall i :: 0 <= i < |c| ==> right[i] == c[i];
      assert |a| == |c|;
      assert a == left[..|a|] && c == right[..|c|];
    }
  }

  lemma {:induction false} DistinctSnoc(actions: seq<RescueAction>)
    requires actions != []
    ensures var init, last := actions[..|actions| - 1], actions[|actions| - 1];
            && IdSet(actions) == IdSet(init) + {last.id}
            && (DistinctIds(actions) <==> DistinctIds(init) && last.id !in IdSet(init))
  {}

  lemma {:induction false} IdsCounted(actions: seq<RescueAction>)
    ensures |IdSet(actions)| <= |actions|
    ensures DistinctIds(actions) <==> |IdSet(actions)| == |actions|
  {
    if actions == [] {
    } else {
      DistinctSnoc(actions);
      IdsCounted(actions[..|actions| - 1]);
    }
  }

  lemma {:induction false} SameIds(actions: seq<RescueAction>, order: seq<RescueAction>)
    requires ToSet(order) == Actions(ById(actions))
    ensures IdSet(order) == IdSet(actions)
  {
    ByIdKeys(actions);
    var m := ById(actions);
    forall a | a in order ensures a.id in m {
      assert a in ToSet(order);
    }
    forall d | d in m ensures d in IdSet(order) {
      assert m[d] in ToSet(order);
      assert m[d].id == d;
    }
  }

  /** The sort keeps every planned action exactly when their ids are different. */
  lemma {:induction false} NothingLostIff(cmp: Comparison<RescueAction>, actions: seq<RescueAction>, order: seq<RescueAction>)
    requires PickOrder(cmp, Actions(ById(actions)), order)
    ensures IdSet(order) == IdSet(actions) && ToSet(order) <= ToSet(actions)
    ensures |order| == |actions| <==> DistinctIds(actions)
    ensures DistinctIds(actions) ==> ToSet(order) == ToSet(actions)
  {
    ByIdElements(actions);
    PickOrderIsTopological(cmp, Actions(ById(actions)), order);
    SameIds(actions, order);
    IdsCounted(order);
    IdsCounted(actions);
  }

  /** Two adapters, each with one output: "a:b" with "c" and "a" with "b:c". */
  function ColonCandidate(id: string, output: string): Candidate {
    Candidate(id, "e", "x", "1", 1, "0xs", "0xc", "d", LOW, None, [], Claim("r"), [Erc20Output(output, None, "0xt", 1)])
  }

  function ColonRequest(): Request {
    Request("i", "0xd", "p", Scan("s", "i", 1, "0xs", true, 0, [], []), [ColonCandidate("a:b", "c"), ColonCandidate("a", "b:c")])
  }

  const COLON_ADAPTER: TrustedAdapter := TrustedAdapter("x", "1", 1, "0xc", true, false, false, ["0xt"], [])

  lemma ColonRequestInScope()
    ensures InScope(ColonRequest(), [COLON_ADAPTER])
    ensures !SameText(ColonRequest().scan.address, ColonRequest().destinationAddress)
    ensures UniqueEvidence(ColonRequest())
    ensures OutputIdsDistinct(ColonCandidate("a:b", "c")) && OutputIdsDistinct(ColonCandidate("a", "b:c"))
  {
    var r := ColonRequest();
    assert Lower("0xs")[2] == 's' && Lower("0xd")[2] == 'd';
    assert "a:b" != "a" by { assert |"a:b"| != |"a"|; }
    forall i | 0 <= i < |r.candidates|
      ensures Trusting([COLON_ADAPTER], r.candidates[i]) == Some(COLON_ADAPTER) && TrustsCandidate(COLON_ADAPTER, r.candidates[i])
    {
      assert SameText(COLON_ADAPTER.allowedOutputs[0], r.candidates[i].outputs[0].contractAddress);
    }
  }

  /** Unique ids alone are not enough: one of these two outputs never reaches the plan. */
  lemma ColonsLoseAnOutput(cmp: Comparison<RescueAction>, order: seq<RescueAction>)
    requires PickOrder(cmp, Actions(ById(PlannedActions(ColonRequest()))), order)
    ensures |order| < |PlannedActions(ColonRequest())|
  {
    var r := ColonRequest();
    var c, d := r.candidates[0], r.candidates[1];
    assert c.id + ":" + c.outputs[0].id == d.id + ":" + d.outputs[0].id;
    assert !OutputsApart(c, d);
    ColonRequestInScope();
    PlannedIdsDistinct(r);
    NothingLostIff(cmp, PlannedActions(r), order);
    IdsCounted(PlannedActions(r));
    PickOrderIsTopologicalFor(cmp, r, order);
    IdsCounted(order);
  }

  lemma ColonRequestIsPlanned()
    ensures !NativeIdClashes(ColonRequest()) && PlannedOmissions(ColonRequest()) == []
  {
    ColonRequestInScope();
    PlannedIdsDistinct(ColonRequest());
    assert ColonRequest().scan.assets == [];
  }

  /** The planner accepts that request and returns, as ready, a plan without one of its actions. */
  method PlanLosesAnOutput(collate: Comparison<string>, now: string) returns (plan: RescueActions.Plan)
    requires IsCollation(collate)
    ensures |plan.actions| < |PlannedActions(ColonRequest())|
    ensures plan.status.READY?
  {
    var planner := new DeterministicRescuePlanner(collate, [COLON_ADAPTER]);
    var r := ColonRequest();
    ColonRequestInScope();
    ColonRequestIsPlanned();
    var result := planner.Plan(r, now);
    plan := result.value;
    ColonsLoseAnOutput(CompareActions(collate, PrioritiesOf(PlannedActions(r))), plan.actions);
  }

  /** A native balance and a token balance reported under one evidence id. */
  function ClashRequest(): Request {
    var e := Evidence("x", 1, "0xs", SUPPORTED);
    Request("i", "0xd", "p", Scan("s", "i", 1, "0xs", true, 0, [Native(e, None, 1), Erc20(e, None, "0xt", 1)], []), [])
  }

  lemma ClashRequestClashes()
    ensures InScope(ClashRequest(), []) && !SameText(ClashRequest().scan.address, ClashRequest().destinationAddress)
    ensures NativeIdClashes(ClashRequest())
  {
    var r := ClashRequest();
    assert Lower("0xs")[2] == 's' && Lower("0xd")[2] == 'd';
    NativesAreNative(r);
    assert r.scan.assets[0] in Natives(r);
    assert Natives(r)[0] in Natives(r);
    assert Natives(r)[0] in r.scan.assets && Natives(r)[0].Native?;
    assert AssetActions(r.scan.assets[1], r.destinationAddress) != [];
  }

  /** The planner accepts the scope of that request and reports a dependency cycle. */
  method ClashIsReported(collate: Comparison<string>, now: string) returns (result: Result<RescueActions.Plan, PlanError>)
    requires IsCollation(collate)
    ensures InScope(ClashRequest(), []) && NativeIdClashes(ClashRequest())
    ensures result == Err(PlanError.DependencyCycle)
  {
    ClashRequestClashes();
    var planner := new DeterministicRescuePlanner(collate, []);
    result := planner.Plan(ClashRequest(), now);
  }

  lemma {:induction false} PickOrderIsTopologicalFor(cmp: Comparison<RescueAction>, r: Request, order: seq<RescueAction>)
    requires PickOrder(cmp, Actions(ById(PlannedActions(r))), order)
    ensures DistinctIds(order) && DependenciesEarlier(order)
  {
    ByIdElements(PlannedActions(r));
    PickOrderIsTopological(cmp, Actions(ById(PlannedActions(r))), order);
  }

  // ----- dependencies keep their places

  lemma {:induction false} EarlierThan(order: seq<RescueAction>, i: nat, j: nat)
    requires DistinctIds(order) && DependenciesEarlier(order)
    requires i < |order| && j < |order| && order[i].id in order[j].dependencies
    ensures i < j
  {}

  lemma MovedActionsAreTransfers(r: Request, x: RescueAction)
    requires x in PlannedActions(r) && (TokenMoved(x).Some? || CollectionMoved(x).Some?)
    ensures x in Transfers(r)
  {
    if x in Revocations(r) {
      RevocationMembers(Transfers(r), r.scan.approvals, x);
    } else if x in NativeActions(r) {
      NativeShape(r, x);
    }
  }

  lemma RevocationDependsOn(r: Request, a: RescueAction, b: RescueAction)
    requires a in PlannedActions(r) && b in PlannedActions(r) && Revokes(a, b)
    ensures b.id in a.dependencies
  {
    MovedActionsAreTransfers(r, b);
    PlannedRevocation(r, a);
    var k :| 0 <= k < |r.scan.approvals| && a in ApprovalActions(r.scan.approvals[k], Transfers(r));
    RevocationDependencies(r, r.scan.approvals[k], a, b.id);
  }

  /** Every revocation follows all transfers of its contract. */
  lemma {:induction false} RevocationsFollowTransfers(cmp: Comparison<RescueAction>, r: Request, order: seq<RescueAction>, i: nat, j: nat)
    requires PickOrder(cmp, Actions(ById(PlannedActions(r))), order)
    requires i < |order| && j < |order| && Revokes(order[j], order[i])
    ensures i < j
  {
    PickOrderIsTopologicalFor(cmp, r, order);
    NothingLostIff(cmp, PlannedActions(r), order);
    assert order[i] in ToSet(order) && order[j] in ToSet(order);
    RevocationDependsOn(r, order[j], order[i]);
    EarlierThan(order, i, j);
  }

  /** Only the adapter action of a candidate has its id. */
  lemma AdapterActionById(r: Request, i: nat, a: RescueAction)
    requires UniqueEvidence(r) && i < |r.candidates|
    requires a in PlannedActions(r) && a.id == AdapterActionId(r.candidates[i].id)
    ensures a == AdapterAction(r.candidates[i])
  {
    IdShapes(r.candidates[i].id, "");
    AdapterLevel(r, a);
    var k :| 0 <= k < |r.candidates| && a == AdapterAction(r.candidates[k]);
    IdShapes(r.candidates[i].id, r.candidates[k].id);
    assert r.candidates[i].id == r.candidates[k].id;
  }

  lemma AdapterLevel(r: Request, a: RescueAction)
    requires a in PlannedActions(r) && |a.id| > 14 && a.id[7] == 'a' && a.id[14] == ':'
    ensures IsAdapterAction(r, a)
  {
    PlannedMembers(r, a);
    if IsAssetTransfer(r, a) {
      AssetShape(r, a);
    } else if IsOutputTransfer(r, a) {
      OutputShape(r, a);
    } else if IsPlannedRevocation(r, a) {
      RevocationShape(r, a);
    } else if a in NativeActions(r) {
      NativeShape(r, a);
    }
  }

  /** Every adapter output follows its adapter action. */
  lemma OutputsFollowAdapter(cmp: Comparison<RescueAction>, r: Request, order: seq<RescueAction>, i: nat, k: nat, j: nat)
    returns (parent: nat)
    requires PickOrder(cmp, Actions(ById(PlannedActions(r))), order) && UniqueEvidence(r)
    requires i < |r.candidates| && k < |r.candidates[i].outputs| && j < |order|
    requires order[j] == OutputTransfer(r.candidates[i], r.candidates[i].outputs[k], r.destinationAddress)
    ensures parent < j && order[parent] == AdapterAction(r.candidates[i])
  {
    PickOrderIsTopologicalFor(cmp, r, order);
    NothingLostIff(cmp, PlannedActions(r), order);
    var id := AdapterActionId(r.candidates[i].id);
    assert id in order[j].dependencies;
    assert id in IdSet(order[..j]);
    var a :| a in order[..j] && a.id == id;
    parent :| 0 <= parent < j && order[..j][parent] == a;
    assert a in ToSet(order);
    AdapterActionById(r, i, a);
  }

  /** The native transfer is last. */
  lemma {:induction false} NativeIsLast(cmp: Comparison<RescueAction>, r: Request, order: seq<RescueAction>, j: nat)
    requires PickOrder(cmp, Actions(ById(PlannedActions(r))), order)
    requires j < |order| && order[j].parameters.TransferNative?
    ensures j == |order| - 1
    ensures forall i :: 0 <= i < j ==> order[i].id in order[j].dependencies
  {
    PickOrderIsTopologicalFor(cmp, r, order);
    NothingLostIff(cmp, PlannedActions(r), order);
    var last := order[|order| - 1];
    forall i | 0 <= i < |order| && i != j ensures order[i].id in order[j].dependencies && i < j {
      assert order[i] in ToSet(order) && order[j] in ToSet(order);
      LevelShape(r, order[j]);
      LevelShape(r, order[i]);
      assert order[i] in Transfers(r) + Revocations(r);
      ActionIdMembers(Transfers(r) + Revocations(r), order[i].id);
      EarlierThan(order, i, j);
    }
  }

  lemma {:induction false} PrioritiesAreOwn(actions: seq<RescueAction>)
    ensures PrioritiesOf(actions).Keys == ById(actions).Keys
    ensures forall k :: k in ById(actions) ==> PrioritiesOf(actions)[k] == PriorityFor(ById(actions)[k])
  {
    if actions == [] {
    } else {
      PrioritiesAreOwn(actions[..|actions| - 1]);
    }
  }

  /** The recorded priorities are the actions' own, whatever their ids. */
  lemma {:induction false} ComparesOwnPriorities(collate: Comparison<string>, actions: seq<RescueAction>, a: RescueAction, b: RescueAction)
    requires a in Actions(ById(actions)) && b in Actions(ById(actions))
    ensures CompareActions(collate, PrioritiesOf(actions))(a, b) == CompareActions(collate, map[])(a, b)
  {
    PrioritiesAreOwn(actions);
    ByIdKeys(actions);
    ActionsOf(ById(actions));
  }

  // ----- every piece of evidence is accounted for

  ghost predicate Omits(r: Request, evidenceId: string) {
    exists o :: o in PlannedOmissions(r) && o.evidenceId == evidenceId
  }

  ghost predicate OmissionOf(r: Request, o: Omission) {
    || (!r.scan.complete && o == Omission(r.scan.id, UNKNOWN, IncompleteScan))
    || (exists i :: 0 <= i < |r.scan.assets| && o in AssetOmissions(r.scan.assets[i]))
    || (exists i :: 0 <= i < |r.scan.approvals| && o in ApprovalOmissions(r.scan.approvals[i]))
    || (exists i :: 1 <= i < |Natives(r)| && o in DuplicateNative(Natives(r)[i]))
  }

  lemma OmissionMembers(r: Request, o: Omission)
    ensures o in PlannedOmissions(r) <==> OmissionOf(r, o)
  {
    FlatMapMember(AssetOmissions, r.scan.assets);
    FlatMapMember(ApprovalOmissions, r.scan.approvals);
    if Natives(r) != [] {
      var rest := Natives(r)[1..];
      FlatMapMember(DuplicateNative, rest);
      assert forall i :: 0 <= i < |rest| ==> rest[i] == Natives(r)[i + 1];
      assert forall i :: 1 <= i < |Natives(r)| ==> Natives(r)[i] == rest[i - 1];
    }
  }

  function EvidenceIdOf(a: Asset): string { a.evidence.id }

  lemma NativesDistinct(r: Request)
    requires UniqueEvidence(r)
    ensures KeysDistinct(EvidenceIdOf, Natives(r))
  {
    FlatMapDistinct(NativeAssets, EvidenceIdOf, r.scan.assets);
    forall i, j | 0 <= i < j < |r.scan.assets|
      ensures Apart(EvidenceIdOf, NativeAssets(r.scan.assets[i]), NativeAssets(r.scan.assets[j]))
    {
      assert EvidenceIdOf(r.scan.assets[i]) != EvidenceIdOf(r.scan.assets[j]);
    }
  }

  /** With unique ids, an asset is found by its id. */
  lemma SameAsset(r: Request, i: nat, a: Asset)
    requires UniqueEvidence(r) && i < |r.scan.assets| && a in r.scan.assets
    requires a.evidence.id == r.scan.assets[i].evidence.id
    ensures a == r.scan.assets[i]
  {}

  predicate IsFirstNative(r: Request, a: Asset) {
    Natives(r) != [] && a == Natives(r)[0]
  }

  /** When a transfer is planned for an asset. */
  lemma AssetPlannedIff(r: Request, i: nat)
    requires UniqueEvidence(r) && i < |r.scan.assets|
    ensures var a := r.scan.assets[i];
            TransferId(a.evidence.id) in IdSet(PlannedActions(r)) <==>
            AssetActions(a, r.destinationAddress) != [] || IsFirstNative(r, a)
  {
    var a := r.scan.assets[i];
    if TransferId(a.evidence.id) in IdSet(PlannedActions(r)) {
      var x :| x in PlannedActions(r) && x.id == TransferId(a.evidence.id);
      TransferNamesAsset(r, i, x);
    }
    if AssetActions(a, r.destinationAddress) != [] {
      var x := AssetTransfer(a, r.destinationAddress, []);
      assert x in AssetActions(r.scan.assets[i], r.destinationAddress);
      PlannedMembers(r, x);
      assert x.id in IdSet(PlannedActions(r));
    } else if IsFirstNative(r, a) {
      assert NativeActions(r)[0].id == TransferId(a.evidence.id);
      assert NativeActions(r)[0] in PlannedActions(r);
    }
  }

  lemma TransferNamesAsset(r: Request, i: nat, x: RescueAction)
    requires UniqueEvidence(r) && i < |r.scan.assets|
    requires x in PlannedActions(r) && x.id == TransferId(r.scan.assets[i].evidence.id)
    ensures AssetActions(r.scan.assets[i], r.destinationAddress) != [] || IsFirstNative(r, r.scan.assets[i])
  {
    var a := r.scan.assets[i];
    IdShapes(a.evidence.id, "");
    LevelShape(r, x);
    if x in NativeActions(r) {
      NativesAreNative(r);
      assert Natives(r)[0] in Natives(r);
      IdShapes(a.evidence.id, Natives(r)[0].evidence.id);
      SameAsset(r, i, Natives(r)[0]);
    } else {
      var j :| 0 <= j < |r.scan.assets| && x in AssetActions(r.scan.assets[j], r.destinationAddress);
      IdShapes(a.evidence.id, r.scan.assets[j].evidence.id);
      SameAsset(r, i, r.scan.assets[j]);
    }
  }

  /** When an asset is omitted. */
  lemma AssetOmittedIff(r: Request, i: nat)
    requires UniqueEvidence(r) && i < |r.scan.assets|
    ensures var a := r.scan.assets[i];
            Omits(r, a.evidence.id) <==>
            !a.evidence.supportStatus.SUPPORTED? || (NativeAssets(a) == [a] && !IsFirstNative(r, a))
  {
    var a := r.scan.assets[i];
    if Omits(r, a.evidence.id) {
      var o :| o in PlannedOmissions(r) && o.evidenceId == a.evidence.id;
      OmissionNamesAsset(r, i, o);
    }
    if !a.evidence.supportStatus.SUPPORTED? {
      var o := AssetOmissions(a)[0];
      assert o in AssetOmissions(r.scan.assets[i]);
      OmissionMembers(r, o);
    } else if NativeAssets(a) == [a] && !IsFirstNative(r, a) {
      NativesAreNative(r);
      var j :| 0 <= j < |Natives(r)| && Natives(r)[j] == a;
      var o := DuplicateNative(a)[0];
      assert o in DuplicateNative(Natives(r)[j]);
      OmissionMembers(r, o);
    }
  }

  lemma LaterNativeIsNotFirst(r: Request, i: nat, j: nat)
    requires UniqueEvidence(r) && i < |r.scan.assets| && 1 <= j < |Natives(r)|
    requires Natives(r)[j].evidence.id == r.scan.assets[i].evidence.id
    ensures NativeAssets(r.scan.assets[i]) == [r.scan.assets[i]] && !IsFirstNative(r, r.scan.assets[i])
  {
    NativesAreNative(r);
    NativesDistinct(r);
    assert Natives(r)[j] in Natives(r);
    SameAsset(r, i, Natives(r)[j]);
    assert EvidenceIdOf(Natives(r)[0]) != EvidenceIdOf(Natives(r)[j]);
  }

  lemma OmissionNamesAsset(r: Request, i: nat, o: Omission)
    requires UniqueEvidence(r) && i < |r.scan.assets|
    requires o in PlannedOmissions(r) && o.evidenceId == r.scan.assets[i].evidence.id
    ensures var a := r.scan.assets[i];
            !a.evidence.supportStatus.SUPPORTED? || (NativeAssets(a) == [a] && !IsFirstNative(r, a))
  {
    OmissionMembers(r, o);
    if j :| 1 <= j < |Natives(r)| && o in DuplicateNative(Natives(r)[j]) {
      LaterNativeIsNotFirst(r, i, j);
    } else if j :| 0 <= j < |r.scan.assets| && o in AssetOmissions(r.scan.assets[j]) {
      SameAsset(r, i, r.scan.assets[j]);
    }
  }

  predicate ExactlyOne(p: bool, q: bool, s: bool) {
    (p || q || s) && !(p && q) && !(p && s) && !(q && s)
  }

  /** Every asset is moved by the plan, named as omitted, or supported but empty: exactly one of the three. */
  lemma AssetsAccounted(r: Request, i: nat)
    requires UniqueEvidence(r) && i < |r.scan.assets|
    ensures var a := r.scan.assets[i];
            ExactlyOne(TransferId(a.evidence.id) in IdSet(PlannedActions(r)),
                       Omits(r, a.evidence.id),
                       a.evidence.supportStatus.SUPPORTED? && IsEmpty(a))
  {
    AssetPlannedIff(r, i);
    AssetOmittedIff(r, i);
    NativesAreNative(r);
    assert IsFirstNative(r, r.scan.assets[i]) ==> Natives(r)[0] in Natives(r);
  }

  /** A supported approval that gives nobody anything. */
  predicate IsInactive(p: Approval) {
    (p.Erc20Allowance? && p.amount == 0) || (p.NftOperator? && !p.approved)
  }

  lemma SameApproval(r: Request, i: nat, j: nat)
    requires UniqueEvidence(r) && i < |r.scan.approvals| && j < |r.scan.approvals|
    requires r.scan.approvals[i].evidence.id == r.scan.approvals[j].evidence.id
    ensures i == j
  {}

  lemma ApprovalPlannedIff(r: Request, i: nat)
    requires UniqueEvidence(r) && i < |r.scan.approvals|
    ensures var p := r.scan.approvals[i];
            RevokeId(p.evidence.id) in IdSet(PlannedActions(r)) <==> ApprovalActions(p, Transfers(r)) != []
  {
    var p := r.scan.approvals[i];
    var id := RevokeId(p.evidence.id);
    IdShapes(p.evidence.id, "");
    if id in IdSet(PlannedActions(r)) {
      var x :| x in PlannedActions(r) && x.id == id;
      LevelShape(r, x);
      PlannedMembers(r, x);
      PlannedRevocation(r, x);
      var j :| 0 <= j < |r.scan.approvals| && x in ApprovalActions(r.scan.approvals[j], Transfers(r));
      IdShapes(p.evidence.id, r.scan.approvals[j].evidence.id);
      SameApproval(r, i, j);
    }
    if ApprovalActions(p, Transfers(r)) != [] {
      var x := ApprovalActions(p, Transfers(r))[0];
      assert x in ApprovalActions(r.scan.approvals[i], Transfers(r));
      PlannedMembers(r, x);
    }
  }

  lemma PlannedRevocation(r: Request, x: RescueAction)
    requires x in PlannedActions(r) && Level(x) == 2
    ensures IsPlannedRevocation(r, x)
  {
    PlannedMembers(r, x);
    LevelShape(r, x);
    if x in Transfers(r) {
      NotRevoking(r, x);
    } else {
      RevocationMembers(Transfers(r), r.scan.approvals, x);
    }
  }

  lemma ApprovalOmittedIff(r: Request, i: nat)
    requires UniqueEvidence(r) && i < |r.scan.approvals|
    ensures Omits(r, r.scan.approvals[i].evidence.id) <==> ApprovalOmissions(r.scan.approvals[i]) != []
  {
    var p := r.scan.approvals[i];
    if Omits(r, p.evidence.id) {
      var o :| o in PlannedOmissions(r) && o.evidenceId == p.evidence.id;
      OmissionNamesApproval(r, i, o);
    }
    if ApprovalOmissions(p) != [] {
      var o := ApprovalOmissions(p)[0];
      assert o in ApprovalOmissions(r.scan.approvals[i]);
      OmissionMembers(r, o);
    }
  }

  lemma OmissionNamesApproval(r: Request, i: nat, o: Omission)
    requires UniqueEvidence(r) && i < |r.scan.approvals|
    requires o in PlannedOmissions(r) && o.evidenceId == r.scan.approvals[i].evidence.id
    ensures ApprovalOmissions(r.scan.approvals[i]) != []
  {
    NativesAreNative(r);
    OmissionMembers(r, o);
    forall j | 1 <= j < |Natives(r)| ensures o !in DuplicateNative(Natives(r)[j]) {
      assert Natives(r)[j] in Natives(r);
    }
    var j :| 0 <= j < |r.scan.approvals| && o in ApprovalOmissions(r.scan.approvals[j]);
    SameApproval(r, i, j);
  }

  /** Every approval is revoked by the plan, named as omitted, or supported but inactive: exactly one of the three. */
  lemma ApprovalsAccounted(r: Request, i: nat)
    requires UniqueEvidence(r) && i < |r.scan.approvals|
    ensures var p := r.scan.approvals[i];
            ExactlyOne(RevokeId(p.evidence.id) in IdSet(PlannedActions(r)),
                       Omits(r, p.evidence.id),
                       p.evidence.supportStatus.SUPPORTED? && IsInactive(p))
  {
    ApprovalPlannedIff(r, i);
    ApprovalOmittedIff(r, i);
  }

  function OmittedId(o: Omission): string { o.evidenceId }

  function LaterNatives(r: Request): seq<Asset> {
    if Natives(r) == [] then [] else Natives(r)[1..]
  }

  lemma LaterNativesDistinct(r: Request)
    requires UniqueEvidence(r)
    ensures KeysDistinct(OmittedId, FlatMap(DuplicateNative, LaterNatives(r)))
  {
    var rest := LaterNatives(r);
    NativesDistinct(r);
    FlatMapDistinct(DuplicateNative, OmittedId, rest);
    forall i, j | 0 <= i < j < |rest| ensures Apart(OmittedId, DuplicateNative(rest[i]), DuplicateNative(rest[j])) {
      assert EvidenceIdOf(Natives(r)[i + 1]) != EvidenceIdOf(Natives(r)[j + 1]);
    }
  }

  ghost predicate NamesAsset(r: Request, id: string, supported: bool) {
    exists i :: 0 <= i < |r.scan.assets| && r.scan.assets[i].evidence.id == id
                && r.scan.assets[i].evidence.supportStatus.SUPPORTED? == supported
  }

  ghost predicate NamesApproval(r: Request, id: string) {
    exists i :: 0 <= i < |r.scan.approvals| && r.scan.approvals[i].evidence.id == id
  }

  lemma NamesApart(r: Request, id: string)
    requires UniqueEvidence(r)
    ensures !(NamesAsset(r, id, true) && NamesAsset(r, id, false))
    ensures !(NamesAsset(r, id, true) && NamesApproval(r, id))
    ensures !(NamesAsset(r, id, false) && NamesApproval(r, id))
    ensures id == r.scan.id ==> !NamesAsset(r, id, true) && !NamesAsset(r, id, false) && !NamesApproval(r, id)
  {}

  lemma WhatOmissionsName(r: Request, o: Omission)
    ensures o in FlatMap(AssetOmissions, r.scan.assets) ==> NamesAsset(r, o.evidenceId, false)
    ensures o in FlatMap(ApprovalOmissions, r.scan.approvals) ==> NamesApproval(r, o.evidenceId)
    ensures o in FlatMap(DuplicateNative, LaterNatives(r)) ==> NamesAsset(r, o.evidenceId, true)
  {
    FlatMapMember(AssetOmissions, r.scan.assets);
    FlatMapMember(ApprovalOmissions, r.scan.approvals);
    FlatMapMember(DuplicateNative, LaterNatives(r));
    NativesAreNative(r);
    if o in FlatMap(DuplicateNative, LaterNatives(r)) {
      var i :| 0 <= i < |LaterNatives(r)| && o in DuplicateNative(LaterNatives(r)[i]);
      assert Natives(r)[i + 1] in Natives(r);
    }
  }

  lemma AssetOmissionsDistinct(r: Request)
    requires UniqueEvidence(r)
    ensures KeysDistinct(OmittedId, FlatMap(AssetOmissions, r.scan.assets))
  {
    FlatMapDistinct(AssetOmissions, OmittedId, r.scan.assets);
  }

  lemma ApprovalOmissionsDistinct(r: Request)
    requires UniqueEvidence(r)
    ensures KeysDistinct(OmittedId, FlatMap(ApprovalOmissions, r.scan.approvals))
  {
    FlatMapDistinct(ApprovalOmissions, OmittedId, r.scan.approvals);
  }

  /** Nothing is omitted twice. */
  lemma OmissionsDistinct(r: Request)
    requires UniqueEvidence(r)
    ensures KeysDistinct(OmittedId, PlannedOmissions(r))
  {
    var scan := if r.scan.complete then [] else [Omission(r.scan.id, UNKNOWN, IncompleteScan)];
    var assets, approvals := FlatMap(AssetOmissions, r.scan.assets), FlatMap(ApprovalOmissions, r.scan.approvals);
    var natives := FlatMap(DuplicateNative, LaterNatives(r));
    AssetOmissionsDistinct(r);
    ApprovalOmissionsDistinct(r);
    forall o
      ensures o in assets ==> NamesAsset(r, o.evidenceId, false)
      ensures o in approvals ==> NamesApproval(r, o.evidenceId)
      ensures o in natives ==> NamesAsset(r, o.evidenceId, true)
      ensures o in assets + approvals + natives ==> o.evidenceId != r.scan.id
    {
      WhatOmissionsName(r, o);
      NamesApart(r, o.evidenceId);
    }
    forall id { NamesApart(r, id); }
    LaterNativesDistinct(r);
    AppendDistinct(OmittedId, scan, assets);
    AppendDistinct(OmittedId, scan + assets, approvals);
    AppendDistinct(OmittedId, scan + assets + approvals, natives);
  }

  /** The plan is ready exactly when the scan is complete, everything in it is supported and
      revocable, and at most one native balance is to be moved. */
  lemma ReadyIff(r: Request)
    ensures PlannedOmissions(r) == [] <==>
            && r.scan.complete
            && (forall i :: 0 <= i < |r.scan.assets| ==> r.scan.assets[i].evidence.supportStatus.SUPPORTED?)
            && (forall i :: 0 <= i < |r.scan.approvals| ==>
                  r.scan.approvals[i].evidence.supportStatus.SUPPORTED? && !r.scan.approvals[i].Erc721Token?)
            && |Natives(r)| <= 1
  {
    FlatMapEmpty(AssetOmissions, r.scan.assets);
    FlatMapEmpty(ApprovalOmissions, r.scan.approvals);
    if |Natives(r)| > 1 {
      FlatMapEmpty(DuplicateNative, Natives(r)[1..]);
      assert DuplicateNative(Natives(r)[1..][0]) != [];
    }
  }

  lemma {:induction false} FlatMapEmpty<A, B>(f: A -> seq<B>, s: seq<A>)
    ensures FlatMap(f, s) == [] <==> forall i :: 0 <= i < |s| ==> f(s[i]) == []
  {
    if s == [] {
    } else {
      var init, last := s[..|s| - 1], s[|s| - 1];
      FlatMapEmpty(f, init);
      assert s == init + [last];
      assert forall i :: 0 <= i < |init| ==> s[i] == init[i];
    }
  }
}
