/** The priority order of rescue actions and the topological sort that follows it
    (packages/planner/src/planner.ts:23-184). */
module Ordering {
  import opened Basics
  import opened Sorting
  import opened RescueActions

  datatype Priority = Priority(risk: int, value: real, kind: int)

  type Priorities = map<string, Priority>

  function RiskRank(r: RiskLevel): int {
    match r
    case LOW => 1
    case MEDIUM => 2
    case HIGH => 3
    case CRITICAL => 4
  }

  function ActionTypeRank(p: Parameters): int {
    match p
    case ClaimSupportedAirdrop(_, _, _) => 90
    case WithdrawSupportedPosition(_, _, _) => 85
    case CustomSupportedAdapter(_, _, _) => 80
    case TransferErc20(_, _, _) => 70
    case TransferErc721(_, _, _) => 70
    case TransferErc1155(_, _, _, _) => 70
    case RevokeErc20Approval(_, _) => 30
    case RevokeNftOperator(_, _, _) => 30
    case TransferNative(_, _) => 0
  }

  function PriorityFor(a: RescueAction): Priority {
    Priority(RiskRank(a.riskLevel),
             match a.estimatedValueUsd case None => 0.0 case Some(v) => v,
             ActionTypeRank(a.parameters))
  }

  function Decimal(n: nat): string {
    if n < 10 then [('0' as int + n) as char] else Decimal(n / 10) + [('0' as int + n % 10) as char]
  }

  function StableActionKey(a: RescueAction): string {
    match a.parameters
    case TransferNative(recipient, maximum) =>
      "TRANSFER_NATIVE:" + Lower(recipient) + ":" + Decimal(maximum) + ":MAX_MINUS_GAS_RESERVE"
    case TransferErc20(token, recipient, amount) =>
      "TRANSFER_ERC20:" + Lower(token) + ":" + Lower(recipient) + ":" + Decimal(amount)
    case TransferErc721(collection, recipient, tokenId) =>
      "TRANSFER_ERC721:" + Lower(collection) + ":" + Lower(recipient) + ":" + Decimal(tokenId)
    case TransferErc1155(collection, recipient, tokenId, amount) =>
      "TRANSFER_ERC1155:" + Lower(collection) + ":" + Lower(recipient) + ":" + Decimal(tokenId) + ":" + Decimal(amount)
    case RevokeErc20Approval(token, spender) =>
      "REVOKE_ERC20_APPROVAL:" + Lower(token) + ":" + Lower(spender)
    case RevokeNftOperator(standard, collection, operator) =>
      "REVOKE_NFT_OPERATOR:" + standard + ":" + Lower(collection) + ":" + Lower(operator)
    case ClaimSupportedAirdrop(adapterId, contract, reference) =>
      "CLAIM_SUPPORTED_AIRDROP:" + adapterId + ":" + Lower(contract) + ":" + reference
    case WithdrawSupportedPosition(adapterId, contract, positionId) =>
      "WITHDRAW_SUPPORTED_POSITION:" + adapterId + ":" + Lower(contract) + ":" + positionId
    case CustomSupportedAdapter(adapterId, contract, operationId) =>
      "CUSTOM_SUPPORTED_ADAPTER:" + adapterId + ":" + Lower(contract) + ":" + operationId
  }

  function Sign(x: real): int {
    if x < 0.0 then -1 else if x > 0.0 then 1 else 0
  }

  /** Everything the comparison looks at. */
  datatype SortKey = SortKey(priority: Priority, stable: string, id: string)

  function KeyOf(a: RescueAction, priorities: Priorities): SortKey {
    SortKey(if a.id in priorities then priorities[a.id] else PriorityFor(a), StableActionKey(a), a.id)
  }

  function CompareKeys(collate: Comparison<string>, left: SortKey, right: SortKey): int {
    if right.priority.risk != left.priority.risk then right.priority.risk - left.priority.risk
    else if right.priority.value != left.priority.value then Sign(right.priority.value - left.priority.value)
    else if right.priority.kind != left.priority.kind then right.priority.kind - left.priority.kind
    else if collate(left.stable, right.stable) != 0 then collate(left.stable, right.stable)
    else collate(left.id, right.id)
  }

  /** Higher risk first, then higher value, then the type, then two texts. */
  function CompareActions(collate: Comparison<string>, priorities: Priorities): Comparison<RescueAction> {
    (left: RescueAction, right: RescueAction) =>
      CompareKeys(collate, KeyOf(left, priorities), KeyOf(right, priorities))
  }

  lemma CompareKeysIsOrder(collate: Comparison<string>, a: SortKey, b: SortKey, c: SortKey)
    requires IsCollation(collate)
    ensures CompareKeys(collate, a, b) == 0 ==> a.id == b.id
    ensures CompareKeys(collate, a, b) < 0 <==> CompareKeys(collate, b, a) > 0
    ensures CompareKeys(collate, a, b) <= 0 && CompareKeys(collate, b, c) <= 0 ==> CompareKeys(collate, a, c) <= 0
    ensures CompareKeys(collate, a, b) < 0 && CompareKeys(collate, b, c) < 0 ==> CompareKeys(collate, a, c) < 0
  {}

  /** On actions with different ids the comparison is a strict total order. */
  lemma CompareActionsIsStrictTotalOrder(collate: Comparison<string>, priorities: Priorities, a: RescueAction, b: RescueAction, c: RescueAction)
    requires IsCollation(collate)
    ensures var cmp := CompareActions(collate, priorities);
            && (a.id != b.id ==> (cmp(a, b) < 0) != (cmp(b, a) < 0))
            && (cmp(a, b) < 0 && cmp(b, c) < 0 ==> cmp(a, c) < 0)
            && !(cmp(a, a) < 0)
  {
    var ka, kb, kc := KeyOf(a, priorities), KeyOf(b, priorities), KeyOf(c, priorities);
    CompareKeysIsOrder(collate, ka, kb, kc);
    CompareKeysIsOrder(collate, kb, ka, kc);
    CompareKeysIsOrder(collate, ka, ka, ka);
  }

  // ----- what the sort promises

  predicate IsReady(a: RescueAction, completed: set<string>) {
    forall i :: 0 <= i < |a.dependencies| ==> a.dependencies[i] in completed
  }

  /** `a` is ready and comes before every other ready action of `rest`. */
  ghost predicate BestReady(cmp: Comparison<RescueAction>, a: RescueAction, rest: set<RescueAction>, completed: set<string>) {
    a in rest && IsReady(a, completed)
    && forall b :: b in rest && IsReady(b, completed) && b != a ==> cmp(a, b) < 0
  }

  /** Each pick is the best among the actions whose dependencies were picked before. */
  ghost predicate Picks(cmp: Comparison<RescueAction>, all: set<RescueAction>, order: seq<RescueAction>) {
    forall k :: 0 <= k < |order| ==> BestReady(cmp, order[k], all - ToSet(order[..k]), IdSet(order[..k]))
  }

  ghost predicate PickOrder(cmp: Comparison<RescueAction>, all: set<RescueAction>, order: seq<RescueAction>) {
    Picks(cmp, all, order) && ToSet(order) == all
  }

  lemma {:induction false} SamePicks(collate: Comparison<string>, priorities: Priorities, all: set<RescueAction>,
                                     a: seq<RescueAction>, b: seq<RescueAction>, k: nat)
    requires IsCollation(collate)
    requires Picks(CompareActions(collate, priorities), all, a) && Picks(CompareActions(collate, priorities), all, b)
    requires k <= |a| && k <= |b|
    ensures a[..k] == b[..k]
  {
    if k > 0 {
      SamePicks(collate, priorities, all, a, b, k - 1);
      CompareActionsIsStrictTotalOrder(collate, priorities, a[k - 1], b[k - 1], a[k - 1]);
      assert a[k - 1] == b[k - 1];
      assert a[..k] == a[..k - 1] + [a[k - 1]] && b[..k] == b[..k - 1] + [b[k - 1]];
    }
  }

  lemma NotLonger(cmp: Comparison<RescueAction>, all: set<RescueAction>, a: seq<RescueAction>, b: seq<RescueAction>)
    requires PickOrder(cmp, all, a) && Picks(cmp, all, b)
    requires |a| < |b| ==> b[..|a|] == a
    ensures |b| <= |a|
  {}

  /** There is only one such order. */
  lemma PickOrderUnique(collate: Comparison<string>, priorities: Priorities, all: set<RescueAction>,
                        a: seq<RescueAction>, b: seq<RescueAction>)
    requires IsCollation(collate)
    requires PickOrder(CompareActions(collate, priorities), all, a)
    requires PickOrder(CompareActions(collate, priorities), all, b)
    ensures a == b
  {
    var k := if |a| <= |b| then |a| else |b|;
    SamePicks(collate, priorities, all, a, b, k);
    assert a == a[..|a|] && b == b[..|b|];
    NotLonger(CompareActions(collate, priorities), all, a, b);
    NotLonger(CompareActions(collate, priorities), all, b, a);
  }

  /** So the sort depends only on the set of actions, not on how its input lists them. */
  lemma OrderIgnoresInputOrder(collate: Comparison<string>, priorities: Priorities, input: seq<RescueAction>, shuffled: seq<RescueAction>,
                               a: seq<RescueAction>, b: seq<RescueAction>)
    requires IsCollation(collate)
    requires multiset(input) == multiset(shuffled)
    requires PickOrder(CompareActions(collate, priorities), ToSet(input), a)
    requires PickOrder(CompareActions(collate, priorities), ToSet(shuffled), b)
    ensures a == b
  {
    SameElements(input, shuffled);
    assert ToSet(input) == ToSet(shuffled);
    PickOrderUnique(collate, priorities, ToSet(input), a, b);
  }

  ghost predicate UniqueIds(s: set<RescueAction>) {
    forall a, b :: a in s && b in s && a.id == b.id ==> a == b
  }

  /** The order respects dependencies and repeats nothing. */
  lemma PickOrderIsTopological(cmp: Comparison<RescueAction>, all: set<RescueAction>, order: seq<RescueAction>)
    requires PickOrder(cmp, all, order) && UniqueIds(all)
    ensures DistinctIds(order) && DependenciesEarlier(order)
  {}

  /** The dependencies are closed and acyclic: some ranking puts every dependency below
      what depends on it. */
  ghost predicate Ranked(rank: RescueAction -> nat, actions: set<RescueAction>) {
    forall a, d :: a in actions && d in a.dependencies ==> DependencyBelow(rank, actions, a, d)
  }

  ghost predicate DependencyBelow(rank: RescueAction -> nat, actions: set<RescueAction>, a: RescueAction, d: string) {
    && (exists b :: b in actions && b.id == d)
    && (forall b :: b in actions && b.id == d ==> rank(b) < rank(a))
  }

  function PositionOf(order: seq<RescueAction>, a: RescueAction): nat {
    if order == [] || order[0] == a then 0 else 1 + PositionOf(order[1..], a)
  }

  lemma {:induction false} PositionFound(order: seq<RescueAction>, i: nat)
    requires i < |order| && DistinctIds(order)
    ensures PositionOf(order, order[i]) == i
  {
    if i > 0 {
      assert order[0].id != order[i].id;
      PositionFound(order[1..], i - 1);
    }
  }

  lemma TopologicalOrderRanks(actions: set<RescueAction>, order: seq<RescueAction>)
    requires ToSet(order) == actions && DistinctIds(order) && DependenciesEarlier(order)
    ensures Ranked(a => PositionOf(order, a), actions)
  {
    var rank := (a: RescueAction) => PositionOf(order, a);
    forall a, d | a in actions && d in a.dependencies ensures DependencyBelow(rank, actions, a, d) {
      assert a in order;
      var i :| 0 <= i < |order| && order[i] == a;
      assert d in IdSet(order[..i]);
      var b :| b in order[..i] && b.id == d;
      var k :| 0 <= k < i && order[..i][k] == b;
      assert b in ToSet(order);
      PositionFound(order, i);
      PositionFound(order, k);
      forall c | c in actions && c.id == d ensures rank(c) < rank(a) {
        assert c in order;
        var m :| 0 <= m < |order| && order[m] == c;
        assert order[k].id == order[m].id;
        assert m == k;
      }
    }
  }

  lemma {:induction false} LowestRank(rank: RescueAction -> nat, rest: set<RescueAction>) returns (a: RescueAction)
    requires rest != {}
    ensures a in rest && forall b :: b in rest ==> rank(a) <= rank(b)
    decreases rest
  {
    a :| a in rest;
    if rest != {a} {
      assert rest - {a} != {};
      var other := LowestRank(rank, rest - {a});
      if rank(other) < rank(a) {
        a := other;
      }
    }
  }

  /** With a ranking, whatever is left always contains a ready action. */
  lemma RankedNeverStuck(rank: RescueAction -> nat, all: set<RescueAction>, ordered: seq<RescueAction>) returns (a: RescueAction)
    requires Ranked(rank, all) && all - ToSet(ordered) != {}
    ensures a in all - ToSet(ordered) && IsReady(a, IdSet(ordered))
  {
    a := LowestRank(rank, all - ToSet(ordered));
    forall i | 0 <= i < |a.dependencies| ensures a.dependencies[i] in IdSet(ordered) {
      var d := a.dependencies[i];
      assert DependencyBelow(rank, all, a, d);
      var b :| b in all && b.id == d;
      assert b in ordered;
    }
  }

  // ----- the sort

  /** `new Map(actions.map((action) => [action.id, action]))`: a repeated id takes the last value. */
  function ById(actions: seq<RescueAction>): map<string, RescueAction> {
    if actions == [] then map[]
    else ById(actions[..|actions| - 1])[actions[|actions| - 1].id := actions[|actions| - 1]]
  }

  ghost predicate KeyedById(m: map<string, RescueAction>) {
    forall k :: k in m ==> m[k].id == k
  }

  ghost function Actions(m: map<string, RescueAction>): set<RescueAction> {
    set k | k in m :: m[k]
  }

  lemma ActionsOf(m: map<string, RescueAction>)
    requires KeyedById(m)
    ensures forall a :: a in Actions(m) <==> a.id in m && m[a.id] == a
    ensures UniqueIds(Actions(m))
  {}

  lemma {:induction false} ByIdKeys(actions: seq<RescueAction>)
    ensures KeyedById(ById(actions)) && ById(actions).Keys == IdSet(actions)
    ensures actions != [] ==> ById(actions)[actions[|actions| - 1].id] == actions[|actions| - 1]
  {
    if actions == [] {
    } else {
      var init, last := actions[..|actions| - 1], actions[|actions| - 1];
      ByIdKeys(init);
      assert actions == init + [last];
      assert IdSet(actions) == IdSet(init) + {last.id};
    }
  }

  /** Every entry is one of the actions; when ids are distinct every action has its entry. */
  lemma {:induction false} ByIdValues(actions: seq<RescueAction>, k: string)
    requires k in ById(actions)
    ensures ById(actions)[k] in actions
    ensures DistinctIds(actions) ==> forall a :: a in actions && a.id == k ==> a == ById(actions)[k]
  {
    var init, last := actions[..|actions| - 1], actions[|actions| - 1];
    assert actions == init + [last];
    if k != last.id {
      ByIdValues(init, k);
      assert forall a :: a in actions && a.id == k ==> a in init;
      assert DistinctIds(actions) ==> DistinctIds(init);
    } else if DistinctIds(actions) {
      forall a | a in actions && a.id == k ensures a == last {
        var i :| 0 <= i < |actions| && actions[i] == a;
        assert actions[|actions| - 1] == last;
      }
    }
  }

  lemma ByIdElements(actions: seq<RescueAction>)
    ensures KeyedById(ById(actions)) && ById(actions).Keys == IdSet(actions)
    ensures UniqueIds(Actions(ById(actions)))
    ensures Actions(ById(actions)) <= ToSet(actions)
    ensures DistinctIds(actions) ==> Actions(ById(actions)) == ToSet(actions)
  {
    ByIdKeys(actions);
    var m := ById(actions);
    ActionsOf(m);
    forall k | k in m
      ensures m[k] in actions
      ensures DistinctIds(actions) ==> forall a :: a in actions && a.id == k ==> a == m[k]
    {
      ByIdValues(actions, k);
    }
    if DistinctIds(actions) {
      forall a | a in ToSet(actions) ensures a in Actions(m) {
        assert a.id in IdSet(actions);
      }
    }
  }

  /** `[...remaining.values()].filter(ready)`, in whatever order the map lists its values. */
  method ReadyActions(remaining: map<string, RescueAction>, completed: set<string>) returns (ready: seq<RescueAction>)
    ensures forall a :: a in ready <==> a in Actions(remaining) && IsReady(a, completed)
  {
    ready := [];
    var keys := remaining.Keys;
    while keys != {}
      invariant keys <= remaining.Keys
      invariant forall a :: a in ready <==> IsReady(a, completed) && exists k :: k in remaining && k !in keys && remaining[k] == a
      decreases keys
    {
      var key :| key in keys;
      if IsReady(remaining[key], completed) {
        ready := ready + [remaining[key]];
      }
      keys := keys - {key};
    }
  }

  /** The first of the sorted ready actions is the best one. */
  lemma FirstIsBest(collate: Comparison<string>, priorities: Priorities, rest: set<RescueAction>, completed: set<string>, ready: seq<RescueAction>)
    requires IsCollation(collate) && UniqueIds(rest) && ready != []
    requires forall a :: a in ready <==> a in rest && IsReady(a, completed)
    ensures BestReady(CompareActions(collate, priorities), SortBy(CompareActions(collate, priorities), ready)[0], rest, completed)
  {
    var cmp := CompareActions(collate, priorities);
    var sorted := SortBy(cmp, ready);
    SameElements(sorted, ready);
    forall x, y, z | x in ready && y in ready && z in ready
      ensures (cmp(x, y) <= 0 || cmp(y, x) <= 0) && (cmp(x, y) <= 0 && cmp(y, z) <= 0 ==> cmp(x, z) <= 0)
    {
      CompareKeysIsOrder(collate, KeyOf(x, priorities), KeyOf(y, priorities), KeyOf(z, priorities));
    }
    SortBySorts(cmp, ready);
    assert sorted[0] in sorted;
    forall b | b in rest && IsReady(b, completed) && b != sorted[0] ensures cmp(sorted[0], b) < 0 {
      assert b in sorted && b in sorted[1..];
      CompareKeysIsOrder(collate, KeyOf(sorted[0], priorities), KeyOf(b, priorities), KeyOf(b, priorities));
    }
  }

  lemma PickOneMore(cmp: Comparison<RescueAction>, all: set<RescueAction>, order: seq<RescueAction>, a: RescueAction)
    requires Picks(cmp, all, order) && BestReady(cmp, a, all - ToSet(order), IdSet(order))
    ensures Picks(cmp, all, order + [a])
  {
    var longer := order + [a];
    forall k | 0 <= k < |longer| ensures BestReady(cmp, longer[k], all - ToSet(longer[..k]), IdSet(longer[..k])) {
      assert longer[..k] == order[..k];
      assert order[..|order|] == order;
    }
  }

  datatype SortError = DependencyCycle

  /** The loop's state: what remains is what was not picked. */
  ghost predicate SortState(cmp: Comparison<RescueAction>, all: set<RescueAction>, remaining: map<string, RescueAction>,
                            completed: set<string>, ordered: seq<RescueAction>) {
    && KeyedById(remaining) && Actions(remaining) == all - ToSet(ordered)
    && completed == IdSet(ordered)
    && Picks(cmp, all, ordered)
    && ToSet(ordered) <= all && UniqueIds(all)
  }

  lemma PickStep(cmp: Comparison<RescueAction>, all: set<RescueAction>, remaining: map<string, RescueAction>,
                 completed: set<string>, ordered: seq<RescueAction>, next: RescueAction)
    requires SortState(cmp, all, remaining, completed, ordered)
    requires BestReady(cmp, next, Actions(remaining), completed)
    ensures next.id in remaining
    ensures SortState(cmp, all, remaining - {next.id}, completed + {next.id}, ordered + [next])
  {
    ActionsOf(remaining);
    ActionsOf(remaining - {next.id});
    assert Actions(remaining - {next.id}) == Actions(remaining) - {next};
    assert ToSet(ordered + [next]) == ToSet(ordered) + {next};
    assert IdSet(ordered + [next]) == IdSet(ordered) + {next.id};
    PickOneMore(cmp, all, ordered, next);
  }

  lemma AllPicked(cmp: Comparison<RescueAction>, all: set<RescueAction>, completed: set<string>, ordered: seq<RescueAction>)
    requires SortState(cmp, all, map[], completed, ordered)
    ensures PickOrder(cmp, all, ordered)
    ensures Ranked(a => PositionOf(ordered, a), all)
  {
    assert Actions(map[]) == {};
    assert all == ToSet(ordered) by {
      assert forall a :: a in all && a !in ToSet(ordered) ==> a in all - ToSet(ordered);
    }
    PickOrderIsTopological(cmp, all, ordered);
    TopologicalOrderRanks(all, ordered);
  }

  lemma StuckMeansUnranked(cmp: Comparison<RescueAction>, all: set<RescueAction>, remaining: map<string, RescueAction>,
                           completed: set<string>, ordered: seq<RescueAction>)
    requires SortState(cmp, all, remaining, completed, ordered) && remaining != map[]
    requires forall a :: a in Actions(remaining) ==> !IsReady(a, completed)
    ensures !exists rank: RescueAction -> nat :: Ranked(rank, all)
  {
    var k :| k in remaining;
    assert remaining[k] in Actions(remaining);
    forall rank: RescueAction -> nat ensures !Ranked(rank, all) {
      if Ranked(rank, all) {
        var a := RankedNeverStuck(rank, all, ordered);
      }
    }
  }

  /** Sorts, or reports a cycle exactly when the dependencies cannot be ranked. */
  method TopologicalPrioritySort(collate: Comparison<string>, actions: seq<RescueAction>, priorities: Priorities)
    returns (r: Result<seq<RescueAction>, SortError>)
    requires IsCollation(collate)
    ensures r.Ok? ==> PickOrder(CompareActions(collate, priorities), Actions(ById(actions)), r.value)
    ensures r.Ok? <==> exists rank: RescueAction -> nat :: Ranked(rank, Actions(ById(actions)))
  {
    var cmp := CompareActions(collate, priorities);
    var remaining := ById(actions);
    var completed: set<string> := {};
    var ordered: seq<RescueAction> := [];
    ghost var all := Actions(remaining);
    ByIdElements(actions);
    while remaining != map[]
      invariant SortState(cmp, all, remaining, completed, ordered)
      decreases remaining.Keys
    {
      var ready := ReadyActions(remaining, completed);
      if ready == [] {
        StuckMeansUnranked(cmp, all, remaining, completed, ordered);
        return Err(DependencyCycle);
      }
      ActionsOf(remaining);
      FirstIsBest(collate, priorities, Actions(remaining), completed, ready);
      var next := SortBy(cmp, ready)[0];
      PickStep(cmp, all, remaining, completed, ordered, next);
      ordered := ordered + [next];
      completed := completed + {next.id};
      remaining := remaining - {next.id};
    }
    AllPicked(cmp, all, completed, ordered);
    return Ok(ordered);
  }
}
