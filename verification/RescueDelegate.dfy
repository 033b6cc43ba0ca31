/** The delegate a source runs while it is delegated (contracts/src/SafeExit7702RescueDelegate.sol):
    a committed plan, of which each action can be run once. */
module RescueDelegate {
  import opened Basics

  const MAX_ACTIONS: nat := 256

  predicate Increasing(indexes: seq<nat>) {
    forall j, k :: 0 <= j < k < |indexes| ==> indexes[j] < indexes[k]
  }

  lemma IncreasingAppend(indexes: seq<nat>, index: nat)
    requires Increasing(indexes) && forall i :: i in indexes ==> i < index
    ensures Increasing(indexes + [index])
  {
    assert forall k :: 0 <= k < |indexes| ==> indexes[k] in indexes;
  }

  /** A selection that can be run: some actions of the plan, in order, none of which has been run. */
  predicate Selectable(n: nat, indexes: seq<nat>, executed: set<nat>) {
    && 0 < n <= MAX_ACTIONS && indexes != [] && Increasing(indexes)
    && forall k :: 0 <= k < |indexes| ==> indexes[k] < n && indexes[k] !in executed
  }

  /** The actions at these indexes. */
  function Selected<A>(plan: seq<A>, indexes: seq<nat>): seq<A>
    requires forall k :: 0 <= k < |indexes| ==> indexes[k] < |plan|
  {
    seq(|indexes|, k requires 0 <= k < |indexes| => plan[indexes[k]])
  }

  /** The first n indexes can be run, in this order. */
  ghost predicate Passed<A>(plan: seq<A>, indexes: seq<nat>, n: nat, executed: set<nat>, reverts: (nat, A) -> bool)
    requires n <= |indexes|
  {
    && (forall j, k :: 0 <= j < k < n ==> indexes[j] < indexes[k])
    && forall k :: 0 <= k < n ==> indexes[k] < |plan| && indexes[k] !in executed && !reverts(indexes[k], plan[indexes[k]])
  }

  lemma {:induction false} PassedStep<A>(plan: seq<A>, indexes: seq<nat>, n: nat, executed: set<nat>, reverts: (nat, A) -> bool)
    requires n < |indexes| && Passed(plan, indexes, n, executed, reverts)
    ensures ToSet(indexes[..n + 1]) == ToSet(indexes[..n]) + {indexes[n]}
    ensures Passed(plan, indexes, n + 1, executed, reverts) <==>
            && indexes[n] < |plan| && (n == 0 || indexes[n] > indexes[n - 1])
            && indexes[n] !in executed + ToSet(indexes[..n]) && !reverts(indexes[n], plan[indexes[n]])
    ensures Passed(plan, indexes, |indexes|, executed, reverts) ==> Passed(plan, indexes, n + 1, executed, reverts)
  {
    assert indexes[..n + 1] == indexes[..n] + [indexes[n]];
    assert forall k :: 0 <= k < n ==> indexes[..n][k] == indexes[k];
  }

  class Delegate<A(!new)> {
    /** The hash of the plan, and whether running an action reverts now. */
    const commits: seq<A> -> bool
    const reverts: (nat, A) -> bool
    var executed: set<nat>
    ghost var ran: seq<A>

    constructor (commits: seq<A> -> bool, reverts: (nat, A) -> bool)
      ensures this.commits == commits && this.reverts == reverts && executed == {} && ran == []
    {
      this.commits, this.reverts, executed, ran := commits, reverts, {}, [];
    }

    /** The loop over the selection: marks each index, or reverts. */
    method RunSelection(plan: seq<A>, indexes: seq<nat>) returns (ok: bool, marked: set<nat>)
      ensures ok <==> Passed(plan, indexes, |indexes|, executed, reverts)
      ensures ok ==> marked == executed + ToSet(indexes)
    {
      var previous := 0;
      marked := executed;
      for position := 0 to |indexes|
        invariant position > 0 ==> previous == indexes[position - 1]
        invariant Passed(plan, indexes, position, executed, reverts) && marked == executed + ToSet(indexes[..position])
      {
        var index := indexes[position];
        PassedStep(plan, indexes, position, executed, reverts);
        if index >= |plan| || (position != 0 && index <= previous) || index in marked || reverts(index, plan[index]) {
          return false, executed;
        }
        marked := marked + {index};
        previous := index;
      }
      assert indexes[..|indexes|] == indexes;
      return true, marked;
    }

    /** execute: runs the selection or reverts as a whole. */
    method Execute(plan: seq<A>, indexes: seq<nat>) returns (ok: bool)
      modifies this
      ensures ok <==> commits(plan) && Selectable(|plan|, indexes, old(executed))
                      && forall k :: 0 <= k < |indexes| ==> !reverts(indexes[k], plan[indexes[k]])
      ensures ok ==> ran == old(ran) + Selected(plan, indexes) && executed == old(executed) + ToSet(indexes)
      ensures !ok ==> ran == old(ran) && executed == old(executed)
    {
      if |plan| == 0 || |plan| > MAX_ACTIONS || !commits(plan) || indexes == [] {
        return false;
      }
      var marked;
      ok, marked := RunSelection(plan, indexes);
      if ok {
        executed, ran := marked, ran + Selected(plan, indexes);
      }
    }
  }

  // ----- over the life of a delegate

  /** The indexes run by a series of calls, whoever makes them; a call that cannot run changes nothing. */
  ghost function RunBy(n: nat, calls: seq<seq<nat>>): seq<nat> {
    if calls == [] then []
    else
      var before := RunBy(n, calls[..|calls| - 1]);
      if Selectable(n, calls[|calls| - 1], ToSet(before)) then before + calls[|calls| - 1] else before
  }

  /** Whoever calls the delegate, and however often, no action of the plan is run twice. */
  lemma {:induction false} ActionsRunOnce(n: nat, calls: seq<seq<nat>>)
    ensures Distinct(RunBy(n, calls)) && forall i :: i in RunBy(n, calls) ==> i < n
  {
    if calls == [] {
    } else {
      ActionsRunOnce(n, calls[..|calls| - 1]);
    }
  }
}
