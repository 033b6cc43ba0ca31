/** What an execution of the rescue runtime means for the source account, and what
    interleaved calls can do with its handles. */
module Eip7702Safety {
  import opened Basics
  import opened Eip7702Account
  import opened Eip7702Runtime
  import RescueDelegate

  // ----- what the protocol implies

  /** The indexes that were simulated, in order. */
  ghost function TriedIndexes(log: Log): seq<Option<nat>> {
    match log
    case Start => []
    case Then(before, e) => TriedIndexes(before) + (if e.Simulated? then [e.request.actionIndex] else [])
  }

  /** Indexes are tried in the package's order, each at most once. */
  lemma {:induction false} IndexesTriedInOrder(log: Log, s: AuthorizedState)
    requires Follows(log, s)
    ensures |TriedIndexes(log)| == TriedCount(log) <= |s.package.executionIndexes|
    ensures forall i :: 0 <= i < TriedCount(log) ==> TriedIndexes(log)[i] == Some(s.package.executionIndexes[i])
  {
    if log.Start? {
    } else {
      IndexesTriedInOrder(log.before, s);
    }
  }

  ghost function Submissions(log: Log): seq<Request> {
    match log
    case Start => []
    case Then(before, e) => Submissions(before) + (if e.Submitted? then [e.request] else [])
  }

  /** Everything submitted: rescue requests of which the first alone carries the delegation,
      then, last and at most once, the clearing request. */
  lemma {:induction false} SubmissionsInOrder(log: Log, s: AuthorizedState)
    requires Follows(log, s)
    ensures |Submissions(log)| == |RescueHashes(log)| + (if ClearHash(log).Some? then 1 else 0)
    ensures forall j :: 0 <= j < |RescueHashes(log)| ==>
              && Submissions(log)[j].purpose.RescueAction?
              && Submissions(log)[j].authorizationList == if j == 0 then Some([s.delegation]) else None
    ensures ClearHash(log).Some? ==>
              && RescueHashes(log) != []
              && Submissions(log)[|RescueHashes(log)|].purpose.ClearDelegation? && ClearsSource(Submissions(log)[|RescueHashes(log)|], s)
  {
    if log.Start? {
    } else {
      SubmissionsInOrder(log.before, s);
      if log.event.Submitted? && log.event.request.purpose.RescueAction? {
        assert log.before.Then? && log.before.event.Simulated?;
        assert Follows(log.before, s);
        assert RescueHashes(log.before) == RescueHashes(log.before.before);
      }
    }
  }

  /** Every submission does what it is for: a rescue request runs exactly the action of the index it
      was tried for, and a clearing request runs nothing and carries the revocation. */
  ghost predicate DoesItsPart(r: Request, s: AuthorizedState) {
    if r.purpose.RescueAction? then r.actionIndex.Some? && RunsAction(r, s, r.actionIndex.value)
    else r.actionIndex.None? && ClearsSource(r, s)
  }

  lemma {:induction false} SubmissionsDoTheirPart(log: Log, s: AuthorizedState)
    requires Parsed(s.package) && Follows(log, s)
    ensures forall j :: 0 <= j < |Submissions(log)| ==> DoesItsPart(Submissions(log)[j], s)
  {
    if log.Start? {
    } else {
      SubmissionsDoTheirPart(log.before, s);
      if log.event.Submitted? && log.event.request.purpose.RescueAction? {
        assert log.before.Then? && log.before.event.Simulated? && Follows(log.before, s);
        var index := s.package.executionIndexes[TriedCount(log.before.before)];
        RescueRequestRuns(s, index, log.event.request.authorizationList);
      }
    }
  }

  /** The indexes of the rescue requests submitted, in order. */
  ghost function SubmittedIndexes(log: Log): seq<nat> {
    match log
    case Start => []
    case Then(before, e) =>
      SubmittedIndexes(before)
      + (if e.Submitted? && e.request.purpose.RescueAction? && e.request.actionIndex.Some? then [e.request.actionIndex.value] else [])
  }

  /** No action is submitted twice, and the actions submitted are in the plan's order. */
  lemma {:induction false} ActionsSubmittedOnce(log: Log, s: AuthorizedState)
    requires Parsed(s.package) && Follows(log, s)
    ensures |SubmittedIndexes(log)| == |RescueHashes(log)| && RescueDelegate.Increasing(SubmittedIndexes(log))
    ensures forall i :: i in SubmittedIndexes(log) ==> i < TriedCount(log)
  {
    if log.Start? {
    } else {
      ActionsSubmittedOnce(log.before, s);
      if log.event.Submitted? && log.event.request.purpose.RescueAction? {
        var before := log.before;
        assert before.Then? && before.event.Simulated? && Follows(before, s);
        assert SubmittedIndexes(before) == SubmittedIndexes(before.before);
        ActionsSubmittedOnce(before.before, s);
        assert log.event.request.actionIndex == Some(TriedCount(before.before));
        RescueDelegate.IncreasingAppend(SubmittedIndexes(before.before), TriedCount(before.before));
      }
    }
  }

  ghost function Singles(indexes: seq<nat>): seq<seq<nat>> {
    seq(|indexes|, k requires 0 <= k < |indexes| => [indexes[k]])
  }

  /** The delegate refuses none of the submitted calls as a repetition: included in this order, and
      as long as no action reverts, each runs its action. */
  lemma SubmittedCallsRun(log: Log, s: AuthorizedState)
    requires Parsed(s.package) && Follows(log, s)
    ensures RescueDelegate.RunBy(|s.package.actions|, Singles(SubmittedIndexes(log))) == SubmittedIndexes(log)
  {
    ActionsSubmittedOnce(log, s);
    IndexesTriedInOrder(log, s);
    assert forall k :: 0 <= k < |SubmittedIndexes(log)| ==> SubmittedIndexes(log)[k] in SubmittedIndexes(log);
    SinglesRun(|s.package.actions|, SubmittedIndexes(log));
  }

  lemma {:induction false} SinglesRun(n: nat, indexes: seq<nat>)
    requires n <= RescueDelegate.MAX_ACTIONS && RescueDelegate.Increasing(indexes)
    requires forall k :: 0 <= k < |indexes| ==> indexes[k] < n
    ensures RescueDelegate.RunBy(n, Singles(indexes)) == indexes
    decreases |indexes|
  {
    if indexes == [] {
    } else {
      var init, last := indexes[..|indexes| - 1], indexes[|indexes| - 1];
      SinglesRun(n, init);
      assert Singles(indexes)[..|indexes| - 1] == Singles(init);
      assert last !in ToSet(init);
      assert RescueDelegate.Selectable(n, [last], ToSet(init));
      assert indexes == init + [last];
    }
  }

  // ----- what it means for the source account

  /** Every submitted transaction is included, in submission order; whether the calls revert
      makes no difference to the authorization lists. */
  ghost function IncludeAll(a: Account, log: Log): Account {
    match log
    case Start => a
    case Then(before, e) =>
      if e.Submitted? && e.request.authorizationList.Some?
      then ApplyList(IncludeAll(a, before), e.request.authorizationList.value, e.request.chainId)
      else IncludeAll(a, before)
  }

  /** Whatever an execution submits, including it all delegates the source with the first
      transaction and, with the clearing one, empties its code and spends both authorizations. */
  lemma {:induction false} SubmissionsDelegateThenClear(log: Log, s: AuthorizedState)
    requires AuthorizedCorrectly(s) && Follows(log, s)
    requires !SameText(s.package.delegateAddress, ZERO_ADDRESS)
    ensures IncludeAll(Account(s.package.sourceNonce, EMPTY_CODE), log) ==
            if ClearHash(log).Some? then Account(s.package.sourceNonce + 2, EMPTY_CODE)
            else if RescueHashes(log) != [] then Account(s.package.sourceNonce + 1, DelegationCode(s.delegation.address))
            else Account(s.package.sourceNonce, EMPTY_CODE)
  {
    if log.Start? {
    } else {
      SubmissionsDelegateThenClear(log.before, s);
      var a := IncludeAll(Account(s.package.sourceNonce, EMPTY_CODE), log.before);
      if log.event.Submitted? {
        if log.event.request.purpose.RescueAction? {
          assert Follows(log.before, s);
          assert RescueHashes(log.before) == RescueHashes(log.before.before);
          if RescueHashes(log.before) == [] {
            ApplyOne(a, s.delegation, s.package.chainId);
          }
        } else {
          ApplyOne(a, s.revocation, s.package.chainId);
        }
      }
    }
  }

  /** After a run that ends with the source shown as cleared, the two signed authorizations
      can never change the source's code again, whoever includes them and in whatever order. */
  lemma ClearedExecutionIsSafe(s: AuthorizedState, log: Log, a: Account)
    requires AuthorizedCorrectly(s) && ShowsCleared(log, s.package)
    requires a.nonce == log.event.inspection.sourceNonce && a.code == log.event.inspection.sourceCode
    ensures a.code == EMPTY_CODE
    ensures BothSpent(a, AuthorizationPair(s.delegation, s.revocation), s.package.chainId)
  {
    ClearedIsSafe(a, AuthorizationPair(s.delegation, s.revocation), s.package.chainId, s.package.sourceNonce);
  }

  // ----- handles under interleaving

  /** Handles are fresh objects. `authorizing` lists the `authorize` calls in flight: each has
      looked its handle up and not yet deleted it. `origin` remembers which provisioned handle
      an authorized one came from. */
  datatype Handles = Handles(
    provisioned: set<nat>, authorizing: seq<nat>, authorized: set<nat>,
    origin: map<nat, nat>, executed: seq<nat>, next: nat)

  datatype Move =
    | Provision
    | BeginAuthorize(handle: nat)
    | FinishAuthorize(call: nat)
    | AbandonAuthorize(call: nat)
    | Execute(handle: nat)

  const NO_HANDLES := Handles({}, [], {}, map[], [], 0)

  function Without<T>(s: seq<T>, i: nat): seq<T>
    requires i < |s|
  {
    s[..i] + s[i + 1..]
  }

  /** One step between two awaits. `execute` looks its handle up and deletes it in one step. */
  function Next(w: Handles, m: Move): Handles {
    match m
    case Provision => w.(provisioned := w.provisioned + {w.next}, next := w.next + 1)
    case BeginAuthorize(h) => if h in w.provisioned then w.(authorizing := w.authorizing + [h]) else w
    case FinishAuthorize(i) =>
      if i >= |w.authorizing| then w
      else w.(provisioned := w.provisioned - {w.authorizing[i]},
              authorizing := Without(w.authorizing, i),
              authorized := w.authorized + {w.next},
              origin := w.origin[w.next := w.authorizing[i]],
              next := w.next + 1)
    case AbandonAuthorize(i) => if i >= |w.authorizing| then w else w.(authorizing := Without(w.authorizing, i))
    case Execute(h) =>
      if h in w.authorized then w.(authorized := w.authorized - {h}, executed := w.executed + [h]) else w
  }

  function Play(w: Handles, moves: seq<Move>): Handles
    decreases |moves|
  {
    if moves == [] then w else Play(Next(w, moves[0]), moves[1..])
  }

  ghost predicate HandlesInv(w: Handles) {
    && Distinct(w.executed)
    && (forall h :: h in w.executed ==> h < w.next && h !in w.authorized)
    && (forall h :: h in w.authorized ==> h < w.next)
  }

  lemma {:induction false} PlayKeepsInv(w: Handles, moves: seq<Move>)
    requires HandlesInv(w)
    ensures HandlesInv(Play(w, moves))
    decreases |moves|
  {
    if moves == [] {
    } else {
      PlayKeepsInv(Next(w, moves[0]), moves[1..]);
    }
  }

  /** However calls interleave, no authorized handle is executed twice. */
  lemma ExecutedAtMostOnce(moves: seq<Move>)
    ensures Distinct(Play(NO_HANDLES, moves).executed)
  {
    PlayKeepsInv(NO_HANDLES, moves);
  }

  /** No `authorize` call starts on a handle that another one is still working on. */
  ghost predicate OneAtATime(w: Handles, moves: seq<Move>)
    decreases |moves|
  {
    moves != [] ==>
      && (moves[0].BeginAuthorize? ==> moves[0].handle !in w.authorizing)
      && OneAtATime(Next(w, moves[0]), moves[1..])
  }

  ghost predicate OriginsInv(w: Handles) {
    && Distinct(w.authorizing)
    && (forall h :: h in w.authorizing ==> h in w.provisioned)
    && (forall h :: h in w.provisioned ==> h < w.next)
    && (forall h :: h in w.origin ==> h < w.next && w.origin[h] < w.next && w.origin[h] !in w.provisioned)
    && (forall g, h :: g in w.origin && h in w.origin && w.origin[g] == w.origin[h] ==> g == h)
  }

  lemma {:induction false} PlayKeepsOrigins(w: Handles, moves: seq<Move>)
    requires OriginsInv(w) && OneAtATime(w, moves)
    ensures OriginsInv(Play(w, moves))
    decreases |moves|
  {
    if moves == [] {
    } else {
      NextKeepsOrigins(w, moves[0]);
      PlayKeepsOrigins(Next(w, moves[0]), moves[1..]);
    }
  }

  lemma NextKeepsOrigins(w: Handles, m: Move)
    requires OriginsInv(w) && (m.BeginAuthorize? ==> m.handle !in w.authorizing)
    ensures OriginsInv(Next(w, m))
  {
    if m.FinishAuthorize? && m.call < |w.authorizing| {
      FinishKeepsOrigins(w, m.call);
    }
  }

  lemma FinishKeepsOrigins(w: Handles, i: nat)
    requires OriginsInv(w) && i < |w.authorizing|
    ensures OriginsInv(Next(w, FinishAuthorize(i)))
  {
    var h := w.authorizing[i];
    assert h in w.authorizing && h in w.provisioned;
    assert h !in Without(w.authorizing, i);
  }

  /** One authorized handle per provisioned one, as long as `authorize` calls on the same
      handle do not overlap. */
  lemma SequentialAuthorizationsAreUnique(moves: seq<Move>, g: nat, h: nat)
    requires OneAtATime(NO_HANDLES, moves)
    requires var w := Play(NO_HANDLES, moves); g in w.origin && h in w.origin && w.origin[g] == w.origin[h]
    ensures g == h
  {
    PlayKeepsOrigins(NO_HANDLES, moves);
  }

  /** What every reachable state satisfies: a handle being authorized is still provisioned, or an
      overlapping call has already authorized it. */
  ghost predicate HandlesSound(w: Handles) {
    && (forall h :: h in w.authorizing ==> h < w.next && (h in w.provisioned || h in w.origin.Values))
    && (forall h :: h in w.provisioned ==> h < w.next && h !in w.origin.Values)
    && (forall h :: h in w.origin ==> h < w.next && w.origin[h] < w.next)
  }

  lemma NextKeepsSound(w: Handles, m: Move)
    requires HandlesSound(w)
    ensures HandlesSound(Next(w, m))
  {
    var after := Next(w, m);
    if m.FinishAuthorize? && m.call < |w.authorizing| {
      var h := w.authorizing[m.call];
      assert h in w.authorizing;
      assert after.origin.Values == w.origin.Values + {h} by {
        assert w.next !in w.origin;
        assert after.origin[w.next] == h;
        forall v | v in w.origin.Values ensures v in after.origin.Values {
          var g :| g in w.origin && w.origin[g] == v;
          assert after.origin[g] == v;
        }
      }
    }
    forall h | h in after.authorizing ensures h in w.authorizing || h in w.provisioned {
      if !m.BeginAuthorize? {
        var i :| 0 <= i < |after.authorizing| && after.authorizing[i] == h;
        assert after.authorizing == w.authorizing || h == w.authorizing[i] || h == w.authorizing[i + 1];
      }
    }
  }

  lemma {:induction false} PlayKeepsSound(w: Handles, moves: seq<Move>)
    requires HandlesSound(w)
    ensures HandlesSound(Play(w, moves))
    decreases |moves|
  {
    if moves == [] {
    } else {
      NextKeepsSound(w, moves[0]);
      PlayKeepsSound(Next(w, moves[0]), moves[1..]);
    }
  }

  /** No provisioned handle has two authorized ones. */
  ghost predicate NoTwins(w: Handles) {
    forall g, h :: g in w.origin && h in w.origin && w.origin[g] == w.origin[h] ==> g == h
  }

  /** However the calls go on, as long as none starts on a handle that another works on. */
  ghost predicate NeverTwins(w: Handles) {
    forall moves :: OneAtATime(w, moves) ==> NoTwins(Play(w, moves))
  }

  /** No handle is being authorized twice, or again. */
  ghost predicate NoOverlap(w: Handles) {
    Distinct(w.authorizing) && forall h :: h in w.authorizing ==> h !in w.origin.Values
  }

  lemma PlayOne(w: Handles, m: Move)
    ensures Play(w, [m]) == Next(w, m)
  {
    assert [m][1..] == [];
  }

  lemma PlayTwo(w: Handles, a: Move, b: Move)
    ensures Play(w, [a, b]) == Next(Next(w, a), b)
  {
    assert [a, b][1..] == [b];
    PlayOne(Next(w, a), b);
  }

  /** Two overlapping calls that both finish give one handle two authorized ones. */
  lemma OverlapMakesTwins(w: Handles, i: nat, j: nat)
    requires HandlesSound(w) && i < j < |w.authorizing| && w.authorizing[i] == w.authorizing[j]
    ensures !NeverTwins(w)
  {
    var moves := [FinishAuthorize(j), FinishAuthorize(i)];
    PlayTwo(w, moves[0], moves[1]);
    var half := Next(w, FinishAuthorize(j));
    assert half.authorizing[i] == w.authorizing[i];
    var after := Next(half, FinishAuthorize(i));
    assert after.origin[w.next] == after.origin[w.next + 1] == w.authorizing[i];
    assert moves[1..] == [FinishAuthorize(i)] && moves[1..][1..] == [];
    assert OneAtATime(w, moves);
  }

  lemma LateFinishMakesTwins(w: Handles, i: nat, g: nat)
    requires HandlesSound(w) && i < |w.authorizing| && g in w.origin && w.origin[g] == w.authorizing[i]
    ensures !NeverTwins(w)
  {
    var moves := [FinishAuthorize(i)];
    PlayOne(w, moves[0]);
    var after := Next(w, moves[0]);
    assert after.origin[g] == after.origin[w.next] && g != w.next;
    assert moves[1..] == [];
    assert OneAtATime(w, moves);
  }

  /** In every reachable state: no way of going on without a further overlap gives a provisioned
      handle two authorized ones, exactly when there are none yet and no calls overlap now. */
  lemma TwinsExactlyFromOverlap(past: seq<Move>)
    ensures var w := Play(NO_HANDLES, past); NeverTwins(w) <==> NoTwins(w) && NoOverlap(w)
  {
    var w := Play(NO_HANDLES, past);
    PlayKeepsSound(NO_HANDLES, past);
    if NoTwins(w) && NoOverlap(w) {
      forall moves | OneAtATime(w, moves) ensures NoTwins(Play(w, moves)) {
        PlayKeepsOrigins(w, moves);
      }
    }
    if NeverTwins(w) {
      assert Play(w, []) == w && OneAtATime(w, []);
      forall i, j | 0 <= i < j < |w.authorizing| ensures w.authorizing[i] != w.authorizing[j] {
        if w.authorizing[i] == w.authorizing[j] {
          OverlapMakesTwins(w, i, j);
        }
      }
      forall h | h in w.authorizing ensures h !in w.origin.Values {
        if h in w.origin.Values {
          var g :| g in w.origin && w.origin[g] == h;
          var i :| 0 <= i < |w.authorizing| && w.authorizing[i] == h;
          LateFinishMakesTwins(w, i, g);
        }
      }
    }
  }

  lemma PlayStep(w: Handles, m: Move, rest: seq<Move>)
    ensures Play(w, [m] + rest) == Play(Next(w, m), rest)
  {}

  lemma PlayFour(w: Handles, a: Move, b: Move, c: Move, d: Move, rest: seq<Move>)
    ensures Play(w, [a, b, c, d] + rest) == Play(Next(Next(Next(Next(w, a), b), c), d), rest)
  {
    assert [a, b, c, d] + rest == [a] + ([b] + ([c] + ([d] + rest)));
    PlayStep(w, a, [b] + ([c] + ([d] + rest)));
    PlayStep(Next(w, a), b, [c] + ([d] + rest));
    PlayStep(Next(Next(w, a), b), c, [d] + rest);
    PlayStep(Next(Next(Next(w, a), b), c), d, rest);
  }

  /** One such run: two overlapping `authorize` calls, and `execute` takes both of the authorized
      handles. The handle is deleted only after the signer has answered. */
  lemma OverlappingAuthorizationsBothExecute()
    ensures var w := Play(NO_HANDLES, [Provision, BeginAuthorize(0), BeginAuthorize(0), FinishAuthorize(0)]
                                      + [FinishAuthorize(0), Execute(1), Execute(2), Execute(2)]);
            w.executed == [1, 2] && w.origin == map[1 := 0, 2 := 0]
  {
    var half := Handles({}, [0], {1}, map[1 := 0], [], 2);
    var rest := [FinishAuthorize(0), Execute(1), Execute(2), Execute(2)];
    PlayFour(NO_HANDLES, Provision, BeginAuthorize(0), BeginAuthorize(0), FinishAuthorize(0), rest);
    assert [0, 0][1..] == [0] && Without([0, 0], 0) == [0];
    assert Next(Next(Next(Next(NO_HANDLES, Provision), BeginAuthorize(0)), BeginAuthorize(0)), FinishAuthorize(0)) == half;
    PlayFour(half, FinishAuthorize(0), Execute(1), Execute(2), Execute(2), []);
    assert rest + [] == rest;
    assert Next(half, FinishAuthorize(0)) == Handles({}, [], {1, 2}, map[1 := 0, 2 := 0], [], 3) by {
      assert Without([0], 0) == [];
    }
  }
}
