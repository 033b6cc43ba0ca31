/** The source account under the authorization-list rules of EIP-7702, and the pair of
    authorizations the rescue signs (packages/adapters/src/eip7702-rescue.ts). */
module Eip7702Account {
  import opened Basics

  const EMPTY_CODE: string := "0x"
  const ZERO_ADDRESS: string := "0x0000000000000000000000000000000000000000"

  datatype Authorization = Authorization(address: string, chainId: nat, nonce: nat)

  datatype Account = Account(nonce: nat, code: string)

  /** The delegation designator 0xef0100 || address. */
  function DelegationCode(address: string): string {
    "0xef0100" + Lower(if |address| >= 2 then address[2..] else [])
  }

  /** EIP-7702, section "Behavior": a tuple whose chain or nonce does not match is skipped;
      otherwise the code is set, address zero clearing it, and the nonce moves on. The
      effect stays when the transaction's call reverts. */
  function ApplyTuple(a: Account, t: Authorization, chainId: nat): Account {
    if (t.chainId != 0 && t.chainId != chainId) || t.nonce != a.nonce then a
    else Account(a.nonce + 1, if SameText(t.address, ZERO_ADDRESS) then EMPTY_CODE else DelegationCode(t.address))
  }

  function ApplyList(a: Account, list: seq<Authorization>, chainId: nat): Account
    decreases |list|
  {
    if list == [] then a else ApplyList(ApplyTuple(a, list[0], chainId), list[1..], chainId)
  }

  datatype AuthorizationPair = AuthorizationPair(delegation: Authorization, revocation: Authorization)

  function BuildAuthorizationPair(chainId: nat, delegate: string, sourceNonce: nat): AuthorizationPair {
    AuthorizationPair(Authorization(delegate, chainId, sourceNonce),
                      Authorization(ZERO_ADDRESS, chainId, sourceNonce + 1))
  }

  /** What can happen to the source account on chain after the pair is signed: anybody
      includes tuples of the pair, in any order and any number of times, or the source
      sends a transaction of its own. */
  datatype ChainEvent = Inclusion(list: seq<Authorization>) | OwnTransaction

  function Happen(a: Account, e: ChainEvent, chainId: nat): Account {
    match e
    case Inclusion(list) => ApplyList(a, list, chainId)
    case OwnTransaction => a.(nonce := a.nonce + 1)
  }

  function Run(a: Account, events: seq<ChainEvent>, chainId: nat): Account
    decreases |events|
  {
    if events == [] then a else Run(Happen(a, events[0], chainId), events[1..], chainId)
  }

  ghost predicate FromPair(events: seq<ChainEvent>, pair: AuthorizationPair) {
    forall i :: 0 <= i < |events| && events[i].Inclusion? ==>
      forall t :: t in events[i].list ==> t == pair.delegation || t == pair.revocation
  }

  lemma {:induction false} SpentListIsIgnored(a: Account, list: seq<Authorization>, chainId: nat)
    requires forall t :: t in list ==> t.nonce < a.nonce
    ensures ApplyList(a, list, chainId) == a
  {
    if list == [] {
    } else {
      assert list[0] in list;
      SpentListIsIgnored(a, list[1..], chainId);
    }
  }

  /** Once both nonces are behind the account, the code never changes again. */
  lemma {:induction false} SpentPairIsDead(a: Account, events: seq<ChainEvent>, pair: AuthorizationPair, chainId: nat)
    requires FromPair(events, pair)
    requires pair.delegation.nonce < a.nonce && pair.revocation.nonce < a.nonce
    ensures Run(a, events, chainId).code == a.code
    ensures Run(a, events, chainId).nonce >= a.nonce
    decreases |events|
  {
    if events == [] {
    } else {
      if events[0].Inclusion? {
        SpentListIsIgnored(a, events[0].list, chainId);
      }
      assert FromPair(events[1..], pair) by {
        assert forall i :: 0 <= i < |events[1..]| ==> events[1..][i] == events[i + 1];
      }
      SpentPairIsDead(Happen(a, events[0], chainId), events[1..], pair, chainId);
    }
  }

  /** Neither authorization of the pair can take effect at any later time. */
  ghost predicate BothSpent(a: Account, pair: AuthorizationPair, chainId: nat) {
    forall events: seq<ChainEvent> :: FromPair(events, pair) ==> Run(a, events, chainId).code == a.code
  }

  ghost predicate Cleared(a: Account, sourceNonce: nat) {
    a.code == EMPTY_CODE && a.nonce >= sourceNonce + 2
  }

  lemma RunOne(a: Account, e: ChainEvent, chainId: nat)
    ensures Run(a, [e], chainId) == Happen(a, e, chainId)
  {}

  lemma ApplyOne(a: Account, t: Authorization, chainId: nat)
    ensures ApplyList(a, [t], chainId) == ApplyTuple(a, t, chainId)
  {}

  /** The runtime's clearing test accepts only accounts that stay empty whatever happens
      to the signed authorizations afterwards. */
  lemma ClearedIsSafe(a: Account, pair: AuthorizationPair, chainId: nat, sourceNonce: nat)
    requires Cleared(a, sourceNonce)
    requires pair.delegation.nonce == sourceNonce && pair.revocation.nonce == sourceNonce + 1
    ensures BothSpent(a, pair, chainId)
  {
    forall events: seq<ChainEvent> | FromPair(events, pair)
      ensures Run(a, events, chainId).code == a.code
    {
      SpentPairIsDead(a, events, pair, chainId);
    }
  }

  lemma {:induction false} ApplyTwo(a: Account, t: Authorization, u: Authorization, chainId: nat)
    ensures ApplyList(a, [t, u], chainId) == ApplyTuple(ApplyTuple(a, t, chainId), u, chainId)
  {
    assert [t, u][1..] == [u];
    ApplyOne(ApplyTuple(a, t, chainId), u, chainId);
  }

  function OwnTransactions(n: nat): seq<ChainEvent> {
    seq(n, _ => OwnTransaction)
  }

  lemma {:induction false} OwnTransactionsAdvance(a: Account, n: nat, more: seq<ChainEvent>, chainId: nat)
    ensures Run(a, OwnTransactions(n) + more, chainId) == Run(a.(nonce := a.nonce + n), more, chainId)
    decreases n
  {
    if n == 0 {
      assert OwnTransactions(0) + more == more;
    } else {
      assert (OwnTransactions(n) + more)[1..] == OwnTransactions(n - 1) + more;
      OwnTransactionsAdvance(a.(nonce := a.nonce + 1), n - 1, more, chainId);
    }
  }

  /** Including these tuples, after some transactions of the source, shows that the pair is not spent. */
  lemma InclusionRefutes(a: Account, n: nat, pair: AuthorizationPair, chainId: nat, list: seq<Authorization>)
    requires forall t :: t in list ==> t == pair.delegation || t == pair.revocation
    requires ApplyList(a.(nonce := a.nonce + n), list, chainId).code != a.code
    ensures !BothSpent(a, pair, chainId)
  {
    var events := OwnTransactions(n) + [Inclusion(list)];
    assert FromPair(events, pair) by {
      assert forall i :: 0 <= i < |events| && events[i].Inclusion? ==> events[i] == Inclusion(list);
    }
    OwnTransactionsAdvance(a, n, [Inclusion(list)], chainId);
    RunOne(a.(nonce := a.nonce + n), Inclusion(list), chainId);
  }

  /** Exactly which accounts the signed pair can no longer change: those past both nonces, and an
      empty one that is only past the first. */
  lemma SpentExactly(a: Account, chainId: nat, delegate: string, sourceNonce: nat)
    requires !SameText(delegate, ZERO_ADDRESS)
    ensures BothSpent(a, BuildAuthorizationPair(chainId, delegate, sourceNonce), chainId) <==>
            a.nonce >= sourceNonce + 2 || (a.code == EMPTY_CODE && a.nonce == sourceNonce + 1)
  {
    var pair := BuildAuthorizationPair(chainId, delegate, sourceNonce);
    assert |DelegationCode(delegate)| > |EMPTY_CODE|;
    if a.nonce >= sourceNonce + 2 {
      forall events: seq<ChainEvent> | FromPair(events, pair) ensures Run(a, events, chainId).code == a.code {
        SpentPairIsDead(a, events, pair, chainId);
      }
    } else if a.code == EMPTY_CODE && a.nonce == sourceNonce + 1 {
      forall events: seq<ChainEvent> | FromPair(events, pair) ensures Run(a, events, chainId).code == a.code {
        RevocationKeepsEmpty(a, events, pair, chainId);
      }
    } else if a.nonce == sourceNonce + 1 {
      ApplyOne(a, pair.revocation, chainId);
      InclusionRefutes(a, 0, pair, chainId, [pair.revocation]);
    } else {
      var n := sourceNonce - a.nonce;
      var later := a.(nonce := a.nonce + n);
      if a.code == EMPTY_CODE {
        ApplyOne(later, pair.delegation, chainId);
        InclusionRefutes(a, n, pair, chainId, [pair.delegation]);
      } else {
        ApplyTwo(later, pair.delegation, pair.revocation, chainId);
        InclusionRefutes(a, n, pair, chainId, [pair.delegation, pair.revocation]);
      }
    }
  }

  /** What the clearing test rejects although nothing signed can change it any more: an empty account
      whose delegation nonce was spent otherwise, and one that is delegated for good. */
  lemma RejectedAccounts(a: Account, chainId: nat, delegate: string, sourceNonce: nat)
    requires !Cleared(a, sourceNonce) && !SameText(delegate, ZERO_ADDRESS)
    ensures BothSpent(a, BuildAuthorizationPair(chainId, delegate, sourceNonce), chainId) <==>
            if a.code == EMPTY_CODE then a.nonce == sourceNonce + 1 else a.nonce >= sourceNonce + 2
  {
    SpentExactly(a, chainId, delegate, sourceNonce);
  }

  lemma {:induction false} RevocationListKeepsEmpty(a: Account, list: seq<Authorization>, chainId: nat)
    requires a.code == EMPTY_CODE
    requires forall t :: t in list ==> t.nonce < a.nonce || SameText(t.address, ZERO_ADDRESS)
    ensures ApplyList(a, list, chainId).code == EMPTY_CODE && ApplyList(a, list, chainId).nonce >= a.nonce
    decreases |list|
  {
    if list == [] {
    } else {
      assert list[0] in list;
      RevocationListKeepsEmpty(ApplyTuple(a, list[0], chainId), list[1..], chainId);
    }
  }

  lemma {:induction false} RevocationKeepsEmpty(a: Account, events: seq<ChainEvent>, pair: AuthorizationPair, chainId: nat)
    requires FromPair(events, pair)
    requires a.code == EMPTY_CODE
    requires pair.delegation.nonce < a.nonce && SameText(pair.revocation.address, ZERO_ADDRESS)
    ensures Run(a, events, chainId).code == EMPTY_CODE
    decreases |events|
  {
    if events == [] {
    } else {
      if events[0].Inclusion? {
        RevocationListKeepsEmpty(a, events[0].list, chainId);
      }
      assert FromPair(events[1..], pair) by {
        assert forall i :: 0 <= i < |events[1..]| ==> events[1..][i] == events[i + 1];
      }
      RevocationKeepsEmpty(Happen(a, events[0], chainId), events[1..], pair, chainId);
    }
  }

  /** The reason the clearing transaction follows at once: an own transaction of the
      source between the two spends the revocation nonce, and then nothing signed can
      clear the delegation any more. */
  lemma InterposedTransactionTrapsDelegation(chainId: nat, delegate: string, sourceNonce: nat, later: seq<ChainEvent>)
    requires !SameText(delegate, ZERO_ADDRESS)
    requires FromPair(later, BuildAuthorizationPair(chainId, delegate, sourceNonce))
    ensures var pair := BuildAuthorizationPair(chainId, delegate, sourceNonce);
            var events := [Inclusion([pair.delegation]), OwnTransaction] + later;
            Run(Account(sourceNonce, EMPTY_CODE), events, chainId).code == DelegationCode(delegate)
  {
    var pair := BuildAuthorizationPair(chainId, delegate, sourceNonce);
    var start := Account(sourceNonce, EMPTY_CODE);
    var events := [Inclusion([pair.delegation]), OwnTransaction] + later;
    ApplyOne(start, pair.delegation, chainId);
    var delegated := Account(sourceNonce + 1, DelegationCode(delegate));
    assert Happen(start, events[0], chainId) == delegated;
    assert events[1..] == [OwnTransaction] + later;
    assert events[1..][1..] == later;
    assert Run(delegated, events[1..], chainId) == Run(delegated.(nonce := sourceNonce + 2), later, chainId);
    SpentPairIsDead(delegated.(nonce := sourceNonce + 2), later, pair, chainId);
  }
}
