/** Receipt finality: several reads of a chain that keeps changing.
    The verifier of buyer reports (apps/web/src/lib/live-buyer-report-verifier.ts) and
    the two wait-for-receipt loops (packages/buyer-runtime/src/eip1193.ts and
    eip7702-viem.ts) against a chain whose reorganisations stay below the policy depth. */
module Finality {
  import opened Basics

  type BlockHash = nat
  type TxHash = nat
  type Address = nat

  /** The canonical chain at one moment; a block's number is its index. */
  type Chain = seq<BlockHash>

  /** The canonical chain at every moment, without end. */
  type History = nat -> Chain

  // ----- how the chain changes

  ghost predicate KeepsAllBut(before: Chain, after: Chain, dropped: nat) {
    dropped <= |before| && before[..|before| - dropped] <= after
  }

  /** New blocks, or a reorganisation that drops fewer than `m` trailing blocks and
      does not lower the height. */
  ghost predicate Evolves(before: Chain, after: Chain, m: nat) {
    |before| <= |after|
    && exists dropped: nat :: dropped < m && KeepsAllBut(before, after, dropped)
  }

  ghost predicate Legal(history: History, m: nat) {
    forall t: nat :: Evolves(history(t), history(t + 1), m)
  }

  ghost predicate CanonicalAt(chain: Chain, n: nat, hash: BlockHash) {
    n < |chain| && chain[n] == hash
  }

  /** Block `n` has at least `confirmations` confirmations, itself included. */
  ghost predicate Confirmed(chain: Chain, n: nat, confirmations: nat) {
    |chain| - n >= confirmations
  }

  /** The block stays canonical from time `t` on. */
  ghost predicate FinalFrom(history: History, t: nat, n: nat, hash: BlockHash) {
    forall later: nat :: t <= later ==> CanonicalAt(history(later), n, hash)
  }

  /** A block with `m` confirmations is never replaced. */
  lemma {:induction false} DeepBlocksStay(history: History, m: nat, t: nat, later: nat, n: nat)
    requires m >= 1 && Legal(history, m)
    requires t <= later
    requires Confirmed(history(t), n, m)
    ensures Confirmed(history(later), n, m)
    ensures n < |history(t)| && CanonicalAt(history(later), n, history(t)[n])
    decreases later - t
  {
    if t < later {
      assert Evolves(history(t), history(t + 1), m);
      var before, after := history(t), history(t + 1);
      var dropped: nat :| dropped < m && KeepsAllBut(before, after, dropped);
      assert after[n] == before[..|before| - dropped][n] == before[n];
      DeepBlocksStay(history, m, t + 1, later, n);
    }
  }

  /** Both conditions of one finality check, when the head was read at `headTime` and
      the block at `blockTime`. */
  ghost predicate CheckPasses(history: History, m: nat, headTime: nat, blockTime: nat, n: nat, hash: BlockHash) {
    Confirmed(history(headTime), n, m) && CanonicalAt(history(blockTime), n, hash)
  }

  lemma HeadFirstIsFinal(history: History, m: nat, headTime: nat, blockTime: nat, n: nat, hash: BlockHash)
    requires m >= 1 && Legal(history, m)
    requires headTime <= blockTime
    requires CheckPasses(history, m, headTime, blockTime, n, hash)
    ensures FinalFrom(history, headTime, n, hash)
  {
    DeepBlocksStay(history, m, headTime, blockTime, n);
    forall later: nat | headTime <= later ensures CanonicalAt(history(later), n, hash) {
      DeepBlocksStay(history, m, headTime, later, n);
    }
  }

  ghost predicate CheckIsSound(m: nat, headTime: nat, blockTime: nat) {
    forall history: History, n: nat, hash: BlockHash ::
      Legal(history, m) && CheckPasses(history, m, headTime, blockTime, n, hash)
      ==> FinalFrom(history, if headTime <= blockTime then blockTime else headTime, n, hash)
  }

  /** A fork at block 1 that the block read sees and the later head read does not. */
  ghost function ForkAfter(blockTime: nat, m: nat): History {
    t => if t <= blockTime then [0, 1] else [0] + seq(m, i => 2)
  }

  /** One check by itself proves finality exactly when the head is read no later than
      the block (or no reorganisation is possible at all). */
  lemma SingleCheckSoundIff(m: nat, headTime: nat, blockTime: nat)
    requires m >= 1
    ensures CheckIsSound(m, headTime, blockTime) <==> headTime <= blockTime || m == 1
  {
    if headTime <= blockTime {
      forall history: History, n: nat, hash: BlockHash
        | Legal(history, m) && CheckPasses(history, m, headTime, blockTime, n, hash)
        ensures FinalFrom(history, blockTime, n, hash)
      {
        HeadFirstIsFinal(history, m, headTime, blockTime, n, hash);
      }
    } else if m == 1 {
      forall history: History, n: nat, hash: BlockHash
        | Legal(history, m) && CheckPasses(history, m, headTime, blockTime, n, hash)
        ensures FinalFrom(history, headTime, n, hash)
      {
        forall later: nat | headTime <= later ensures CanonicalAt(history(later), n, hash) {
          DeepBlocksStay(history, 1, blockTime, later, n);
        }
      }
    } else {
      var history := ForkAfter(blockTime, m);
      forall t: nat ensures Evolves(history(t), history(t + 1), m) {
        var dropped := if t == blockTime then 1 else 0;
        assert KeepsAllBut(history(t), history(t + 1), dropped);
      }
      assert CheckPasses(history, m, headTime, blockTime, 1, 1);
      assert !CanonicalAt(history(headTime), 1, 1);
      assert !FinalFrom(history, headTime, 1, 1);
    }
  }

  /** Two checks one after the other prove finality whatever the order of the two reads
      within each, and the block was already final while anything in between was read. */
  lemma TwoChecksAreFinal(history: History, m: nat, head1: nat, block1: nat, head2: nat, block2: nat, n: nat, hash: BlockHash)
    requires m >= 1 && Legal(history, m)
    requires CheckPasses(history, m, head1, block1, n, hash)
    requires CheckPasses(history, m, head2, block2, n, hash)
    requires head1 <= block2
    ensures FinalFrom(history, head1, n, hash)
  {
    HeadFirstIsFinal(history, m, head1, block2, n, hash);
  }

  // ----- what blocks hold

  datatype Log =
    | Erc20Transfer(token: Address, from: Address, to: Address, value: nat)
    | Erc721Transfer(collection: Address, from: Address, to: Address, tokenId: nat)
    | OtherLog

  datatype Receipt = Receipt(success: bool, logs: seq<Log>)

  datatype Block = Block(
    receipts: map<TxHash, Receipt>,
    balance: (Address, Address) -> nat,
    owner: (Address, nat) -> Address)

  datatype Transaction = Transaction(from: Address, to: Option<Address>, value: nat, input: string)

  datatype ReceiptView = ReceiptView(blockNumber: nat, blockHash: BlockHash, success: bool, logs: seq<Log>)

  datatype Answer<T> = Answered(value: T) | Failed

  /** The most recent block that includes the transaction. */
  function FindBlock(chain: Chain, block: BlockHash -> Block, tx: TxHash): (r: Option<nat>)
    ensures r.Some? ==> r.value < |chain| && tx in block(chain[r.value]).receipts
    ensures r.None? ==> forall i :: 0 <= i < |chain| ==> tx !in block(chain[i]).receipts
  {
    if chain == [] then None
    else if tx in block(chain[|chain| - 1]).receipts then Some(|chain| - 1)
    else FindBlock(chain[..|chain| - 1], block, tx)
  }

  /** The view agrees with the block that has this hash. */
  ghost predicate TrueView(v: ReceiptView, tx: TxHash, block: BlockHash -> Block) {
    tx in block(v.blockHash).receipts
    && v.success == block(v.blockHash).receipts[tx].success
    && v.logs == block(v.blockHash).receipts[tx].logs
  }

  ghost predicate NotIncluded(chain: Chain, block: BlockHash -> Block, tx: TxHash) {
    forall i :: 0 <= i < |chain| ==> tx !in block(chain[i]).receipts
  }

  /** An RPC endpoint. The k-th read is answered at time `readAt(k)` from the chain of
      that moment, or fails; both are arbitrary. */
  class Node {
    const history: History
    const block: BlockHash -> Block
    const transaction: TxHash -> Transaction
    const readAt: nat -> nat
    const fails: nat -> bool
    var calls: nat

    constructor (history: History, block: BlockHash -> Block, transaction: TxHash -> Transaction,
                 readAt: nat -> nat, fails: nat -> bool)
      ensures this.history == history && this.block == block && this.transaction == transaction
      ensures this.readAt == readAt && this.fails == fails && calls == 0
    {
      this.history, this.block, this.transaction := history, block, transaction;
      this.readAt, this.fails := readAt, fails;
      calls := 0;
    }

    /** Time does not run backwards from one read to the next. */
    ghost predicate Ordered() {
      forall i: nat, j: nat :: i <= j ==> readAt(i) <= readAt(j)
    }

    /** A read of block `n` fails, or finds the chain too short for it. */
    ghost predicate Unread(k: nat, n: nat) {
      fails(k) || n >= |history(readAt(k))|
    }

    method GetReceipt(tx: TxHash) returns (a: Answer<Option<ReceiptView>>)
      modifies this
      ensures calls == old(calls) + 1 && (a.Failed? <==> fails(old(calls)))
      ensures a.Answered? && a.value.Some? ==>
                && CanonicalAt(history(readAt(old(calls))), a.value.value.blockNumber, a.value.value.blockHash)
                && TrueView(a.value.value, tx, block)
      ensures a.Answered? && a.value.None? ==> NotIncluded(history(readAt(old(calls))), block, tx)
    {
      var now := readAt(calls);
      calls := calls + 1;
      if fails(calls - 1) {
        return Failed;
      }
      var chain := history(now);
      var found := FindBlock(chain, block, tx);
      if found.None? {
        return Answered(None);
      }
      var receipt := block(chain[found.value]).receipts[tx];
      return Answered(Some(ReceiptView(found.value, chain[found.value], receipt.success, receipt.logs)));
    }

    method GetTransaction(tx: TxHash) returns (a: Answer<Transaction>)
      modifies this
      ensures calls == old(calls) + 1 && (a.Failed? <==> fails(old(calls)))
      ensures a.Answered? ==> a.value == transaction(tx)
    {
      calls := calls + 1;
      return if fails(calls - 1) then Failed else Answered(transaction(tx));
    }

    method GetBlockNumber() returns (a: Answer<int>)
      modifies this
      ensures calls == old(calls) + 1 && (a.Failed? <==> fails(old(calls)))
      ensures a.Answered? ==> a.value == |history(readAt(old(calls)))| - 1
    {
      var now := readAt(calls);
      calls := calls + 1;
      return if fails(calls - 1) then Failed else Answered(|history(now)| - 1);
    }

    method GetBlock(n: nat) returns (a: Answer<Option<BlockHash>>)
      modifies this
      ensures calls == old(calls) + 1 && (a.Failed? <==> fails(old(calls)))
      ensures a.Answered? ==>
                var chain := history(readAt(old(calls)));
                a.value == if n < |chain| then Some(chain[n]) else None
    {
      var chain := history(readAt(calls));
      calls := calls + 1;
      return if fails(calls - 1) then Failed
             else Answered(if n < |chain| then Some(chain[n]) else None);
    }

    method GetErc20Balance(token: Address, owner: Address, n: nat) returns (a: Answer<nat>)
      modifies this
      ensures calls == old(calls) + 1 && (a.Failed? <==> Unread(old(calls), n))
      ensures a.Answered? ==>
                var chain := history(readAt(old(calls)));
                n < |chain| && a.value == block(chain[n]).balance(token, owner)
    {
      var chain := history(readAt(calls));
      calls := calls + 1;
      return if fails(calls - 1) || n >= |chain| then Failed
             else Answered(block(chain[n]).balance(token, owner));
    }

    method GetErc721Owner(collection: Address, tokenId: nat, n: nat) returns (a: Answer<Address>)
      modifies this
      ensures calls == old(calls) + 1 && (a.Failed? <==> Unread(old(calls), n))
      ensures a.Answered? ==>
                var chain := history(readAt(old(calls)));
                n < |chain| && a.value == block(chain[n]).owner(collection, tokenId)
    {
      var chain := history(readAt(calls));
      calls := calls + 1;
      return if fails(calls - 1) || n >= |chain| then Failed
             else Answered(block(chain[n]).owner(collection, tokenId));
    }
  }

  // ----- the buyer report verifier

  /** The committed transfer of a signing package. */
  datatype Package =
    | TokenPackage(token: Address, amount: nat, source: Address, destination: Address)
    | NftPackage(collection: Address, tokenId: nat, source: Address, destination: Address)

  predicate IsCommittedTransfer(p: Package, log: Log) {
    match p
    case TokenPackage(token, amount, source, destination) =>
      log == Erc20Transfer(token, source, destination, amount)
    case NftPackage(collection, tokenId, source, destination) =>
      log == Erc721Transfer(collection, source, destination, tokenId)
  }

  /** The state the package promises, as block `b` left it. */
  ghost predicate Settled(p: Package, b: Block) {
    match p
    case TokenPackage(token, amount, source, destination) => b.balance(token, destination) >= amount
    case NftPackage(collection, tokenId, source, destination) => b.owner(collection, tokenId) == destination
  }

  datatype Verdict = Completed | Pending | Reverted | Rejected | Unavailable

  datatype Check = Passed | NotFinal | ReadFailed

  /** Reads the head and the block in parallel, so in either order. */
  method AssertCanonicalFinality(node: Node, m: nat, n: nat, hash: BlockHash)
    returns (c: Check, ghost headRead: nat, ghost blockRead: nat)
    requires m >= 1
    modifies node
    ensures node.calls == old(node.calls) + 2
    ensures {headRead, blockRead} == {old(node.calls), old(node.calls) + 1}
    ensures c.ReadFailed? <==> node.fails(headRead) || node.fails(blockRead)
    ensures !c.ReadFailed? ==>
              (c.Passed? <==> CheckPasses(node.history, m, node.readAt(headRead), node.readAt(blockRead), n, hash))
  {
    var head: Answer<int>;
    var canonical: Answer<Option<BlockHash>>;
    if * {
      headRead, blockRead := node.calls, node.calls + 1;
      head := node.GetBlockNumber();
      canonical := node.GetBlock(n);
    } else {
      headRead, blockRead := node.calls + 1, node.calls;
      canonical := node.GetBlock(n);
      head := node.GetBlockNumber();
    }
    if head.Failed? || canonical.Failed? {
      return ReadFailed, headRead, blockRead;
    }
    var confirmations := if head.value >= n then head.value - n + 1 else 0;
    if confirmations < m || canonical.value.None? || canonical.value.value != hash {
      return NotFinal, headRead, blockRead;
    }
    return Passed, headRead, blockRead;
  }

  predicate HoldsTransfer(p: Package, logs: seq<Log>) {
    exists i :: 0 <= i < |logs| && IsCommittedTransfer(p, logs[i])
  }

  /** The transaction succeeded in a block that holds the committed transfer, left the promised
      state and is canonical from `t` on. */
  ghost predicate Proven(history: History, block: BlockHash -> Block, p: Package, tx: TxHash, t: nat) {
    exists n: nat, hash: BlockHash ::
      && FinalFrom(history, t, n, hash)
      && var b := block(hash);
         && tx in b.receipts && b.receipts[tx].success && HoldsTransfer(p, b.receipts[tx].logs)
         && Settled(p, b)
  }

  /** What the verifier has read when it completes amounts to a proof, from its first head read on. */
  lemma CompletedIsProven(history: History, block: BlockHash -> Block, m: nat, p: Package, tx: TxHash, v: ReceiptView,
                          head1: nat, block1: nat, state: nat, head2: nat, block2: nat)
    requires m >= 1 && Legal(history, m) && head1 <= state && head1 <= block2
    requires CheckPasses(history, m, head1, block1, v.blockNumber, v.blockHash)
    requires CheckPasses(history, m, head2, block2, v.blockNumber, v.blockHash)
    requires TrueView(v, tx, block) && v.success && HoldsTransfer(p, v.logs)
    requires v.blockNumber < |history(state)| && Settled(p, block(history(state)[v.blockNumber]))
    ensures Proven(history, block, p, tx, head1)
  {
    TwoChecksAreFinal(history, m, head1, block1, head2, block2, v.blockNumber, v.blockHash);
    assert CanonicalAt(history(state), v.blockNumber, v.blockHash);
  }

  /** The finality checks of a verification, as (head read, block read), the receipt they checked and
      the read of the state in between. */
  datatype Trace = Trace(receipt: Option<ReceiptView>, checks: seq<(nat, nat)>, state: Option<nat>)

  ghost predicate Passes(node: Node, m: nat, v: ReceiptView, check: (nat, nat)) {
    CheckPasses(node.history, m, node.readAt(check.0), node.readAt(check.1), v.blockNumber, v.blockHash)
  }

  /** All these reads are among those from `first` to before `last`. */
  predicate Within(trace: Trace, first: nat, last: nat) {
    && (forall i :: 0 <= i < |trace.checks| ==> first <= trace.checks[i].0 < last && first <= trace.checks[i].1 < last)
    && (trace.state.Some? ==> first <= trace.state.value < last)
  }

  /** Read k showed this receipt. */
  ghost predicate Seen(node: Node, tx: TxHash, v: ReceiptView, k: nat) {
    TrueView(v, tx, node.block) && CanonicalAt(node.history(node.readAt(k)), v.blockNumber, v.blockHash)
  }

  /** One of the first two reads showed this receipt. */
  ghost predicate SeenFirst(node: Node, tx: TxHash, v: ReceiptView, first: nat) {
    Seen(node, tx, v, first) || Seen(node, tx, v, first + 1)
  }

  /** One passed check, the only one made so far. */
  ghost predicate PassedOnce(node: Node, m: nat, tx: TxHash, trace: Trace) {
    && trace.receipt.Some? && |trace.checks| == 1
    && TrueView(trace.receipt.value, tx, node.block) && Passes(node, m, trace.receipt.value, trace.checks[0])
  }

  /** The state read did not find what the package promises. */
  ghost predicate NotSettled(node: Node, p: Package, trace: Trace) {
    trace.receipt.Some? && trace.state.Some?
    && var chain, n := node.history(node.readAt(trace.state.value)), trace.receipt.value.blockNumber;
       n < |chain| && !Settled(p, node.block(chain[n]))
  }

  /** What each verdict rests on; the receipt is read at `first` or next. */
  ghost predicate VerdictHolds(node: Node, m: nat, p: Package, hashes: seq<TxHash>, matches: (Package, Transaction) -> bool,
                               v: Verdict, trace: Trace, first: nat)
    reads node
  {
    match v
    case Unavailable =>
      && |hashes| == 1
      && (trace.receipt.Some? ==> SeenFirst(node, hashes[0], trace.receipt.value, first))
      && exists k :: first <= k < node.calls
                     && (node.fails(k) || (trace.receipt.Some? && node.Unread(k, trace.receipt.value.blockNumber)))
    case Pending =>
      && |hashes| == 1 && first + 1 < node.calls
      && if trace.receipt.None? then exists k :: first <= k <= first + 1 && NotIncluded(node.history(node.readAt(k)), node.block, hashes[0])
         else
           && trace.checks != [] && SeenFirst(node, hashes[0], trace.receipt.value, first)
           && !Passes(node, m, trace.receipt.value, trace.checks[|trace.checks| - 1])
    case Reverted =>
      && |hashes| == 1 && PassedOnce(node, m, hashes[0], trace) && !trace.receipt.value.success
    case Rejected =>
      || |hashes| != 1
      || (PassedOnce(node, m, hashes[0], trace) && trace.receipt.value.success
          && (|| !matches(p, node.transaction(hashes[0]))
              || !HoldsTransfer(p, trace.receipt.value.logs) || NotSettled(node, p, trace)))
    case Completed =>
      && |hashes| == 1 && matches(p, node.transaction(hashes[0])) && |trace.checks| == 2
      && Proven(node.history, node.block, p, hashes[0], node.readAt(trace.checks[0].0))
  }

  /** A reverted verdict is final when its single check happened to read the head first. */
  lemma RevertedIsFinalIfHeadFirst(node: Node, m: nat, tx: TxHash, trace: Trace)
    requires m >= 1 && Legal(node.history, m) && PassedOnce(node, m, tx, trace)
    requires node.readAt(trace.checks[0].0) <= node.readAt(trace.checks[0].1)
    ensures FinalFrom(node.history, node.readAt(trace.checks[0].0), trace.receipt.value.blockNumber, trace.receipt.value.blockHash)
  {
    HeadFirstIsFinal(node.history, m, node.readAt(trace.checks[0].0), node.readAt(trace.checks[0].1),
                     trace.receipt.value.blockNumber, trace.receipt.value.blockHash);
  }

  /** The receipt and the transaction, read in parallel. */
  method FetchReceipt(node: Node, tx: TxHash)
    returns (receipt: Answer<Option<ReceiptView>>, transaction: Answer<Transaction>)
    modifies node
    ensures node.calls == old(node.calls) + 2
    ensures receipt.Failed? || transaction.Failed? ==> node.fails(old(node.calls)) || node.fails(old(node.calls) + 1)
    ensures receipt.Answered? && receipt.value.Some? ==>
              TrueView(receipt.value.value, tx, node.block) && SeenFirst(node, tx, receipt.value.value, old(node.calls))
    ensures receipt.Answered? && receipt.value.None? ==>
              exists k :: old(node.calls) <= k <= old(node.calls) + 1 && NotIncluded(node.history(node.readAt(k)), node.block, tx)
    ensures transaction.Answered? ==> transaction.value == node.transaction(tx)
  {
    if * {
      receipt := node.GetReceipt(tx);
      transaction := node.GetTransaction(tx);
    } else {
      transaction := node.GetTransaction(tx);
      receipt := node.GetReceipt(tx);
    }
  }

  /** Reads the destination's balance or the token's owner in block `n`. */
  method ReadState(node: Node, p: Package, n: nat) returns (a: Answer<bool>)
    modifies node
    ensures node.calls == old(node.calls) + 1 && (a.Failed? <==> node.Unread(old(node.calls), n))
    ensures a.Answered? ==>
              var chain := node.history(node.readAt(old(node.calls)));
              n < |chain| && (a.value <==> Settled(p, node.block(chain[n])))
  {
    match p {
      case NftPackage(collection, tokenId, source, destination) =>
        var owner := node.GetErc721Owner(collection, tokenId, n);
        return if owner.Failed? then Failed else Answered(owner.value == destination);
      case TokenPackage(token, amount, source, destination) =>
        var balance := node.GetErc20Balance(token, destination, n);
        return if balance.Failed? then Failed else Answered(balance.value >= amount);
    }
  }

  /** The state and the second check, for a receipt that has passed everything else. */
  method Confirm(node: Node, m: nat, p: Package, tx: TxHash, receipt: ReceiptView, ghost first: (nat, nat))
    returns (v: Verdict, ghost done: Trace)
    requires m >= 1 && Legal(node.history, m) && node.Ordered()
    requires TrueView(receipt, tx, node.block) && receipt.success && HoldsTransfer(p, receipt.logs)
    requires Passes(node, m, receipt, first) && first.0 < node.calls && first.1 < node.calls
    modifies node
    ensures forall start: nat :: start <= first.0 && start <= first.1 ==> Within(done, start, node.calls)
    ensures !v.Reverted? && done.receipt == Some(receipt) && node.calls > old(node.calls)
    ensures v.Unavailable? ==>
              exists k :: old(node.calls) <= k < node.calls && (node.fails(k) || node.Unread(k, receipt.blockNumber))
    ensures v.Rejected? ==> done.checks == [first] && NotSettled(node, p, done)
    ensures v.Pending? ==> |done.checks| == 2 && !Passes(node, m, receipt, done.checks[1])
    ensures v.Completed? ==>
              && |done.checks| == 2 && done.checks[0] == first
              && Proven(node.history, node.block, p, tx, node.readAt(first.0))
  {
    ghost var stateRead := node.calls;
    done := Trace(Some(receipt), [first], Some(stateRead));
    var state := ReadState(node, p, receipt.blockNumber);
    if state.Failed? {
      return Unavailable, done;
    }
    if !state.value {
      return Rejected, done;
    }
    var again, head, block := AssertCanonicalFinality(node, m, receipt.blockNumber, receipt.blockHash);
    done := done.(checks := [first, (head, block)]);
    if !again.Passed? {
      return if again.NotFinal? then Pending else Unavailable, done;
    }
    CompletedIsProven(node.history, node.block, m, p, tx, receipt, node.readAt(first.0), node.readAt(first.1),
                      node.readAt(stateRead), node.readAt(head), node.readAt(block));
    return Completed, done;
  }

  /** `matches` stands for the check of sender, target and calldata against the package
      (apps/web/src/lib/buyer-receipt-registration.ts), kept opaque. A completed verdict
      is final although each check reads the head and the block in either order. */
  method Verify(node: Node, m: nat, p: Package, hashes: seq<TxHash>, matches: (Package, Transaction) -> bool)
    returns (v: Verdict, ghost trace: Trace)
    requires m >= 1 && Legal(node.history, m) && node.Ordered()
    modifies node
    ensures VerdictHolds(node, m, p, hashes, matches, v, trace, old(node.calls))
    ensures node.calls >= old(node.calls) && Within(trace, old(node.calls), node.calls)
  {
    trace := Trace(None, [], None);
    if |hashes| != 1 {
      return Rejected, trace;
    }
    var receiptAnswer, transactionAnswer := FetchReceipt(node, hashes[0]);
    if receiptAnswer.Answered? && receiptAnswer.value.None? {
      // When the other read fails as well, whichever answer arrives first decides.
      var second := *;
      if transactionAnswer.Failed? && second {
        return Unavailable, trace;
      }
      return Pending, trace;
    }
    if receiptAnswer.Failed? || transactionAnswer.Failed? {
      return Unavailable, trace;
    }
    var receipt := receiptAnswer.value.value;
    var check, head, block := AssertCanonicalFinality(node, m, receipt.blockNumber, receipt.blockHash);
    trace := Trace(Some(receipt), [(head, block)], None);
    if !check.Passed? {
      return if check.NotFinal? then Pending else Unavailable, trace;
    }
    if !receipt.success {
      return Reverted, trace;
    }
    if !matches(p, transactionAnswer.value) || !HoldsTransfer(p, receipt.logs) {
      return Rejected, trace;
    }
    v, trace := Confirm(node, m, p, hashes[0], receipt, (head, block));
  }

  // ----- waiting for a receipt

  datatype Confirmation = Confirmation(
    blockNumber: nat, blockHash: BlockHash, success: bool, confirmations: nat)

  datatype Wait = Observed(confirmation: Confirmation) | TimedOut | ProviderError

  /** The observed block really includes the transaction, with this status. */
  ghost predicate Includes(node: Node, tx: TxHash, c: Confirmation) {
    var b := node.block(c.blockHash);
    tx in b.receipts && b.receipts[tx].success == c.success
  }

  /** One poll through the wallet's own provider: receipt, head, block and a refreshed receipt, one
      after the other. TimedOut asks for another poll. */
  method PollProvider(node: Node, tx: TxHash, m: nat) returns (w: Wait)
    requires m >= 1 && Legal(node.history, m) && node.Ordered()
    modifies node
    ensures w.Observed? ==>
              && node.calls > 0 && Includes(node, tx, w.confirmation)
              && w.confirmation.confirmations >= m
              && FinalFrom(node.history, node.readAt(node.calls - 1), w.confirmation.blockNumber, w.confirmation.blockHash)
  {
    var first := node.GetReceipt(tx);
    if first.Failed? {
      return ProviderError;
    }
    if first.value.None? {
      return TimedOut;
    }
    var receipt := first.value.value;
    var head := node.GetBlockNumber();
    if head.Failed? {
      return ProviderError;
    }
    ghost var headRead := node.calls - 1;
    var confirmations := if head.value >= receipt.blockNumber then head.value - receipt.blockNumber + 1 else 0;
    if confirmations < m {
      return TimedOut;
    }
    var canonical := node.GetBlock(receipt.blockNumber);
    if canonical.Failed? {
      return ProviderError;
    }
    ghost var blockRead := node.calls - 1;
    var refreshed := node.GetReceipt(tx);
    if refreshed.Failed? {
      return ProviderError;
    }
    if canonical.value.None? || canonical.value.value != receipt.blockHash
       || refreshed.value.None? || refreshed.value.value.blockHash != receipt.blockHash
       || refreshed.value.value.blockNumber != receipt.blockNumber {
      return TimedOut;
    }
    DeepIsFinal(node.history, m, node.readAt(headRead), node.readAt(blockRead), node.readAt(node.calls - 1),
                receipt.blockNumber, receipt.blockHash);
    return Observed(Confirmation(receipt.blockNumber, receipt.blockHash, receipt.success, confirmations));
  }

  /** Polling through the wallet's own provider (eip1193.ts); a failed read ends the wait. */
  method WaitForReceipt(node: Node, tx: TxHash, m: nat, maximumPolls: nat) returns (w: Wait)
    requires m >= 1 && Legal(node.history, m) && node.Ordered()
    modifies node
    ensures w.Observed? ==>
              && node.calls > 0 && Includes(node, tx, w.confirmation)
              && w.confirmation.confirmations >= m
              && FinalFrom(node.history, node.readAt(node.calls - 1), w.confirmation.blockNumber, w.confirmation.blockHash)
  {
    for attempt := 0 to maximumPolls {
      w := PollProvider(node, tx, m);
      if !w.TimedOut? {
        return w;
      }
    }
    return TimedOut;
  }

  /** The block and the receipt, read in parallel; `blockRead` is the read of the block. */
  method BlockAndReceipt(node: Node, n: nat, tx: TxHash)
    returns (canonical: Answer<Option<BlockHash>>, refreshed: Answer<Option<ReceiptView>>, ghost blockRead: nat)
    modifies node
    ensures node.calls == old(node.calls) + 2 && old(node.calls) <= blockRead < node.calls
    ensures canonical.Answered? && canonical.value.Some? ==>
              CanonicalAt(node.history(node.readAt(blockRead)), n, canonical.value.value)
    ensures refreshed.Answered? && refreshed.value.Some? ==> TrueView(refreshed.value.value, tx, node.block)
  {
    if * {
      blockRead := node.calls;
      canonical := node.GetBlock(n);
      refreshed := node.GetReceipt(tx);
    } else {
      refreshed := node.GetReceipt(tx);
      blockRead := node.calls;
      canonical := node.GetBlock(n);
    }
  }

  /** One poll through the RPC client; None asks for another one. The block and the refreshed
      receipt are read in parallel. */
  method Poll(node: Node, tx: TxHash, m: nat, depth: nat) returns (c: Option<Confirmation>)
    requires m >= 1 && Legal(node.history, m) && node.Ordered()
    modifies node
    ensures c.Some? ==> node.calls > 0 && Includes(node, tx, c.value) && c.value.confirmations >= depth
    ensures c.Some? && depth >= m ==> FinalFrom(node.history, node.readAt(node.calls - 1), c.value.blockNumber, c.value.blockHash)
  {
    var offset := (if depth > 1 then depth else 1) - 1;
    var candidate := node.GetReceipt(tx);
    if candidate.Failed? || candidate.value.None? {
      return None;
    }
    var receipt := candidate.value.value;
    var head := node.GetBlockNumber();
    if head.Failed? || head.value < receipt.blockNumber + offset {
      return None;
    }
    ghost var headRead := node.calls - 1;
    var canonical, refreshed, blockRead := BlockAndReceipt(node, receipt.blockNumber, tx);
    if canonical.Failed? || refreshed.Failed? || canonical.value.None? || refreshed.value.None?
       || canonical.value.value != receipt.blockHash
       || refreshed.value.value.blockHash != receipt.blockHash
       || refreshed.value.value.blockNumber != receipt.blockNumber {
      return None;
    }
    if depth >= m {
      DeepIsFinal(node.history, m, node.readAt(headRead), node.readAt(blockRead), node.readAt(node.calls - 1),
                  receipt.blockNumber, receipt.blockHash);
    }
    return Some(Confirmation(receipt.blockNumber, receipt.blockHash, refreshed.value.value.success,
                             head.value - receipt.blockNumber + 1));
  }

  lemma DeepIsFinal(history: History, m: nat, head: nat, block: nat, last: nat, n: nat, hash: BlockHash)
    requires m >= 1 && Legal(history, m) && head <= block && head <= last
    requires CheckPasses(history, m, head, block, n, hash)
    ensures FinalFrom(history, last, n, hash)
  {
    HeadFirstIsFinal(history, m, head, block, n, hash);
  }

  /** Polling through the RPC client (eip7702-viem.ts): a failed read is only another poll. `polls` is
      the number of polls that fit before the deadline; `depth` is 1 for inclusion and the policy's
      minimum for a final receipt. */
  method WaitForCanonicalReceipt(node: Node, tx: TxHash, m: nat, depth: nat, polls: nat) returns (w: Wait)
    requires m >= 1 && Legal(node.history, m) && node.Ordered()
    modifies node
    ensures w.Observed? ==>
              && node.calls > 0 && Includes(node, tx, w.confirmation)
              && w.confirmation.confirmations >= depth
    ensures w.Observed? && depth >= m ==>
              FinalFrom(node.history, node.readAt(node.calls - 1), w.confirmation.blockNumber, w.confirmation.blockHash)
  {
    for poll := 0 to polls {
      var confirmation := Poll(node, tx, m, depth);
      if confirmation.Some? {
        return Observed(confirmation.value);
      }
    }
    return TimedOut;
  }
}
