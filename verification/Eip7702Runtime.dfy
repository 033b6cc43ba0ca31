/** The local EIP-7702 rescue runtime (packages/buyer-runtime/src/eip7702-runtime.ts):
    provision, authorize, execute one action after the other, and always clear the delegation. */
module Eip7702Runtime {
  import opened Basics
  import opened Eip7702Account
  import RescueDelegate

  const MAXIMUM_PACKAGE_WINDOW_MS: int := 15 * 60 * 1000

  datatype ErrorCode =
    | PackageExpired | DestinationMismatch | ChainMismatch | SourceMismatch | StaleSourceNonce
    | FactoryMismatch | DelegateMismatch | SourceAlreadyDelegated | InvalidAuthorization
    | InvalidHandle | InvalidConfirmation | DeploymentFailed | SubmissionFailed | DelegationNotCleared

  /** An error of the runtime itself, or whatever a port threw. */
  datatype Failure = Raised(code: ErrorCode, transactionHashes: seq<string>) | Foreign(detail: string)

  datatype DelegateState = DelegateState(
    chainId: nat, sourceAddress: string, destinationAddress: string, deadline: int,
    planHash: string, rescueNonce: string)

  datatype Package = Package(
    packageId: string, planHash: string, chainId: nat, sourceAddress: string, destinationAddress: string,
    expiresAt: int, deadline: int, sourceNonce: nat, rescueNonce: string, delegatePlanHash: string,
    factoryAddress: string, factoryRuntimeHash: string, delegateAddress: string,
    actionIds: seq<string>, actions: seq<string>, executionIndexes: seq<nat>)

  /** What the package schema guarantees about indexes
      (packages/agent-service/src/eip7702-signing-package.ts:144-200). */
  ghost predicate Parsed(p: Package) {
    |p.actionIds| == |p.actions| == |p.executionIndexes| && 0 < |p.actions| <= RescueDelegate.MAX_ACTIONS
    && forall i :: 0 <= i < |p.executionIndexes| ==> p.executionIndexes[i] == i
  }

  /** Calldata as the injective encoding it is: execute(actions, indexes), or empty. */
  datatype CallData = ExecuteCall(actions: seq<string>, indexes: seq<nat>) | Empty

  datatype Purpose = RescueAction | ClearDelegation

  datatype Request = Request(
    purpose: Purpose, chainId: nat, from: string, to: string, value: nat, data: CallData,
    authorizationList: Option<seq<Authorization>>, actionIndex: Option<nat>)

  datatype Inspection = Inspection(
    sourceNonce: nat, sourceCode: string, factoryRuntimeHash: string,
    predictedDelegateAddress: string, delegateState: Option<DelegateState>)

  datatype Receipt = Receipt(confirmed: bool, transactionHashes: seq<string>)

  // ----- the destination transport

  datatype Reply<T> = Reply(value: T) | Throws(detail: string)

  /** What the transport saw of one execution. A submission that throws broadcast nothing. */
  datatype Event =
    | Simulated(request: Request, succeeded: bool)
    | Submitted(request: Request, hash: string)
    | Mined(hash: string, confirmed: bool)
    | Inspected(inspection: Inspection)
    | Deployed(hash: string)

  /** The events of one execution, the latest outermost. */
  datatype Log = Start | Then(before: Log, event: Event)

  /** The receipt is of this transaction. */
  ghost predicate Names(receipt: Receipt, hash: string) {
    exists h :: h in receipt.transactionHashes && Lower(h) == Lower(hash)
  }

  lemma NamesAt(receipt: Receipt, hash: string)
    ensures Names(receipt, hash) <==>
            exists i :: 0 <= i < |receipt.transactionHashes| && SameText(receipt.transactionHashes[i], hash)
  {
    if h :| h in receipt.transactionHashes && Lower(h) == Lower(hash) {
      var i :| 0 <= i < |receipt.transactionHashes| && receipt.transactionHashes[i] == h;
      assert SameText(receipt.transactionHashes[i], hash);
    }
  }

  /** The gas-paying account's connection; every reply is arbitrary. */
  class Transport {
    const addressReply: nat -> Reply<string>
    const chainReply: nat -> Reply<nat>
    const inspectReply: nat -> Reply<Inspection>
    const simulateReply: nat -> Reply<bool>
    const submitReply: nat -> Reply<string>
    const receiptReply: nat -> Reply<Receipt>
    const deployReply: nat -> Reply<string>
    var calls: nat
    ghost var log: Log

    constructor (addressReply: nat -> Reply<string>, chainReply: nat -> Reply<nat>,
                 inspectReply: nat -> Reply<Inspection>, simulateReply: nat -> Reply<bool>,
                 submitReply: nat -> Reply<string>, receiptReply: nat -> Reply<Receipt>, deployReply: nat -> Reply<string>)
      ensures log == Start
    {
      this.addressReply, this.chainReply, this.inspectReply := addressReply, chainReply, inspectReply;
      this.simulateReply, this.submitReply, this.receiptReply := simulateReply, submitReply, receiptReply;
      this.deployReply := deployReply;
      calls, log := 0, Start;
    }

    method GetAddress() returns (r: Reply<string>)
      modifies this
      ensures calls == old(calls) + 1
      ensures log == old(log) && r == addressReply(calls)
    {
      calls := calls + 1;
      r := addressReply(calls);
    }

    method GetChainId() returns (r: Reply<nat>)
      modifies this
      ensures calls == old(calls) + 1
      ensures log == old(log) && r == chainReply(calls)
    {
      calls := calls + 1;
      r := chainReply(calls);
    }

    method Inspect() returns (r: Reply<Inspection>)
      modifies this
      ensures calls == old(calls) + 1
      ensures r == inspectReply(calls) && log == if r.Reply? then Then(old(log), Inspected(r.value)) else old(log)
    {
      calls := calls + 1;
      r := inspectReply(calls);
      log := if r.Reply? then Then(log, Inspected(r.value)) else log;
    }

    method Simulate(request: Request) returns (r: Reply<bool>)
      modifies this
      ensures calls == old(calls) + 1
      ensures r == simulateReply(calls) && log == if r.Reply? then Then(old(log), Simulated(request, r.value)) else old(log)
    {
      calls := calls + 1;
      r := simulateReply(calls);
      log := if r.Reply? then Then(log, Simulated(request, r.value)) else log;
    }

    method Submit(request: Request) returns (r: Reply<string>)
      modifies this
      ensures calls == old(calls) + 1
      ensures r == submitReply(calls) && log == if r.Reply? then Then(old(log), Submitted(request, r.value)) else old(log)
    {
      calls := calls + 1;
      r := submitReply(calls);
      log := if r.Reply? then Then(log, Submitted(request, r.value)) else log;
    }

    method DeployDelegate() returns (r: Reply<string>)
      modifies this
      ensures calls == old(calls) + 1
      ensures r == deployReply(calls) && log == if r.Reply? then Then(old(log), Deployed(r.value)) else old(log)
    {
      calls := calls + 1;
      r := deployReply(calls);
      log := if r.Reply? then Then(log, Deployed(r.value)) else log;
    }

    /** waitForInclusion and waitForReceipt, together with the check that the receipt
        names the submitted hash (receiptForHash). */
    method WaitFor(hash: string) returns (r: Result<Receipt, Failure>)
      modifies this
      ensures calls == old(calls) + 1
      ensures log == if r.Ok? then Then(old(log), Mined(hash, r.value.confirmed)) else old(log)
      ensures r.Ok? ==> receiptReply(calls) == Reply(r.value)
      ensures r.Ok? <==> receiptReply(calls).Reply? && Names(receiptReply(calls).value, hash)
      ensures r.Err? && r.error.Raised? ==> r.error == Raised(SubmissionFailed, [hash])
    {
      calls := calls + 1;
      var reply := receiptReply(calls);
      if reply.Throws? {
        return Err(Foreign(reply.detail));
      }
      NamesAt(reply.value, hash);
      if !(exists i :: 0 <= i < |reply.value.transactionHashes| && SameText(reply.value.transactionHashes[i], hash)) {
        return Err(Raised(SubmissionFailed, [hash]));
      }
      log := Then(log, Mined(hash, reply.value.confirmed));
      return Ok(reply.value);
    }
  }

  /** The wallet has said that it is on the package's chain and pays from this account, another than the source. */
  ghost predicate Pays(destination: Transport, p: Package, payer: string) {
    && (exists n :: destination.chainReply(n) == Reply(p.chainId))
    && (exists n :: destination.addressReply(n).Reply? && SameText(destination.addressReply(n).value, payer))
    && !SameText(payer, p.sourceAddress)
  }

  /** The wallet has named another chain. */
  ghost predicate OnOtherChain(destination: Transport, p: Package) {
    exists n :: destination.chainReply(n).Reply? && destination.chainReply(n).value != p.chainId
  }

  /** The wallet pays from the source itself, or from another account than before. */
  ghost predicate WrongPayer(destination: Transport, p: Package, before: Option<string>) {
    exists n :: destination.addressReply(n).Reply?
                && (SameText(destination.addressReply(n).value, p.sourceAddress)
                    || (before.Some? && !SameText(destination.addressReply(n).value, before.value)))
  }

  // ----- requests

  function RescueRequest(p: Package, payer: string, index: nat, list: Option<seq<Authorization>>): Request {
    Request(RescueAction, p.chainId, payer, p.sourceAddress, 0, ExecuteCall(p.actions, [index]), list, Some(index))
  }

  function ClearRequest(p: Package, payer: string, revocation: Authorization): Request {
    Request(ClearDelegation, p.chainId, payer, p.sourceAddress, 0, Empty, Some([revocation]), None)
  }

  /** The actions a source runs when it is called with this data while it is delegated, if none of
      them has been run before; None when the delegate refuses the call. */
  function RunsWith(data: CallData): Option<seq<string>> {
    match data
    case Empty => Some([])
    case ExecuteCall(actions, indexes) =>
      if RescueDelegate.Selectable(|actions|, indexes, {}) then Some(RescueDelegate.Selected(actions, indexes)) else None
  }

  /** A call of the source, paid for by the payer, that runs exactly this one action of the package and
      moves no coin of the payer. */
  ghost predicate RunsAction(r: Request, s: AuthorizedState, index: nat) {
    && index < |s.package.actions|
    && r.chainId == s.package.chainId && r.from == s.payerAddress && r.to == s.package.sourceAddress && r.value == 0
    && r.data.ExecuteCall? && r.data.actions == s.package.actions && RunsWith(r.data) == Some([s.package.actions[index]])
  }

  /** A call of the source, paid for by the payer, that runs nothing and carries the revocation alone. */
  ghost predicate ClearsSource(r: Request, s: AuthorizedState) {
    && r.chainId == s.package.chainId && r.from == s.payerAddress && r.to == s.package.sourceAddress && r.value == 0
    && RunsWith(r.data) == Some([]) && r.data.Empty? && r.authorizationList == Some([s.revocation])
  }

  lemma RescueRequestRuns(s: AuthorizedState, index: nat, list: Option<seq<Authorization>>)
    requires Parsed(s.package) && index < |s.package.actions|
    ensures RunsAction(RescueRequest(s.package, s.payerAddress, index, list), s, index)
  {
    assert RescueDelegate.Selected(s.package.actions, [index]) == [s.package.actions[index]];
  }

  // ----- checks

  predicate Fresh(p: Package, now: int) {
    now < p.expiresAt <= now + MAXIMUM_PACKAGE_WINDOW_MS
  }

  /** The package has not expired, and expires within a quarter of an hour. */
  ghost predicate InWindow(p: Package, now: int) {
    p.expiresAt > now && p.expiresAt - now <= 15 * 60_000
  }

  datatype TrustedFactory = TrustedFactory(chainId: nat, address: string, runtimeHash: string)

  predicate UsesFactory(p: Package, f: TrustedFactory) {
    p.chainId == f.chainId && SameText(p.factoryAddress, f.address) && SameText(p.factoryRuntimeHash, f.runtimeHash)
  }

  /** What the buyer confirmed. */
  datatype Confirmation = Confirmation(
    packageId: string, planHash: string, chainId: nat, sourceAddress: string, destinationAddress: string)

  predicate Confirms(c: Confirmation, p: Package) {
    && c.packageId == p.packageId && SameText(c.planHash, p.planHash) && c.chainId == p.chainId
    && SameText(c.sourceAddress, p.sourceAddress) && SameText(c.destinationAddress, p.destinationAddress)
  }

  /** The package uses the pinned factory and no other. */
  ghost predicate OfFactory(p: Package, f: TrustedFactory) {
    p.chainId == f.chainId && Lower(p.factoryAddress) == Lower(f.address) && Lower(p.factoryRuntimeHash) == Lower(f.runtimeHash)
  }

  /** The buyer has confirmed this package, plan and chain, and both accounts. */
  ghost predicate ConfirmedBy(c: Confirmation, p: Package) {
    && p.packageId == c.packageId && p.chainId == c.chainId && Lower(p.planHash) == Lower(c.planHash)
    && Lower(p.sourceAddress) == Lower(c.sourceAddress) && Lower(p.destinationAddress) == Lower(c.destinationAddress)
  }

  function InitialSourceStateError(p: Package, i: Inspection): (r: Option<ErrorCode>)
    ensures r.None? <==> i.sourceNonce == p.sourceNonce && i.sourceCode == EMPTY_CODE
    ensures r.Some? ==> r.value == if i.sourceNonce == p.sourceNonce then SourceAlreadyDelegated else StaleSourceNonce
  {
    if i.sourceNonce != p.sourceNonce then Some(StaleSourceNonce)
    else if i.sourceCode != EMPTY_CODE then Some(SourceAlreadyDelegated)
    else None
  }

  function FactoryError(p: Package, i: Inspection): Option<ErrorCode> {
    if !SameText(i.factoryRuntimeHash, p.factoryRuntimeHash) then Some(FactoryMismatch)
    else if !SameText(i.predictedDelegateAddress, p.delegateAddress) then Some(DelegateMismatch)
    else None
  }

  /** All is as the package says, except that its delegate has not been deployed yet. */
  ghost predicate AwaitsDelegate(p: Package, i: Inspection) {
    && i.sourceNonce == p.sourceNonce && i.sourceCode == EMPTY_CODE && i.delegateState.None?
    && Lower(i.factoryRuntimeHash) == Lower(p.factoryRuntimeHash) && Lower(i.predictedDelegateAddress) == Lower(p.delegateAddress)
  }

  /** The delegate found is the one the package commits to. */
  ghost predicate CommitsTo(p: Package, d: DelegateState) {
    && d.chainId == p.chainId && d.deadline == p.deadline
    && Lower(d.sourceAddress) == Lower(p.sourceAddress) && Lower(d.destinationAddress) == Lower(p.destinationAddress)
    && Lower(d.planHash) == Lower(p.delegatePlanHash) && Lower(d.rescueNonce) == Lower(p.rescueNonce)
  }

  function DelegateStateError(p: Package, i: Inspection): (r: Option<ErrorCode>)
    ensures r.None? <==>
              && Lower(i.factoryRuntimeHash) == Lower(p.factoryRuntimeHash)
              && Lower(i.predictedDelegateAddress) == Lower(p.delegateAddress)
              && i.delegateState.Some? && CommitsTo(p, i.delegateState.value)
    ensures r.Some? ==>
              r.value == if Lower(i.factoryRuntimeHash) == Lower(p.factoryRuntimeHash) then DelegateMismatch else FactoryMismatch
  {
    if FactoryError(p, i).Some? then FactoryError(p, i)
    else match i.delegateState
         case None => Some(DelegateMismatch)
         case Some(d) =>
           if d.chainId != p.chainId || !SameText(d.sourceAddress, p.sourceAddress)
              || !SameText(d.destinationAddress, p.destinationAddress) || d.deadline != p.deadline
              || !SameText(d.planHash, p.delegatePlanHash) || !SameText(d.rescueNonce, p.rescueNonce)
           then Some(DelegateMismatch) else None
  }

  predicate SourceIsCanonicallyCleared(p: Package, i: Inspection) {
    i.sourceCode == EMPTY_CODE && i.sourceNonce >= p.sourceNonce + 2
  }

  // ----- reading a log

  ghost function RescueHashes(log: Log): seq<string> {
    match log
    case Start => []
    case Then(before, e) =>
      RescueHashes(before) + (if e.Submitted? && e.request.purpose.RescueAction? then [e.hash] else [])
  }

  ghost function ClearHash(log: Log): Option<string> {
    match log
    case Start => None
    case Then(before, e) =>
      if e.Submitted? && e.request.purpose.ClearDelegation? then Some(e.hash) else ClearHash(before)
  }

  /** How many indexes were simulated. */
  ghost function TriedCount(log: Log): nat {
    match log
    case Start => 0
    case Then(before, e) => TriedCount(before) + (if e.Simulated? then 1 else 0)
  }

  lemma EventCounts(log: Log, e: Event)
    ensures TriedCount(Then(log, e)) == TriedCount(log) + if e.Simulated? then 1 else 0
    ensures !e.Submitted? ==> RescueHashes(Then(log, e)) == RescueHashes(log) && ClearHash(Then(log, e)) == ClearHash(log)
    ensures e.Submitted? && e.request.purpose.RescueAction? ==>
              RescueHashes(Then(log, e)) == RescueHashes(log) + [e.hash] && ClearHash(Then(log, e)) == ClearHash(log)
  {}

  ghost predicate Occurs(e: Event, log: Log) {
    log.Then? && (log.event == e || Occurs(e, log.before))
  }

  ghost predicate Extends(log: Log, longer: Log) {
    log == longer || (longer.Then? && Extends(log, longer.before))
  }

  lemma {:induction false} OccursInExtension(e: Event, log: Log, longer: Log)
    requires Extends(log, longer) && Occurs(e, log)
    ensures Occurs(e, longer)
  {
    if log != longer {
      OccursInExtension(e, log, longer.before);
    }
  }

  lemma {:induction false} ExtendsTransitive(a: Log, b: Log, c: Log)
    requires Extends(a, b) && Extends(b, c)
    ensures Extends(a, c)
  {
    if b != c {
      ExtendsTransitive(a, b, c.before);
    }
  }

  /** The protocol, event by event: the next index is simulated with the delegation as long
      as nothing was submitted; a rescue request is submitted only right after the very same
      request simulated successfully; a clearing request only once, after a rescue request,
      and nothing is simulated or submitted after it. */
  ghost predicate Follows(log: Log, s: AuthorizedState) {
    match log
    case Start => true
    case Then(before, e) =>
      && Follows(before, s)
      && match e
         case Simulated(r, _) =>
           && ClearHash(before).None? && TriedCount(before) < |s.package.executionIndexes|
           && r == RescueRequest(s.package, s.payerAddress, s.package.executionIndexes[TriedCount(before)],
                                 if RescueHashes(before) == [] then Some([s.delegation]) else None)
         case Submitted(r, _) =>
           && ClearHash(before).None?
           && (if r.purpose.RescueAction? then before.Then? && before.event == Simulated(r, true)
               else RescueHashes(before) != [] && r == ClearRequest(s.package, s.payerAddress, s.revocation))
         case Mined(_, _) => true
         case Inspected(_) => true
         case Deployed(_) => false
  }

  ghost function Deployments(log: Log): seq<string> {
    match log
    case Start => []
    case Then(before, e) => Deployments(before) + (if e.Deployed? then [e.hash] else [])
  }

  /** Between the two logs nothing of a rescue was submitted. */
  ghost predicate Submitless(log: Log, longer: Log) {
    RescueHashes(longer) == RescueHashes(log) && ClearHash(longer) == ClearHash(log)
  }

  /** The last event is an inspection of an untouched source and of the delegate the package commits to. */
  ghost predicate ShowsReady(log: Log, p: Package) {
    && log.Then? && log.event.Inspected?
    && InitialSourceStateError(p, log.event.inspection).None? && DelegateStateError(p, log.event.inspection).None?
  }

  /** The last event is an inspection that shows this problem. */
  ghost predicate ShowsProblem(log: Log, p: Package, code: ErrorCode) {
    && log.Then? && log.event.Inspected?
    && (InitialSourceStateError(p, log.event.inspection) == Some(code) || DelegateStateError(p, log.event.inspection) == Some(code))
  }

  /** What the log shows when the preparation of the delegate ends with this error. */
  ghost predicate Prevents(log: Log, p: Package, code: ErrorCode) {
    match code
    case DeploymentFailed => exists hash :: Occurs(Mined(hash, false), log)
    case SubmissionFailed => Deployments(log) != []
    case _ => ShowsProblem(log, p, code)
  }

  /** The last event is an inspection that shows the source cleared. */
  ghost predicate ShowsCleared(log: Log, p: Package) {
    && log.Then? && log.event.Inspected?
    && log.event.inspection.sourceCode == EMPTY_CODE && log.event.inspection.sourceNonce >= p.sourceNonce + 2
  }

  /** The n-th answer is an inspection that shows the source cleared. */
  ghost predicate RepliesCleared(s: AuthorizedState, n: int) {
    && n >= 0 && s.destination.inspectReply(n).Reply?
    && s.destination.inspectReply(n).value.sourceCode == EMPTY_CODE
    && s.destination.inspectReply(n).value.sourceNonce >= s.package.sourceNonce + 2
  }

  /** The inspection made last did not show the source cleared, and neither did the one before it, made
      after the clearing request. */
  ghost predicate StaysUncleared(s: AuthorizedState)
    reads s.destination
  {
    && !RepliesCleared(s, s.destination.calls)
    && (ClearHash(s.destination.log).Some? ==> !RepliesCleared(s, s.destination.calls - 1))
  }

  /** The protocol is followed and the clearing step has not begun. */
  ghost predicate Rescuing(s: AuthorizedState, log: Log) {
    Follows(log, s) && ClearHash(log).None?
  }

  ghost predicate ShowsDelegated(log: Log, p: Package) {
    log.Then? && log.event.Inspected?
    && log.event.inspection.sourceNonce == p.sourceNonce + 1
    && SameText(log.event.inspection.sourceCode, DelegationCode(p.delegateAddress))
  }

  /** All went as it should: the first inspection showed the source ready, and every action tried so far
      has failed its simulation, or was submitted, mined, and followed by an inspection of the
      delegated source. */
  ghost predicate Clean(log: Log, s: AuthorizedState) {
    match log
    case Start => false
    case Then(before, Simulated(_, succeeded)) => !succeeded && Clean(before, s)
    case Then(before, Inspected(_)) =>
      if before.Start? then ShowsReady(log, s.package)
      else ShowsDelegated(log, s.package) && EndsMined(before) && Clean(before.before.before.before, s)
    case Then(_, _) => false
  }

  /** The last events are those of one rescue request that was simulated, submitted and mined. */
  ghost predicate EndsMined(log: Log) {
    && log.Then? && log.event.Mined? && log.before.Then? && log.before.event.Submitted?
    && log.before.event.request.purpose.RescueAction? && log.before.event.hash == log.event.hash
    && log.before.before.Then? && log.before.before.event == Simulated(log.before.event.request, true)
  }

  /** At some point all had gone as it should with every action of the package. */
  ghost predicate AllTried(log: Log, s: AuthorizedState) {
    || (Clean(log, s) && TriedCount(log) == |s.package.executionIndexes|)
    || (log.Then? && AllTried(log.before, s))
  }

  lemma {:induction false} AllTriedCounts(log: Log, s: AuthorizedState)
    requires AllTried(log, s)
    ensures TriedCount(log) >= |s.package.executionIndexes|
  {
    if !(Clean(log, s) && TriedCount(log) == |s.package.executionIndexes|) {
      AllTriedCounts(log.before, s);
    }
  }

  lemma NotYetAllTried(log: Log, s: AuthorizedState)
    requires TriedCount(log) < |s.package.executionIndexes|
    ensures !AllTried(log, s)
  {
    if AllTried(log, s) {
      AllTriedCounts(log, s);
    }
  }

  /** An action that is not seen through leaves the log unclean. */
  lemma StepsNotClean(log: Log, s: AuthorizedState, r: Request)
    requires !AllTried(log, s)
    ensures !AllTried(Then(log, Simulated(r, true)), s)
    ensures forall h :: !AllTried(Then(Then(log, Simulated(r, true)), Submitted(r, h)), s)
    ensures forall h, c :: !AllTried(Then(Then(Then(log, Simulated(r, true)), Submitted(r, h)), Mined(h, c)), s)
  {}

  lemma StepEnds(log: Log, s: AuthorizedState, r: Request, h: string, c: bool, i: Inspection)
    requires !AllTried(log, s) && Clean(log, s) && r.purpose.RescueAction?
    ensures var after := Then(Then(Then(Then(log, Simulated(r, true)), Submitted(r, h)), Mined(h, c)), Inspected(i));
            if ShowsDelegated(after, s.package) then Clean(after, s) else !AllTried(after, s)
  {
    StepsNotClean(log, s, r);
  }

  lemma CleanIsNotCleared(log: Log, s: AuthorizedState)
    requires Clean(log, s) && RescueHashes(log) != []
    ensures !ShowsCleared(log, s.package)
  {}

  /** The transaction's receipt is of another one, or the inspection after it did not show the delegated source. */
  ghost predicate FailsWith(failure: Failure, hash: string, log: Log, p: Package) {
    || failure == Raised(SubmissionFailed, [hash])
    || (failure == Raised(DelegateMismatch, []) && ShowsNotDelegated(log, p))
  }

  ghost predicate ShowsNotDelegated(log: Log, p: Package) {
    log.Then? && log.event.Inspected? && !ShowsDelegated(log, p)
  }

  /** What has happened when the rescue loop ends with this error of the runtime. */
  ghost predicate LoopRaises(failure: Failure, hashes: seq<string>, log: Log, p: Package, now: int)
    requires failure.Raised?
  {
    match failure.code
    case PackageExpired => !InWindow(p, now)
    case SubmissionFailed => hashes != [] && failure.transactionHashes == [hashes[|hashes| - 1]]
    case DelegateMismatch => hashes != [] && failure.transactionHashes == hashes && ShowsNotDelegated(log, p)
    case _ => false
  }

  // ----- results

  datatype OutcomeStatus = Completed | SimulationFailed | TransactionReverted

  datatype Outcome = Outcome(actionId: string, actionIndex: nat, status: OutcomeStatus, transactionHash: Option<string>)

  datatype ResultStatus = AllCompleted | Partial | NoneCompleted

  datatype ExecutionResult = ExecutionResult(
    packageId: string, status: ResultStatus, rescueTransactionHashes: seq<string>,
    clearTransactionHash: Option<string>, outcomes: seq<Outcome>)

  function OutcomeHashes(outcomes: seq<Outcome>): seq<string> {
    if outcomes == [] then []
    else OutcomeHashes(outcomes[..|outcomes| - 1])
         + (match outcomes[|outcomes| - 1].transactionHash case None => [] case Some(h) => [h])
  }

  function CompletedCount(outcomes: seq<Outcome>): nat {
    |Filter((o: Outcome) => o.status.Completed?, outcomes)|
  }

  function StatusFor(outcomes: seq<Outcome>): ResultStatus {
    var completed := CompletedCount(outcomes);
    if completed == |outcomes| && completed > 0 then AllCompleted
    else if completed > 0 then Partial
    else NoneCompleted
  }

  /** What the result status says about the individual outcomes. */
  lemma {:induction false} StatusMeaning(outcomes: seq<Outcome>)
    ensures CompletedCount(outcomes) == |outcomes| <==> forall o :: o in outcomes ==> o.status.Completed?
    ensures StatusFor(outcomes).AllCompleted? <==> outcomes != [] && forall o :: o in outcomes ==> o.status.Completed?
    ensures StatusFor(outcomes).NoneCompleted? <==> forall o :: o in outcomes ==> !o.status.Completed?
  {
    var keep := (o: Outcome) => o.status.Completed?;
    var kept := Filter(keep, outcomes);
    if outcomes == [] {
    } else {
      StatusMeaning(outcomes[1..]);
      assert forall o :: o in outcomes <==> o == outcomes[0] || o in outcomes[1..];
    }
    if kept != [] {
      assert kept[0] in kept;
    }
    assert kept == [] ==> forall o :: o in outcomes ==> o !in kept;
  }

  /** A transaction that runs exactly this action was submitted under the hash. */
  ghost predicate SubmittedFor(log: Log, s: AuthorizedState, index: nat, hash: string) {
    exists r :: RunsAction(r, s, index) && Occurs(Submitted(r, hash), log)
  }

  /** A call that runs exactly this action was simulated and failed. */
  ghost predicate SimulatedInVain(log: Log, s: AuthorizedState, index: nat) {
    exists r :: RunsAction(r, s, index) && Occurs(Simulated(r, false), log)
  }

  /** The outcome reports what the log shows of this very action: a hash exactly when it was
      submitted, and completion exactly when that transaction was mined as confirmed. */
  ghost predicate Reports(o: Outcome, s: AuthorizedState, index: nat, log: Log) {
    && o.actionIndex == index && index < |s.package.actionIds| && o.actionId == s.package.actionIds[index]
    && (o.transactionHash.None? <==> o.status.SimulationFailed?)
    && (o.transactionHash.None? ==> SimulatedInVain(log, s, index))
    && (o.transactionHash.Some? ==>
          && SubmittedFor(log, s, index, o.transactionHash.value)
          && Occurs(Mined(o.transactionHash.value, o.status.Completed?), log))
  }

  lemma SubmittedReports(log: Log, s: AuthorizedState, index: nat, r: Request, hash: string, confirmed: bool)
    requires Parsed(s.package) && RunsAction(r, s, index)
    ensures Reports(Outcome(s.package.actionIds[index], index, if confirmed then Completed else TransactionReverted, Some(hash)),
                    s, index, Then(Then(log, Submitted(r, hash)), Mined(hash, confirmed)))
  {
    assert Occurs(Submitted(r, hash), Then(Then(log, Submitted(r, hash)), Mined(hash, confirmed)));
  }

  lemma ReportsGrows(o: Outcome, s: AuthorizedState, index: nat, log: Log, longer: Log)
    requires Reports(o, s, index, log) && Extends(log, longer)
    ensures Reports(o, s, index, longer)
  {
    if o.transactionHash.Some? {
      OccursInExtension(Mined(o.transactionHash.value, o.status.Completed?), log, longer);
      var r :| RunsAction(r, s, index) && Occurs(Submitted(r, o.transactionHash.value), log);
      OccursInExtension(Submitted(r, o.transactionHash.value), log, longer);
    } else {
      var r :| RunsAction(r, s, index) && Occurs(Simulated(r, false), log);
      OccursInExtension(Simulated(r, false), log, longer);
    }
  }

  ghost predicate OutcomesTrace(log: Log, s: AuthorizedState, outcomes: seq<Outcome>) {
    |outcomes| <= |s.package.executionIndexes|
    && forall j :: 0 <= j < |outcomes| ==> Reports(outcomes[j], s, s.package.executionIndexes[j], log)
  }

  lemma OutcomesTraceGrows(log: Log, longer: Log, s: AuthorizedState, outcomes: seq<Outcome>)
    requires OutcomesTrace(log, s, outcomes) && Extends(log, longer)
    ensures OutcomesTrace(longer, s, outcomes)
  {
    forall j | 0 <= j < |outcomes| ensures Reports(outcomes[j], s, s.package.executionIndexes[j], longer) {
      ReportsGrows(outcomes[j], s, s.package.executionIndexes[j], log, longer);
    }
  }

  lemma OutcomesTraceAppend(log: Log, s: AuthorizedState, outcomes: seq<Outcome>, o: Outcome)
    requires OutcomesTrace(log, s, outcomes) && |outcomes| < |s.package.executionIndexes|
    requires Reports(o, s, s.package.executionIndexes[|outcomes|], log)
    ensures OutcomesTrace(log, s, outcomes + [o])
  {
    var longer := outcomes + [o];
    forall j | 0 <= j < |longer| ensures Reports(longer[j], s, s.package.executionIndexes[j], log) {
      assert longer[j] == if j < |outcomes| then outcomes[j] else o;
    }
  }

  lemma OutcomeHashesAppend(outcomes: seq<Outcome>, o: Outcome)
    ensures OutcomeHashes(outcomes + [o])
         == OutcomeHashes(outcomes) + (match o.transactionHash case None => [] case Some(h) => [h])
  {
    assert (outcomes + [o])[..|outcomes|] == outcomes;
  }

  /** A normal return has one outcome per index, and its status and hashes are those of the outcomes. */
  ghost predicate ResultTrace(log: Log, s: AuthorizedState, result: ExecutionResult) {
    && result.packageId == s.package.packageId
    && result.rescueTransactionHashes == RescueHashes(log) == OutcomeHashes(result.outcomes)
    && result.clearTransactionHash == ClearHash(log)
    && |result.outcomes| == |s.package.executionIndexes|
    && OutcomesTrace(log, s, result.outcomes)
    && result.status == StatusFor(result.outcomes)
  }

  function NotCleared(hashes: seq<string>, clearHash: Option<string>): Failure {
    Raised(DelegationNotCleared, hashes + (match clearHash case None => [] case Some(h) => [h]))
  }

  /** How a run ends. The events follow the protocol; if anything was submitted, the same account still
      paid and the source was shown cleared at the end, or the error says that it was not, with every
      hash. The run returns normally exactly if every action went as it should and nothing is left to clear. */
  ghost predicate RunEnds(s: AuthorizedState, r: Result<ExecutionResult, Failure>)
    reads s.destination
  {
    var log := s.destination.log;
    && Follows(log, s)
    && (RescueHashes(log) != [] ==> Pays(s.destination, s.package, s.payerAddress))
    && (RescueHashes(log) != [] ==>
          || (r == Err(NotCleared(RescueHashes(log), ClearHash(log))) && StaysUncleared(s))
          || ShowsCleared(log, s.package))
    && (r.Ok? ==> ResultTrace(log, s, r.value))
    && (r.Ok? <==> AllTried(log, s) && (RescueHashes(log) != [] ==> ShowsCleared(log, s.package)))
  }

  /** What has happened when a run ends with this error of the runtime. */
  ghost predicate RunRaises(s: AuthorizedState, failure: Failure, now: int)
    requires failure.Raised?
    reads s.destination
  {
    var log, hashes := s.destination.log, RescueHashes(s.destination.log);
    match failure.code
    case SubmissionFailed => hashes != [] && failure.transactionHashes == [hashes[|hashes| - 1]]
    case DelegateMismatch =>
      if hashes == [] then ShowsProblem(log, s.package, DelegateMismatch) else failure.transactionHashes == hashes
    case DelegationNotCleared => hashes != []
    case code => NotReady(s.package, s.destination, s.payerAddress, code, now)
  }

  /** What was found when the checks before signing or submitting end with this error. */
  ghost predicate NotReady(p: Package, destination: Transport, payer: string, code: ErrorCode, now: int)
    reads destination
  {
    match code
    case PackageExpired => !InWindow(p, now)
    case ChainMismatch => OnOtherChain(destination, p)
    case DestinationMismatch => WrongPayer(destination, p, Some(payer))
    case _ => ShowsProblem(destination.log, p, code)
  }

  ghost predicate NotAuthorized(state: ProvisionedState, signer: Signer, code: ErrorCode, now: int)
    reads signer, state.destination
  {
    match code
    case SourceMismatch => !SameText(signer.address, state.package.sourceAddress)
    case InvalidAuthorization => signer.Refused(state.package)
    case _ => NotReady(state.package, state.destination, state.payerAddress, code, now)
  }

  ghost predicate NotProvisioned(p: Package, confirmation: Confirmation, factory: TrustedFactory, destination: Transport,
                                 code: ErrorCode, now: int)
    reads destination
  {
    match code
    case PackageExpired => !InWindow(p, now)
    case InvalidConfirmation => !ConfirmedBy(confirmation, p)
    case FactoryMismatch => !OfFactory(p, factory) || ShowsProblem(destination.log, p, FactoryMismatch)
    case ChainMismatch => OnOtherChain(destination, p)
    case DestinationMismatch => WrongPayer(destination, p, None)
    case _ => Prevents(destination.log, p, code)
  }

  class LocalRuntime {
    const clock: nat -> int
    const trustedFactory: TrustedFactory
    var ticks: nat
    var authorized: map<nat, AuthorizedState>
    var provisioned: map<nat, ProvisionedState>
    var nextHandle: nat

    constructor (clock: nat -> int, trustedFactory: TrustedFactory)
      ensures Valid() && authorized == map[] && provisioned == map[]
    {
      this.clock, this.trustedFactory := clock, trustedFactory;
      ticks, nextHandle := 0, 0;
      authorized, provisioned := map[], map[];
    }

    /** Every authorized handle holds the exact pair of authorizations of its package. */
    ghost predicate Valid()
      reads this
    {
      && (forall h :: h in provisioned ==> h < nextHandle && Parsed(provisioned[h].package))
      && (forall h :: h in authorized ==> h < nextHandle && AuthorizedCorrectly(authorized[h]))
    }

    method Now() returns (now: int)
      modifies this`ticks
      ensures ticks == old(ticks) + 1 && now == clock(ticks)
    {
      ticks := ticks + 1;
      now := clock(ticks);
    }

    method AssertPayer(p: Package, destination: Transport) returns (r: Result<string, Failure>)
      modifies destination
      ensures destination.log == old(destination.log)
      ensures r.Ok? ==> Pays(destination, p, r.value)
      ensures r.Err? && r.error.Raised? ==>
                match r.error.code
                case ChainMismatch => OnOtherChain(destination, p)
                case DestinationMismatch => WrongPayer(destination, p, None)
                case _ => false
    {
      var chainId := destination.GetChainId();
      if chainId.Throws? {
        return Err(Foreign(chainId.detail));
      }
      if chainId.value != p.chainId {
        return Err(Raised(ChainMismatch, []));
      }
      var address := destination.GetAddress();
      if address.Throws? {
        return Err(Foreign(address.detail));
      }
      if SameText(address.value, p.sourceAddress) {
        return Err(Raised(DestinationMismatch, []));
      }
      return Ok(address.value);
    }

    /** Inspects, and checks the source; the inspection is the last event. */
    method InspectSource(p: Package, destination: Transport) returns (r: Result<Inspection, Failure>)
      modifies destination
      ensures destination.log == old(destination.log)
              || (destination.log.Then? && destination.log.before == old(destination.log) && destination.log.event.Inspected?)
      ensures r.Ok? ==> destination.log == Then(old(destination.log), Inspected(r.value)) && InitialSourceStateError(p, r.value).None?
      ensures r.Err? && r.error.Raised? ==>
                (r.error.code.StaleSourceNonce? || r.error.code.SourceAlreadyDelegated?) && ShowsProblem(destination.log, p, r.error.code)
    {
      var inspection := destination.Inspect();
      if inspection.Throws? {
        return Err(Foreign(inspection.detail));
      }
      if InitialSourceStateError(p, inspection.value).Some? {
        return Err(Raised(InitialSourceStateError(p, inspection.value).value, []));
      }
      return Ok(inspection.value);
    }

    /** Deploys the delegate and waits for it. */
    method Deploy(destination: Transport) returns (failure: Option<Failure>)
      modifies destination
      ensures |Deployments(destination.log)| <= |Deployments(old(destination.log))| + 1
      ensures Submitless(old(destination.log), destination.log) && Extends(old(destination.log), destination.log)
      ensures failure.None? ==>
                && destination.log.Then? && destination.log.before.Then? && destination.log.before.event.Deployed?
                && destination.log.event == Mined(destination.log.before.event.hash, true)
      ensures failure.Some? && failure.value.Raised? ==>
                || (failure.value.code.SubmissionFailed? && Deployments(destination.log) != [])
                || (failure.value.code.DeploymentFailed? && exists hash :: Occurs(Mined(hash, false), destination.log))
    {
      var deployment := destination.DeployDelegate();
      if deployment.Throws? {
        return Some(Foreign(deployment.detail));
      }
      var receipt := destination.WaitFor(deployment.value);
      if receipt.Err? {
        return Some(receipt.error);
      }
      if !receipt.value.confirmed {
        assert Occurs(Mined(deployment.value, false), destination.log);
        return Some(Raised(DeploymentFailed, [deployment.value]));
      }
      return None;
    }

    /** Inspects the source and factory, and deploys the delegate if there is none yet. */
    method PrepareDelegate(p: Package, destination: Transport) returns (failure: Option<Failure>)
      requires Parsed(p) && destination.log == Start
      modifies destination
      ensures |Deployments(destination.log)| <= 1 && Submitless(Start, destination.log)
      ensures failure.None? ==> ShowsReady(destination.log, p)
      ensures failure.Some? && failure.value.Raised? ==> Prevents(destination.log, p, failure.value.code)
      ensures Deployments(destination.log) != [] ==> exists i :: Occurs(Inspected(i), destination.log) && AwaitsDelegate(p, i)
      ensures failure == Some(Raised(DelegateMismatch, [])) && AwaitsDelegate(p, destination.log.event.inspection) ==>
                Deployments(destination.log) != []
    {
      var inspection := InspectSource(p, destination);
      if inspection.Err? {
        return Some(inspection.error);
      }
      if FactoryError(p, inspection.value).Some? {
        return Some(Raised(FactoryError(p, inspection.value).value, []));
      }
      if inspection.value.delegateState.None? {
        ghost var first, missing := destination.log, inspection.value;
        failure := Deploy(destination);
        OccursInExtension(Inspected(missing), first, destination.log);
        if failure.Some? {
          return failure;
        }
        ghost var deployed := destination.log;
        inspection := InspectSource(p, destination);
        OccursInExtension(Inspected(missing), deployed, destination.log);
        if inspection.Err? {
          return Some(inspection.error);
        }
      }
      if DelegateStateError(p, inspection.value).Some? {
        return Some(Raised(DelegateStateError(p, inspection.value).value, []));
      }
      return None;
    }

    /** The package is fresh, of the pinned factory and confirmed, and the wallet is ready to pay. */
    method CheckConfirmed(p: Package, confirmation: Confirmation, destination: Transport) returns (payer: Result<string, Failure>)
      modifies destination, this`ticks
      ensures destination.log == old(destination.log)
      ensures payer.Ok? ==>
                ConfirmedBy(confirmation, p) && OfFactory(p, trustedFactory) && Pays(destination, p, payer.value) && InWindow(p, clock(ticks))
      ensures payer.Err? && payer.error.Raised? ==>
                match payer.error.code
                case PackageExpired => !InWindow(p, clock(ticks))
                case FactoryMismatch => !OfFactory(p, trustedFactory)
                case InvalidConfirmation => !ConfirmedBy(confirmation, p)
                case ChainMismatch => OnOtherChain(destination, p)
                case DestinationMismatch => WrongPayer(destination, p, None)
                case _ => false
    {
      var now := Now();
      if !Fresh(p, now) {
        return Err(Raised(PackageExpired, []));
      }
      if !UsesFactory(p, trustedFactory) {
        return Err(Raised(FactoryMismatch, []));
      }
      if !Confirms(confirmation, p) {
        return Err(Raised(InvalidConfirmation, []));
      }
      payer := AssertPayer(p, destination);
    }

    /** All checks of a package to be provisioned, and its delegate deployed if there is none yet. */
    method Prepare(p: Package, confirmation: Confirmation, destination: Transport) returns (payer: Result<string, Failure>)
      requires Parsed(p) && destination.log == Start
      modifies destination, this`ticks
      ensures |Deployments(destination.log)| <= 1 && Submitless(Start, destination.log)
      ensures Deployments(destination.log) != [] ==> exists i :: Occurs(Inspected(i), destination.log) && AwaitsDelegate(p, i)
      ensures payer.Ok? ==>
                && ConfirmedBy(confirmation, p) && OfFactory(p, trustedFactory) && ShowsReady(destination.log, p)
                && Pays(destination, p, payer.value) && InWindow(p, clock(ticks))
      ensures payer.Err? && payer.error.Raised? ==>
                NotProvisioned(p, confirmation, trustedFactory, destination, payer.error.code, clock(ticks))
    {
      payer := CheckConfirmed(p, confirmation, destination);
      if payer.Err? {
        return;
      }
      var failure := PrepareDelegate(p, destination);
      if failure.Some? {
        return Err(failure.value);
      }
      var later := Now();
      if !Fresh(p, later) {
        return Err(Raised(PackageExpired, []));
      }
    }

    /** Prepares a confirmed package: a handle is given out only after the last inspection showed
        the untouched source and the committed delegate, which is deployed at most once, and nothing
        of the rescue has been submitted. */
    method Provision(p: Package, confirmation: Confirmation, destination: Transport) returns (r: Result<nat, Failure>)
      requires Valid() && Parsed(p) && destination.log == Start
      modifies this, destination
      ensures Valid() && authorized == old(authorized)
      ensures r.Err? ==> provisioned == old(provisioned)
      ensures |Deployments(destination.log)| <= 1 && Submitless(Start, destination.log)
      ensures Deployments(destination.log) != [] ==> exists i :: Occurs(Inspected(i), destination.log) && AwaitsDelegate(p, i)
      ensures r.Ok? ==>
                && ConfirmedBy(confirmation, p) && OfFactory(p, trustedFactory) && ShowsReady(destination.log, p)
                && r.value !in old(provisioned) && r.value in provisioned
                && provisioned == old(provisioned)[r.value := provisioned[r.value]]
                && provisioned[r.value].package == p && provisioned[r.value].destination == destination
                && Pays(destination, p, provisioned[r.value].payerAddress) && InWindow(p, clock(ticks))
      ensures r.Err? && r.error.Raised? ==>
                NotProvisioned(p, confirmation, trustedFactory, destination, r.error.code, clock(ticks))
    {
      var payer := Prepare(p, confirmation, destination);
      if payer.Err? {
        return Err(payer.error);
      }
      provisioned := provisioned[nextHandle := ProvisionedState(p, destination, payer.value)];
      nextHandle := nextHandle + 1;
      return Ok(nextHandle - 1);
    }

    /** Submits the request just simulated, waits for it, and inspects what it has done. */
    method SubmitAction(s: AuthorizedState, index: nat, request: Request)
      returns (hash: Option<string>, outcome: Option<Outcome>, failure: Option<Failure>)
      requires Parsed(s.package) && Rescuing(s, s.destination.log) && RunsAction(request, s, index) && request.purpose.RescueAction?
      requires s.destination.log.Then? && s.destination.log.event == Simulated(request, true)
      requires Clean(s.destination.log.before, s) && !AllTried(s.destination.log.before, s)
      modifies s.destination
      ensures Rescuing(s, s.destination.log) && Extends(old(s.destination.log), s.destination.log)
      ensures TriedCount(s.destination.log) == old(TriedCount(s.destination.log))
      ensures RescueHashes(s.destination.log)
           == old(RescueHashes(s.destination.log)) + (if hash.Some? then [hash.value] else [])
      ensures outcome.Some? ==>
                Reports(outcome.value, s, index, s.destination.log) && outcome.value.transactionHash == hash
      ensures failure.None? ==> outcome.Some? && hash.Some? && ShowsDelegated(s.destination.log, s.package)
      ensures if failure.None? then Clean(s.destination.log, s) else !AllTried(s.destination.log, s)
      ensures failure.Some? && failure.value.Raised? ==>
                hash.Some? && FailsWith(failure.value, hash.value, s.destination.log, s.package)
    {
      var p, destination := s.package, s.destination;
      ghost var start, log1 := destination.log.before, destination.log;
      StepsNotClean(start, s, request);
      hash, outcome, failure := None, None, None;
      var submitted := destination.Submit(request);
      if submitted.Throws? {
        failure := Some(Foreign(submitted.detail));
        return;
      }
      hash := Some(submitted.value);
      ghost var log2 := destination.log;
      EventCounts(log1, log2.event);
      assert Rescuing(s, log2) && Extends(log1, log2);
      var receipt := destination.WaitFor(submitted.value);
      if receipt.Err? {
        failure := Some(receipt.error);
        return;
      }
      ghost var log3 := destination.log;
      EventCounts(log2, log3.event);
      assert Rescuing(s, log3) && Extends(log1, log3);
      SubmittedReports(log1, s, index, request, submitted.value, receipt.value.confirmed);
      outcome := Some(Outcome(p.actionIds[index], index,
                              if receipt.value.confirmed then Completed else TransactionReverted, hash));
      var inspection := destination.Inspect();
      if inspection.Throws? {
        failure := Some(Foreign(inspection.detail));
        return;
      }
      EventCounts(log3, destination.log.event);
      StepEnds(start, s, request, submitted.value, receipt.value.confirmed, inspection.value);
      ReportsGrows(outcome.value, s, index, log3, destination.log);
      if inspection.value.sourceNonce != p.sourceNonce + 1
         || !SameText(inspection.value.sourceCode, DelegationCode(p.delegateAddress)) {
        failure := Some(Raised(DelegateMismatch, []));
      }
    }

    /** One pass of the rescue loop: check freshness, simulate, and submit what simulated well. */
    method TryAction(s: AuthorizedState, index: nat, delegationSubmitted: bool)
      returns (hash: Option<string>, outcome: Option<Outcome>, failure: Option<Failure>)
      requires Parsed(s.package) && Rescuing(s, s.destination.log) && Clean(s.destination.log, s)
      requires TriedCount(s.destination.log) < |s.package.executionIndexes|
      requires index == s.package.executionIndexes[TriedCount(s.destination.log)]
      requires delegationSubmitted <==> RescueHashes(s.destination.log) != []
      modifies s.destination, this`ticks
      ensures Rescuing(s, s.destination.log) && Extends(old(s.destination.log), s.destination.log)
      ensures RescueHashes(s.destination.log)
           == old(RescueHashes(s.destination.log)) + (if hash.Some? then [hash.value] else [])
      ensures failure.None? ==>
                TriedCount(s.destination.log) == old(TriedCount(s.destination.log)) + 1 && outcome.Some?
      ensures outcome.Some? ==>
                Reports(outcome.value, s, index, s.destination.log) && outcome.value.transactionHash == hash
      ensures failure.None? && hash.Some? ==> ShowsDelegated(s.destination.log, s.package)
      ensures outcome.Some? || hash.Some? ==> InWindow(s.package, clock(ticks))
      ensures if failure.None? then Clean(s.destination.log, s) else !AllTried(s.destination.log, s)
      ensures failure.Some? && failure.value.Raised? ==>
                if hash.None? then failure.value.code.PackageExpired? && !InWindow(s.package, clock(ticks))
                else FailsWith(failure.value, hash.value, s.destination.log, s.package)
    {
      var p, destination := s.package, s.destination;
      ghost var start := destination.log;
      NotYetAllTried(start, s);
      hash, outcome, failure := None, None, None;
      var now := Now();
      if !Fresh(p, now) {
        failure := Some(Raised(PackageExpired, []));
        return;
      }
      var request := RescueRequest(p, s.payerAddress, index, if delegationSubmitted then None else Some([s.delegation]));
      RescueRequestRuns(s, index, request.authorizationList);
      var simulation := destination.Simulate(request);
      if simulation.Throws? {
        failure := Some(Foreign(simulation.detail));
        return;
      }
      ghost var log1 := destination.log;
      assert log1 == Then(start, Simulated(request, simulation.value));
      EventCounts(start, log1.event);
      assert Rescuing(s, log1) && Extends(start, log1);
      if !simulation.value {
        outcome := Some(Outcome(p.actionIds[index], index, SimulationFailed, None));
        return;
      }
      hash, outcome, failure := SubmitAction(s, index, request);
      ExtendsTransitive(start, log1, destination.log);
    }

    /** The try block of `execute`. */
    method RescueLoop(s: AuthorizedState)
      returns (hashes: seq<string>, outcomes: seq<Outcome>, rescueError: Option<Failure>)
      requires Parsed(s.package) && Rescuing(s, s.destination.log)
      requires TriedCount(s.destination.log) == 0 && RescueHashes(s.destination.log) == [] && Clean(s.destination.log, s)
      modifies s.destination, this`ticks
      ensures Rescuing(s, s.destination.log) && hashes == RescueHashes(s.destination.log)
      ensures OutcomesTrace(s.destination.log, s, outcomes)
      ensures rescueError.None? ==>
                && |outcomes| == TriedCount(s.destination.log) == |s.package.executionIndexes|
                && hashes == OutcomeHashes(outcomes)
      ensures rescueError.Some? && rescueError.value.Raised? ==>
                LoopRaises(rescueError.value, hashes, s.destination.log, s.package, clock(ticks))
      ensures if rescueError.None? then Clean(s.destination.log, s) && AllTried(s.destination.log, s) else !AllTried(s.destination.log, s)
    {
      hashes, outcomes, rescueError := [], [], None;
      var delegationSubmitted := false;
      for k := 0 to |s.package.executionIndexes|
        invariant Rescuing(s, s.destination.log) && hashes == RescueHashes(s.destination.log)
        invariant delegationSubmitted <==> hashes != []
        invariant TriedCount(s.destination.log) == |outcomes| == k
        invariant OutcomesTrace(s.destination.log, s, outcomes)
        invariant hashes == OutcomeHashes(outcomes)
        invariant Clean(s.destination.log, s)
      {
        ghost var before := s.destination.log;
        var hash, outcome, failure := TryAction(s, s.package.executionIndexes[k], delegationSubmitted);
        OutcomesTraceGrows(before, s.destination.log, s, outcomes);
        if hash.Some? {
          hashes := hashes + [hash.value];
          delegationSubmitted := true;
        }
        if outcome.Some? {
          OutcomesTraceAppend(s.destination.log, s, outcomes, outcome.value);
          OutcomeHashesAppend(outcomes, outcome.value);
          outcomes := outcomes + [outcome.value];
        }
        if failure.Some? {
          rescueError := if failure == Some(Raised(DelegateMismatch, []))
                         then Some(Raised(DelegateMismatch, hashes)) else failure;
          return;
        }
      }
    }

    /** The mandatory clearing step of `execute`. */
    method Clear(s: AuthorizedState) returns (clearHash: Option<string>, cleared: bool)
      requires Rescuing(s, s.destination.log) && RescueHashes(s.destination.log) != []
      modifies s.destination
      ensures Follows(s.destination.log, s) && Extends(old(s.destination.log), s.destination.log)
      ensures RescueHashes(s.destination.log) == old(RescueHashes(s.destination.log))
      ensures clearHash == ClearHash(s.destination.log)
      ensures cleared ==> ShowsCleared(s.destination.log, s.package)
      ensures !cleared && ShowsCleared(s.destination.log, s.package) ==> s.destination.log == old(s.destination.log)
      ensures old(AllTried(s.destination.log, s)) ==> AllTried(s.destination.log, s)
      ensures cleared && AllTried(s.destination.log, s) ==> old(AllTried(s.destination.log, s))
      ensures !cleared ==> StaysUncleared(s)
      ensures clearHash.Some? ==>
                var reply := s.destination.receiptReply(old(s.destination.calls) + 2);
                reply.Reply? && Names(reply.value, clearHash.value) ==> Occurs(Mined(clearHash.value, reply.value.confirmed), s.destination.log)
    {
      var p, destination := s.package, s.destination;
      ghost var start := destination.log;
      ghost var tried := AllTried(start, s);
      clearHash, cleared := None, false;
      var submitted := destination.Submit(ClearRequest(p, s.payerAddress, s.revocation));
      if submitted.Reply? {
        clearHash := Some(submitted.value);
        assert Follows(destination.log, s) && Extends(start, destination.log);
        assert ClearHash(destination.log) == clearHash && RescueHashes(destination.log) == RescueHashes(start);
        assert AllTried(destination.log, s) <==> tried;
        var receipt := destination.WaitFor(submitted.value);
        assert Follows(destination.log, s) && Extends(start, destination.log);
        assert ClearHash(destination.log) == clearHash && RescueHashes(destination.log) == RescueHashes(start);
        assert AllTried(destination.log, s) <==> tried;
        var inspection := destination.Inspect();
        assert Follows(destination.log, s) && Extends(start, destination.log);
        assert ClearHash(destination.log) == clearHash && RescueHashes(destination.log) == RescueHashes(start);
        assert AllTried(destination.log, s) <==> tried;
        cleared := inspection.Reply? && SourceIsCanonicallyCleared(p, inspection.value);
      }
      assert AllTried(destination.log, s) <==> tried;
      if !cleared {
        ghost var before := destination.log;
        var again := destination.Inspect();
        cleared := again.Reply? && SourceIsCanonicallyCleared(p, again.value);
        assert destination.log == before || destination.log.before == before;
      }
    }

    /** The checks before anything is signed or submitted: the package is fresh, the same account pays,
        and an inspection shows the source untouched and the delegate the package commits to. */
    method CheckReady(p: Package, destination: Transport, payer: string) returns (failure: Option<Failure>)
      modifies destination, this`ticks
      ensures destination.log == old(destination.log)
              || (destination.log.Then? && destination.log.before == old(destination.log) && destination.log.event.Inspected?)
      ensures failure.None? ==> InWindow(p, clock(ticks)) && Pays(destination, p, payer) && ShowsReady(destination.log, p)
      ensures failure.Some? && failure.value.Raised? ==>
                NotReady(p, destination, payer, failure.value.code, clock(ticks))
    {
      var now := Now();
      if !Fresh(p, now) {
        return Some(Raised(PackageExpired, []));
      }
      var current := AssertPayer(p, destination);
      if current.Err? {
        return Some(current.error);
      }
      if !SameText(current.value, payer) {
        return Some(Raised(DestinationMismatch, []));
      }
      var initial := destination.Inspect();
      if initial.Throws? {
        return Some(Foreign(initial.detail));
      }
      if InitialSourceStateError(p, initial.value).Some? {
        return Some(Raised(InitialSourceStateError(p, initial.value).value, []));
      }
      if DelegateStateError(p, initial.value).Some? {
        return Some(Raised(DelegateStateError(p, initial.value).value, []));
      }
      return None;
    }

    /** The checks of `execute` before the first simulation. */
    method CheckBeforeExecution(s: AuthorizedState) returns (failure: Option<Failure>)
      requires s.destination.log == Start
      modifies s.destination, this`ticks
      ensures s.destination.log == Start || (s.destination.log.Then? && s.destination.log.before == Start && s.destination.log.event.Inspected?)
      ensures RescueHashes(s.destination.log) == []
      ensures failure.None? ==>
                InWindow(s.package, clock(ticks)) && Pays(s.destination, s.package, s.payerAddress) && ShowsReady(s.destination.log, s.package)
      ensures failure.Some? && failure.value.Raised? ==>
                NotReady(s.package, s.destination, s.payerAddress, failure.value.code, clock(ticks))
    {
      failure := CheckReady(s.package, s.destination, s.payerAddress);
    }

    /** The run of one authorized package: rescue, then clear what was delegated. */
    method Run(s: AuthorizedState) returns (r: Result<ExecutionResult, Failure>)
      requires AuthorizedCorrectly(s) && s.destination.log == Start
      modifies s.destination, this`ticks
      ensures RunEnds(s, r)
      ensures r.Err? && r.error.Raised? ==> RunRaises(s, r.error, clock(ticks))
    {
      var failure := CheckBeforeExecution(s);
      if failure.Some? {
        return Err(failure.value);
      }
      var rescueHashes, outcomes, rescueError := RescueLoop(s);
      var clearTransactionHash: Option<string> := None;
      if rescueHashes != [] {
        ghost var middle := s.destination.log;
        var cleared;
        clearTransactionHash, cleared := Clear(s);
        OutcomesTraceGrows(middle, s.destination.log, s, outcomes);
        if !cleared {
          if rescueError.None? {
            CleanIsNotCleared(middle, s);
          }
          return Err(NotCleared(rescueHashes, clearTransactionHash));
        }
      }
      if rescueError.Some? {
        return Err(rescueError.value);
      }
      return Ok(ExecutionResult(s.package.packageId, StatusFor(outcomes), rescueHashes, clearTransactionHash, outcomes));
    }

    /** Runs one authorized handle. Whatever the transport does: a handle works once; what
        happens follows the protocol; and after any submission the call ends either in
        DelegationNotCleared with every hash, or with an inspection that showed the source
        cleared as the last event. */
    method Execute(handle: nat) returns (r: Result<ExecutionResult, Failure>)
      requires Valid()
      modifies this`authorized, this`ticks, if handle in authorized then {authorized[handle].destination} else {}
      ensures Valid() && authorized == old(authorized) - {handle}
      ensures handle !in old(authorized) ==> r == Err(Raised(InvalidHandle, []))
      ensures handle in old(authorized) ==>
                && RunEnds(old(authorized[handle]), r)
                && (r.Err? && r.error.Raised? ==> RunRaises(old(authorized[handle]), r.error, clock(ticks)))
    {
      if handle !in authorized {
        return Err(Raised(InvalidHandle, []));
      }
      var s := authorized[handle];
      authorized := authorized - {handle};
      s.destination.log := Start;
      r := Run(s);
    }

    /** Checks once more that all is ready, and has both authorizations signed. */
    method SignPair(state: ProvisionedState, signer: Signer) returns (pair: Result<AuthorizationPair, Failure>)
      modifies signer, state.destination, this`ticks
      ensures pair.Ok? ==>
                && SignedFor(state.package, pair.value) && ShowsReady(state.destination.log, state.package)
                && Pays(state.destination, state.package, state.payerAddress)
      ensures pair.Err? && pair.error.Raised? ==>
                NotAuthorized(state, signer, pair.error.code, clock(ticks))
    {
      var p := state.package;
      var failure := CheckReady(p, state.destination, state.payerAddress);
      if failure.Some? {
        return Err(failure.value);
      }
      if !SameText(signer.address, p.sourceAddress) {
        return Err(Raised(SourceMismatch, []));
      }
      var request := BuildAuthorizationPair(p.chainId, p.delegateAddress, p.sourceNonce);
      var delegation := signer.SignAndVerify(request.delegation);
      if delegation.None? {
        return Err(Raised(InvalidAuthorization, []));
      }
      var revocation := signer.SignAndVerify(request.revocation);
      if revocation.None? {
        return Err(Raised(InvalidAuthorization, []));
      }
      return Ok(AuthorizationPair(delegation.value, revocation.value));
    }

    /** Asks the source's signer for both authorizations and checks each against its request. */
    method Authorize(handle: nat, signer: Signer) returns (r: Result<nat, Failure>)
      requires Valid()
      modifies this, signer, if handle in provisioned then {provisioned[handle].destination} else {}
      ensures Valid()
      ensures r.Err? ==> authorized == old(authorized) && provisioned == old(provisioned)
      ensures r.Ok? ==>
                && handle in old(provisioned) && r.value !in old(authorized)
                && provisioned == old(provisioned) - {handle}
                && r.value in authorized && authorized == old(authorized)[r.value := authorized[r.value]]
                && authorized[r.value].package == old(provisioned[handle].package)
                && authorized[r.value].payerAddress == old(provisioned[handle].payerAddress)
                && authorized[r.value].destination == old(provisioned[handle].destination)
                && ShowsReady(authorized[r.value].destination.log, authorized[r.value].package)
                && InWindow(authorized[r.value].package, clock(ticks))
                && Pays(authorized[r.value].destination, authorized[r.value].package, authorized[r.value].payerAddress)
      ensures handle !in old(provisioned) ==> r == Err(Raised(InvalidHandle, []))
      ensures handle in old(provisioned) && r.Err? && r.error.Raised? ==>
                NotAuthorized(old(provisioned[handle]), signer, r.error.code, clock(ticks))
    {
      if handle !in provisioned {
        return Err(Raised(InvalidHandle, []));
      }
      var state := provisioned[handle];
      var p := state.package;
      var pair := SignPair(state, signer);
      if pair.Err? {
        return Err(pair.error);
      }
      var later := Now();
      if !Fresh(p, later) {
        return Err(Raised(PackageExpired, []));
      }
      provisioned := provisioned - {handle};
      var issued := nextHandle;
      nextHandle := nextHandle + 1;
      authorized := authorized[issued := AuthorizedState(p, state.destination, state.payerAddress,
                                                        pair.value.delegation, pair.value.revocation)];
      return Ok(issued);
    }
  }

  datatype ProvisionedState = ProvisionedState(package: Package, destination: Transport, payerAddress: string)

  datatype AuthorizedState = AuthorizedState(
    package: Package, destination: Transport, payerAddress: string,
    delegation: Authorization, revocation: Authorization)

  /** Same address up to letter case, same chain, same nonce. */
  predicate MatchesRequest(signed: Authorization, request: Authorization) {
    SameText(signed.address, request.address) && signed.chainId == request.chainId && signed.nonce == request.nonce
  }

  /** The pair delegates the package's source to its delegate, and then to nobody. */
  ghost predicate SignedFor(p: Package, pair: AuthorizationPair) {
    var request := BuildAuthorizationPair(p.chainId, p.delegateAddress, p.sourceNonce);
    MatchesRequest(pair.delegation, request.delegation) && MatchesRequest(pair.revocation, request.revocation)
  }

  ghost predicate AuthorizedCorrectly(s: AuthorizedState) {
    Parsed(s.package) && SignedFor(s.package, AuthorizationPair(s.delegation, s.revocation))
  }

  /** The local key: its answers and the recovered signer are arbitrary. */
  class Signer {
    const address: string
    const signReply: nat -> Option<Authorization>
    const recovers: nat -> bool
    var calls: nat

    constructor (address: string, signReply: nat -> Option<Authorization>, recovers: nat -> bool)
    {
      this.address, this.signReply, this.recovers := address, signReply, recovers;
      calls := 0;
    }

    /** The last answer is no signature of the source on one of the package's two authorizations. */
    ghost predicate Refused(p: Package)
      reads this
    {
      var request := BuildAuthorizationPair(p.chainId, p.delegateAddress, p.sourceNonce);
      !Signs(calls, request.delegation) || !Signs(calls, request.revocation)
    }

    ghost predicate Signs(n: nat, request: Authorization) {
      signReply(n).Some? && MatchesRequest(signReply(n).value, request) && recovers(n)
    }

    method SignAndVerify(request: Authorization) returns (signed: Option<Authorization>)
      modifies this
      ensures calls == old(calls) + 1
      ensures signed == if Signs(calls, request) then signReply(calls) else None
    {
      calls := calls + 1;
      signed := signReply(calls);
      if signed.None? || !MatchesRequest(signed.value, request) || !recovers(calls) {
        signed := None;
      }
    }
  }
}
