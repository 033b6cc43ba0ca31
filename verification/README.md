# Verified model of the rescue pipeline

This project models the rescue pipeline of the repository in Dafny and proves what the pipeline
promises. It covers six parts.

- **Agent jobs.** Any number of clients load a job, compute a new version and save it against the
  revision they loaded. `Jobs`, `JobOperations` and `JobHistory` give the job, its schema, its
  lifecycle and what each operation computes; `JobResults` spells out when each operation succeeds and
  the whole record it leaves. `JobStore` has the two stores, `AgentService` the
  service's methods (other clients run at every await), and `JobRuns`, `JobOutcomes`, `JobEvidence`
  and `BuyerReports` prove what holds over every interleaving. `JobSettlement` joins the jobs to the
  receipts: what a completed action has done on the chain. `ReceiptTruth` does the same for the status
  of every receipt.
- **The EIP-7702 rescue runtime.** `Eip7702Account` is the source account under the
  authorization-list rules of EIP-7702, section "Behavior"; `Eip7702Runtime` is the provision,
  authorize and execute machine over a transport that may answer anything; `RescueDelegate` is the
  delegate contract the source runs meanwhile. `Eip7702Safety` says what the runs mean for the account
  and the plan, and what interleaved calls can do with the handles.
- **Receipt finality.** `Finality` is a chain that grows and reorganizes between any two reads, the
  verifier of buyer reports and the two wait-for-receipt loops.
- **Planner, simulator and package builder.** `Ordering`, `Planner` and `PlanProperties` build and
  order plans, and `PlanMeaning` says what a plan moves and revokes; `Json`, `Sorting` and `Integrity`
  give the canonical JSON text and its hash, and `PlanNames`, `PlanJson` and `PlanIntegrity` apply them
  to the planner's plans;
  `Simulator`, `LocalProvider`, `LiveSimulation` and `Execution` simulate a plan and turn results into
  wallet transactions; `DelegatePackage` assembles the EIP-7702 package and checks it at the hand-over,
  and `DelegateCalls` compares what the delegate does for it with what the plan says.
- **Revert data.** `RevertData` is the breadth-first search over a possibly cyclic error graph.
- **Rate limits.** `RateLimit` has the pruning limiter in memory and the SQL upsert.

## How things are represented

Addresses and hashes are texts compared after lower-casing. Amounts, token ids and block numbers are
the natural numbers their canonical decimal texts denote, dollar values are binary fractions, the
values finite JavaScript numbers can have, and times are integer milliseconds.
keccak256 is an injective function, `localeCompare` a total order that is zero only on equal texts;
both are parameters. The plan schema's parser is a parameter as well: it may rebuild an accepted
value with its keys in another order, and its rules on single fields are a predicate of which
nothing is assumed; `SomePlatformIsSane` shows that what is assumed of it can be met. ABI-encoded
call data is a value naming the function and its arguments. The answers of ports, RPC clients and
wallets are parameters or come from an oracle that may answer anything its contract allows.

An operation of the job service is a function from the loaded job to what is to be saved
(`JobOperations.Apply`); the service's methods are proved against the records `JobResults` derives from
these functions, with the other clients' saves happening at every await. The runtime, the verifier, the polling loops, the stores,
the limiters, the planner's builder, the sort, the orchestrator and the search are imperative, as in
the source.

## What the proofs found

Some promises hold only under a condition, which is proved together with an input for which the
promise fails.

- One finality check is sound exactly when the block is read no earlier than the head, or a policy of
  one confirmation rules reorganizations out (`SingleCheckSoundIff`). The verifier reads both in
  parallel, so only its second check makes a completed verdict final. Its *reverted* verdict rests on a
  single check, and is final if that check read the head first (`RevertedIsFinalIfHeadFirst`).
- A plan keeps every adapter output exactly when candidate id and output id, joined by a colon, are
  pairwise different (`PlannedIdsDistinct`). Ids that are unique per candidate are not enough: `a:b`
  with `c` and `a` with `b:c` collide, and the planner returns, as READY, a plan without one of the
  outputs (`PlanLosesAnOutput`).
- The planner reports a dependency cycle exactly when the native asset to be moved shares its id with
  another planned asset (`CycleExactlyOnClash`); unique evidence ids exclude that, and a scan with a
  native and a token balance under one id is refused this way (`ClashIsReported`).
- The review-only monitor answers that the buyer is awaited. Polling a job after signing or execution
  has been observed therefore fails the job (`ReviewOnlyPollFailsLaterJobs`).
- A provisioned package can be authorized twice exactly when two `authorize` calls on its handle
  overlap (`TwinsExactlyFromOverlap`). Both authorized handles can then be passed to `execute`
  (`OverlappingAuthorizationsBothExecute`).
- Pruning changes no decision on requests read at `t` and then at `u` exactly when `t <= u`, whatever
  orderly history precedes them (`PruningIsInvisibleIff`). For every clock that runs backwards there is
  a history on which the pruning limiter decides differently (`BackwardsReadingsDisagree`).
- The signed authorizations can no longer change the source exactly when both nonces are spent, or the
  source is empty and the first one is (`SpentExactly`); the clearing test accepts fewer accounts
  (`RejectedAccounts`). A source transaction between delegation and clearing spends the revocation
  nonce, and nothing that was signed can clear the delegation afterwards
  (`InterposedTransactionTrapsDelegation`).
- A package with a native transfer is never handed over: no asset manifest can list it
  (`SelectedNativeNeverPasses`).
- What the delegate does for an action of a package is what the plan says, except for amounts: native
  coin, and a token amount of 2^256 - 1, stand for all the source holds (`LargestAmountMovesAll`).
- A package that spells the plan's hash in other letter case than the plan passes the service's own
  rules, but as the first of a list it cannot be stored (`PackagesFitIff`).

## Model

| member | source | states |
|---|---|---|
| JobHistory.OperationsFollow | packages/agent-service/src/service.ts:182-821 | whatever an operation saves replaces exactly the revision it was computed from, has a greater revision, satisfies the schema, follows the transition table, and keeps id, request id, history, registered receipts, planned scope and final outcome |
| JobHistory.AdvanceFollows | packages/agent-service/src/service.ts:539-588 | up to three transitions folded into one save still replace the loaded revision and keep all of the above |
| JobHistory.ReceiptsStayRegistered | packages/agent-service/src/service.ts:457-492 | in any later version a registered receipt is still registered, for the same package and no other |
| JobHistory.NewJobIsSound | packages/agent-service/src/service.ts:143-167 | the first record of a job is valid and starts its history at RECEIVED |
| Jobs.TransitionFollowsTable | packages/agent-service/src/lifecycle.ts:37-66 | a transition extends the history by an allowed step |
| Jobs.TerminalEndsHistory | packages/agent-service/src/lifecycle.ts:8-28 | a terminal status can only be the last of a history |
| JobStore.InMemoryJobStore.Save | packages/agent-service/src/store.ts:57-72 | saving is compare and swap on the revision, refuses invalid jobs and taken request ids, and changes nothing when it refuses |
| JobStore.InMemoryJobStore.GetByRequestId | packages/agent-service/src/store.ts:33-36 | finds a job with the request id, or there is none |
| JobStore.PostgresJobStore.SaveAgentJob | packages/persistence/src/repository.ts:185-233 | the conditional update of one row accepts exactly what saving in memory accepts, with the same table; only when revision and request id both stand in the way may the reasons differ |
| JobStore.PostgresJobStore.UpdateMany | packages/persistence/src/repository.ts:217-220 | changes the row exactly when id and revision match and the request id is free, and counts it |
| JobStore.SwapAccepted | packages/agent-service/src/store.ts:65-70 | a greater revision over the loaded one is stored when the stored revision is the loaded one, and conflicts otherwise |
| JobStore.ReplacingEvolves | packages/agent-service/src/store.ts:65-71 | replacing a job by a later version evolves the whole store |
| JobStore.SavingAFreshJob | packages/agent-service/src/service.ts:143-179 | a first record under a fresh id is stored unless its request id is taken |
| JobRuns.StepsAreCompareAndSwap | packages/agent-service/src/service.ts:806-821 | a step computed from a snapshot is saved exactly when the snapshot is still the stored record, and conflicts exactly when another client has saved the job since |
| JobRuns.SavesAreCompareAndSwap | packages/agent-service/src/service.ts:448-588 | the same for every operation: each successful save was computed from the record it replaces, each conflict means another client's save |
| JobRuns.LatestEvolves | packages/agent-service/src/store.ts:65-70 | between two moments a job changes exactly when it was saved, and then only to later versions |
| JobRuns.RunsKeepInv | packages/agent-service/src/service.ts:109-853 | every interleaving of loads, creations and operations keeps the store sound, the log of saves chained and every snapshot an earlier version, and only evolves the store |
| JobRuns.EveryRun | packages/agent-service/src/service.ts:109-853 | the invariant holds in every state reachable from the empty store |
| JobRuns.RevisionsNameContents | packages/agent-service/src/store.ts:65-70 | one revision of a job never names two contents |
| JobRuns.ReceiptsSurvive | packages/agent-service/src/service.ts:448-492 | whatever the clients do, a registered receipt is neither lost nor rebound |
| JobRuns.LifecycleSurvives | packages/agent-service/src/schemas.ts:123-154 | histories are paths in the table that only grow, final statuses stay, and a plan with its incident and scan stays |
| JobOutcomes.OperationsKeepOutcome | packages/agent-service/src/service.ts:182-821 | with reports from the simulator and a review-only monitor every operation keeps the meaning of the final statuses |
| JobOutcomes.PhaseIsRight | packages/agent-service/src/service.ts:421-433 | the phase computed from a verified report is COMPLETED only if every planned action is completed, and PARTIAL only if some action was excluded or never issued |
| JobOutcomes.FinishedJobsTellTheTruth | packages/agent-service/src/service.ts:401-445 | in every run whose simulation reports come from simulateRescuePlan with the local provider, a COMPLETED job has its whole plan in the completed set, and a PARTIAL one has all issued packages completed and some action excluded or never issued |
| JobEvidence.CompletedActionsWereVerified | packages/agent-service/src/service.ts:394-407 | in every such run each completed action of a job was listed by a verified report on one of its packages that was computed from the stored record of this job, with this plan, and saved |
| JobResults.AnalysisResult | packages/agent-service/src/service.ts:182-200 | an analysis starts exactly before any other and for the incident already known or a first one, and gives the job with that incident and one more transition |
| JobResults.ScanResult | packages/agent-service/src/service.ts:195-207 | a scan of the incident's source on its chain is stored and nothing else changes; any other, or none, fails the job |
| JobResults.PlanResult | packages/agent-service/src/service.ts:210-225 | a plan that obeys the schema and is for the job's incident and scan is stored with PLAN_READY; any other, or none, fails the job |
| JobResults.SimulationResult | packages/agent-service/src/service.ts:227-255 | a report about the plan that is not all-failed is stored with WAITING_FOR_USER and one more SIMULATION_READY transition; an all-failed one is stored with the failure, and any other, or none, only fails the job |
| JobOutcomes.LiveSimulationOutcome | packages/agent-service/src/service.ts:227-255 | with the simulator's own report the job waits for the user exactly if some simulation succeeded or the plan is empty, and has failed otherwise |
| LiveSimulation.FailedExactlyWithoutSuccess | packages/simulator/src/orchestrator.ts:101-129 | a simulator run is all-failed exactly if the plan has actions and no simulation succeeded |
| JobResults.ResimulationResult | packages/agent-service/src/service.ts:298-304 | a fresh report replaces the expired one exactly if it is about the plan and not all-failed |
| JobResults.IssueResult | packages/agent-service/src/service.ts:306-328 | packages are stored, as a list and with the first as the current one, exactly if they fit |
| JobResults.PackagesFitIff | packages/agent-service/src/service.ts:707-765 | fitting means: there are some, each is for this job and moves the asset of an executable, successfully simulated action within the time of its simulation, they are different and follow the plan, they include all packages with receipts, and the first spells the plan's hash as the plan does |
| JobResults.RegisteringResult | packages/agent-service/src/service.ts:457-492 | a new hash is appended as PENDING exactly if its package was issued, the buyer is awaited and fewer than 64 are registered |
| JobResults.RegisteringAgain | packages/agent-service/src/service.ts:463-476 | a registered hash changes nothing for its own package and is refused for any other |
| JobResults.MarkingResult | packages/agent-service/src/service.ts:644-659 | marking a receipt changes the status of that receipt and nothing else |
| JobResults.ObserveResult | packages/agent-service/src/service.ts:334-351 | an observation about the plan that is no step back is stored with its phase, through every phase in between; any other fails the job |
| JobResults.ReportAcceptedIff | packages/agent-service/src/service.ts:362-400 | a report is accepted exactly if the buyer is awaited, it is on an issued package and the verifier confirms it, or the job is finished and it repeats what was verified; a verifier's refusal is passed on |
| JobResults.ReportResult | packages/agent-service/src/service.ts:366-445 | an accepted report leaves exactly this record: completed actions and hashes united, failed ones without the completed, the phase this means for packages, exclusions and actions never issued, and the named receipts confirmed |
| JobSettlement.VerifyReport | apps/web/src/lib/live-buyer-report-verifier.ts:130-272 | for every report and whatever the chain does meanwhile: the answer names the package's action and its transaction is proven to have made the committed transfer; pending means that the transaction was missing at a read or that a check failed, reverted that it failed in a block that passed a check, rejected that a successful one in such a block is not the promised transfer or left another state, or that there is not just one hash; any other error means an unknown package, another chain or a failed read |
| JobSettlement.VerdictAnswers | apps/web/src/lib/live-buyer-report-verifier.ts:130-240 | what each verdict means on the ledger, between the first and the last read |
| JobSettlement.PackagesAlwaysCommit | packages/agent-service/src/service.ts:707-765 | in every run each issued package moves the asset of the plan's action it names, between the plan's accounts |
| JobSettlement.CompletedActionsAreRescued | packages/agent-service/src/service.ts:394-407 | in every live run whose verified answers are this verifier's, each completed action, and so every action of a COMPLETED job, has its transfer in a successful transaction of a block that stays canonical |
| ReceiptTruth.SettledStatusIsTrue | packages/agent-service/src/service.ts:515-533 | when the verifier's answers are those of the chain, the status a receipt is settled on is true |
| ReceiptTruth.OperationsKeepTruth | packages/agent-service/src/service.ts:182-821 | every operation of the live deployment keeps the status of every receipt true |
| ReceiptTruth.ReceiptsAlwaysTrue | packages/agent-service/src/service.ts:494-659 | in every live run a CONFIRMED receipt has delivered for good, a REVERTED one failed in a block that passed a check, and a REJECTED one succeeded there without being its package's |
| LiveSimulation.Simulate | apps/web/src/lib/agent-runtime.ts:374-403 | a report handed to the service is that of a run of simulateRescuePlan with the local provider |
| LiveSimulation.SimulatedReportsCover | apps/web/src/lib/agent-runtime.ts:395-402 | such a report covers the plan and splits it |
| JobOutcomes.ReviewOnlyPollFailsLaterJobs | apps/web/src/lib/agent-runtime.ts:406-417 | a poll keeps a job waiting before signing and fails it afterwards |
| JobOutcomes.AdvanceChanges | packages/agent-service/src/service.ts:539-588 | a successful advance reaches the observed phase, stores the observation and the receipts, and leaves plan, simulation and packages alone |
| BuyerReports.AdvanceSucceeds | packages/agent-service/src/service.ts:539-588 | advancing an awaiting job to execution or to a successful end always succeeds, with exactly this history |
| BuyerReports.CompletedIffReported | packages/agent-service/src/service.ts:421-423 | all packages count as completed exactly when all were reported |
| BuyerReports.MergedSets | packages/agent-service/src/service.ts:402-420 | merging an observation is union on completed actions and, up to case, on hashes, and removes completed actions from the failed ones |
| BuyerReports.ReportStep | packages/agent-service/src/service.ts:362-445 | one more verified report is accepted in whatever state the others left the job, and only the set of reported packages matters |
| BuyerReports.ReportWhenFinished | packages/agent-service/src/service.ts:366-385 | a repeated report of a finished job is accepted and changes only receipts |
| BuyerReports.ReportsReach | packages/agent-service/src/service.ts:362-445 | any sequence of verified reports succeeds and reaches the state given by the set of packages |
| BuyerReports.OrderDoesNotMatter | packages/agent-service/src/service.ts:362-445 | any two orders with any repetitions reach the same status, history, completed and failed actions and, up to case, hashes |
| BuyerReports.AllReportsFinish | packages/agent-service/src/service.ts:421-433 | when all packages are reported the job is COMPLETED, or PARTIAL if something is uncovered or excluded |
| AgentService.AgentIncidentService.Perform | packages/agent-service/src/service.ts:806-821 | computes on a snapshot and saves: accepted exactly if the snapshot is current |
| AgentService.AgentIncidentService.RequireJob | packages/agent-service/src/service.ts:842-848 | gives the stored job or reports that there is none |
| AgentService.AgentIncidentService.CreateIncident | packages/agent-service/src/service.ts:134-180 | stores a fresh job, or gives the one with the same request id and incident scope, or refuses a different scope |
| AgentService.AgentIncidentService.AnalyseIncident | packages/agent-service/src/service.ts:182-208 | starts the analysis if it can, from the record it replaces, then on the job it saved stores the scan or the failure: exactly this record, and exactly if no other client saved in between |
| AgentService.AgentIncidentService.GeneratePlan | packages/agent-service/src/service.ts:210-225 | on an analysed job stores the plan with PLAN_READY, or the failure, exactly if no other client has saved the job since it was loaded; any other job is refused and left alone |
| AgentService.AgentIncidentService.SimulatePlan | packages/agent-service/src/service.ts:227-255 | on a planned job: if the loaded record is still stored, the new one is WAITING_FOR_USER with exactly this simulation and one more transition when the report is about the plan and not all-failed, and FAILED with SimulationFailed otherwise; if it is not, a conflict and no change |
| AgentService.AgentIncidentService.GetDashboardUrl | packages/agent-service/src/service.ts:257-262 | succeeds exactly if the job is still as loaded, and then stores the returned url and nothing else |
| AgentService.AgentIncidentService.ValidatePackages | packages/agent-service/src/service.ts:314-323 | accepts exactly the packages that each match the job and follow plan order |
| AgentService.AgentIncidentService.GetSigningPackages | packages/agent-service/src/service.ts:273-332 | exactly when packages are returned and which: the issued ones as long as none has expired, or the ones just built if they fit a job whose simulation was renewed where it had expired, and no other client saved in between; returned packages form a valid list, none has expired, and they are the packages of a stored version of the job |
| AgentService.FreshMeans | packages/agent-service/src/service.ts:291-297 | counting results decides whether a simulation is still fresh: with one result per action, exactly if every executable action has one and all of them last long enough |
| AgentService.AgentIncidentService.MonitorRescue | packages/agent-service/src/service.ts:334-351 | a finished job is returned as it is; a poll on the current version leaves exactly the record of the observation, or of the failure; when another client was faster, neither of its saves changes anything |
| AgentService.AgentIncidentService.RetryJobMutation | packages/agent-service/src/service.ts:823-840 | at most five attempts on fresh copies; it gives up only after at least five saves by others, and its result is later than what it started from |
| AgentService.AgentIncidentService.RecordBuyerExecutionReport | packages/agent-service/src/service.ts:353-360 | what is saved over the stored record is the report merged into it, exactly if the report is acceptable and confirms anything new; a refusal changes nothing and is the verifier's own if it was asked; receipts of an accepted report are confirmed |
| AgentService.AgentIncidentService.RecordBuyerReceiptSubmission | packages/agent-service/src/service.ts:448-455 | a new receipt is appended as PENDING exactly if it can be registered, a registered one changes nothing or is refused, and after success the receipt is registered for this package in the returned and in the stored job |
| AgentService.AgentIncidentService.ReconcileBuyerReceiptSubmission | packages/agent-service/src/service.ts:494-533 | refuses what is not registered, returns the status of a settled receipt without touching anything, and settles a pending one; the returned status is the one the receipt has in the returned job |
| AgentService.AgentIncidentService.Settle | packages/agent-service/src/service.ts:515-533 | the new status is confirmed after an accepted report, and else what the verifier answered: reverted, rejected or still pending; any other refusal is passed on |
| AgentService.AgentIncidentService.SetReceiptSubmissionStatus | packages/agent-service/src/service.ts:644-659 | sets the status of this receipt and changes nothing else, retrying over other clients' saves |
| AgentService.ReportConfirms | packages/agent-service/src/service.ts:622-642 | an accepted report confirms every receipt it names |
| AgentService.WrittenReportsAreInScope | packages/agent-service/src/service.ts:590-620 | the report the service writes for a receipt is always within its package's scope |
| Eip7702Account.SpentPairIsDead | packages/adapters/src/eip7702-rescue.ts:388-417 | once both nonces are spent no later inclusion of the signed pair changes the code |
| Eip7702Account.ClearedIsSafe | packages/buyer-runtime/src/eip7702-runtime.ts:318-326 | an account the clearing test accepts keeps empty code whatever happens to the signed authorizations |
| Eip7702Account.SpentExactly | packages/adapters/src/eip7702-rescue.ts:388-417 | the signed pair can no longer change the account exactly when it is past both nonces, or empty and past the first |
| Eip7702Account.RejectedAccounts | packages/buyer-runtime/src/eip7702-runtime.ts:318-326 | exactly which accounts that the clearing test rejects are out of the signed pair's reach |
| Eip7702Account.InterposedTransactionTrapsDelegation | packages/buyer-runtime/src/eip7702-runtime.ts:633-644 | an own transaction of the source between delegation and clearing leaves it delegated for good |
| Eip7702Runtime.LocalRuntime.Provision | packages/buyer-runtime/src/eip7702-runtime.ts:407-470 | a handle is given out only for a package confirmed by the buyer, of the pinned factory and within its window, a payer other than the source, and after a last inspection of the untouched source and the committed delegate; the delegate is deployed at most once, nothing of the rescue is submitted, and each error is raised only for its own reason |
| Eip7702Runtime.LocalRuntime.Deploy | packages/buyer-runtime/src/eip7702-runtime.ts:432-445 | deploys at most once and succeeds only with a confirmed receipt for that deployment |
| Eip7702Runtime.LocalRuntime.TryAction | packages/buyer-runtime/src/eip7702-runtime.ts:570-628 | tries the next index once within the package's window: its outcome is about a call that runs exactly the package's action of that index, simulated in vain, or submitted and mined; no failure means that all this went as it should |
| Eip7702Runtime.LocalRuntime.SubmitAction | packages/buyer-runtime/src/eip7702-runtime.ts:592-628 | submits the request just simulated, and succeeds only if its receipt was found and an inspection showed the source delegated to the package's delegate |
| Eip7702Runtime.LocalRuntime.RescueLoop | packages/buyer-runtime/src/eip7702-runtime.ts:569-631 | the loop follows the protocol, returns the submitted hashes in order, and has one outcome per index unless it failed; it fails exactly if not every index went as it should |
| Eip7702Runtime.LocalRuntime.Clear | packages/buyer-runtime/src/eip7702-runtime.ts:634-689 | submits the clearing request at most once and reports success only if an inspection showed the source cleared |
| Eip7702Runtime.LocalRuntime.CheckBeforeExecution | packages/buyer-runtime/src/eip7702-runtime.ts:550-560 | the checks before the first submission submit nothing |
| Eip7702Runtime.LocalRuntime.CheckReady | packages/buyer-runtime/src/eip7702-runtime.ts:493-515 | passes only within the package's window, with the same payer on the right chain, and after an inspection of the untouched source and the committed delegate; each error is raised only for its own reason |
| Eip7702Runtime.RescueRequestRuns | packages/buyer-runtime/src/eip7702-runtime.ts:573-583 | the request for an index goes from the payer to the source with value 0 and makes the delegate run exactly the package's action of that index |
| Eip7702Runtime.LocalRuntime.Execute | packages/buyer-runtime/src/eip7702-runtime.ts:530-703 | after any submission the run ends with the source shown as cleared, or with DELEGATION_NOT_CLEARED carrying every rescue hash in order and the clearing hash; it returns normally exactly if every index went as it should and the source was shown cleared, with one outcome per index, each about a call that runs exactly that action, completed exactly if it was mined as confirmed; the handle is consumed |
| Eip7702Runtime.LocalRuntime.Authorize | packages/buyer-runtime/src/eip7702-runtime.ts:472-528 | an authorized handle carries the two authorizations for the package's delegate, chain and nonces, after the checks of execution have passed once already; its provisioned handle is consumed, and each error is raised only for its own reason |
| Eip7702Runtime.StatusMeaning | packages/buyer-runtime/src/eip7702-runtime.ts:723-728 | COMPLETED, PARTIAL and FAILED mean all, some and none of the outcomes completed |
| Eip7702Safety.IndexesTriedInOrder | packages/buyer-runtime/src/eip7702-runtime.ts:570-591 | indexes are tried in order, each at most once |
| Eip7702Safety.SubmissionsInOrder | packages/buyer-runtime/src/eip7702-runtime.ts:580-644 | the delegation rides on the first submission only, the clearing request comes last and at most once |
| Eip7702Safety.SubmissionsDoTheirPart | packages/buyer-runtime/src/eip7702-runtime.ts:573-644 | whatever happens, each submitted rescue request goes from the payer to the source with value 0 and runs exactly the one action of its index, and the clearing request runs nothing and carries the revocation |
| Eip7702Safety.ActionsSubmittedOnce | packages/buyer-runtime/src/eip7702-runtime.ts:569-631 | each action is submitted at most once, in plan order |
| Eip7702Safety.SubmittedCallsRun | contracts/src/SafeExit7702RescueDelegate.sol:148-189 | the delegate refuses none of the submitted calls as a repetition |
| RescueDelegate.Delegate.Execute | contracts/src/SafeExit7702RescueDelegate.sol:148-189 | runs exactly the selected actions of the committed plan, if they are in order, none has been run and none reverts, and otherwise changes nothing |
| RescueDelegate.ActionsRunOnce | contracts/src/SafeExit7702RescueDelegate.sol:173-185 | whoever calls the delegate and however often, no action runs twice |
| Eip7702Safety.SubmissionsDelegateThenClear | packages/buyer-runtime/src/eip7702-runtime.ts:563-644 | including what was submitted delegates the source and, with the clearing request, empties it and spends both nonces |
| Eip7702Safety.ClearedExecutionIsSafe | packages/buyer-runtime/src/eip7702-runtime.ts:657-671 | after a run shown as cleared the signed pair can never change the source's code again |
| Eip7702Safety.ExecutedAtMostOnce | packages/buyer-runtime/src/eip7702-runtime.ts:533-540 | under any interleaving one authorized handle is executed at most once |
| Eip7702Safety.SequentialAuthorizationsAreUnique | packages/buyer-runtime/src/eip7702-runtime.ts:476-527 | without overlapping calls one provisioned handle yields one authorized handle |
| Eip7702Safety.TwinsExactlyFromOverlap | packages/buyer-runtime/src/eip7702-runtime.ts:476-527 | in every reachable state: however the calls go on without a further overlap, no provisioned handle gets two authorized ones, exactly when none has two yet and no calls overlap now |
| Eip7702Safety.OverlappingAuthorizationsBothExecute | packages/buyer-runtime/src/eip7702-runtime.ts:476-527 | a run in which overlapping calls make two authorized handles of one provisioned handle, and both are executed |
| Finality.DeepBlocksStay | apps/web/src/lib/live-buyer-report-verifier.ts:242-258 | a block with enough confirmations stays canonical forever under shallow reorgs |
| Finality.HeadFirstIsFinal | packages/buyer-runtime/src/eip1193.ts:174-203 | reading the head before the block makes one check final |
| Finality.SingleCheckSoundIff | apps/web/src/lib/live-buyer-report-verifier.ts:242-261 | when a single check is sound, and a history for which it is not |
| Finality.TwoChecksAreFinal | apps/web/src/lib/live-buyer-report-verifier.ts:163-230 | two checks in sequence are final whatever order each reads in, and pin the block in between |
| Finality.AssertCanonicalFinality | apps/web/src/lib/live-buyer-report-verifier.ts:242-272 | passes exactly if head and block, read in either order, confirm the receipt's block |
| Finality.CompletedIsProven | apps/web/src/lib/live-buyer-report-verifier.ts:164-230 | the checks and reads of a completed verification prove the transfer final from the first head read on |
| Finality.Verify | apps/web/src/lib/live-buyer-report-verifier.ts:130-240 | what each verdict rests on: completed on a block that is canonical for ever, holds the matching successful transaction and transfer, and left the promised balance or owner; pending on a missing receipt or a failed check; reverted on one passed check and a failed receipt; rejected on one passed check and a transaction, transfer or state that does not match |
| Finality.RevertedIsFinalIfHeadFirst | apps/web/src/lib/live-buyer-report-verifier.ts:163-166 | a reverted verdict is final when its check read the head first |
| Finality.WaitForReceipt | packages/buyer-runtime/src/eip1193.ts:163-222 | a returned receipt lies in a block that stays canonical, with this status |
| Finality.WaitForCanonicalReceipt | packages/buyer-runtime/src/eip7702-viem.ts:488-541 | the same at policy depth for the RPC client |
| Ordering.CompareActionsIsStrictTotalOrder | packages/planner/src/planner.ts:143-158 | on actions with distinct ids the comparison is a strict total order |
| Ordering.PickOrderUnique | packages/planner/src/planner.ts:160-184 | there is only one order in which each pick is best among the ready actions |
| Ordering.OrderIgnoresInputOrder | packages/planner/src/planner.ts:160-184 | the result is the same for every permutation of the input |
| Ordering.PickOrderIsTopological | packages/planner/src/planner.ts:160-184 | the order respects dependencies and repeats no id |
| Ordering.FirstIsBest | packages/planner/src/planner.ts:169-172 | the first of the sorted ready actions is the best of them |
| Ordering.RankedNeverStuck | packages/planner/src/planner.ts:174-176 | with acyclic dependencies something is always ready |
| Ordering.ByIdValues | packages/planner/src/planner.ts:164-164 | the map by id holds given actions, and all of them if ids are distinct |
| Ordering.TopologicalPrioritySort | packages/planner/src/planner.ts:160-184 | returns that order, or reports a cycle exactly when the dependencies cannot be ranked |
| Planner.DeterministicRescuePlanner.Plan | packages/planner/src/planner.ts:488-696 | which requests are refused and why, and that a plan meets the schema rules, is in pick order, lists exactly these omissions and is READY exactly without omissions |
| PlanMeaning.PlanConserves | packages/planner/src/planner.ts:196-374 | with unique evidence and output ids that do not collide, a plan moves of every token exactly the supported balances plus the adapters' outputs, and of native coin the first supported balance |
| PlanMeaning.EveryAssetIsMoved | packages/planner/src/planner.ts:196-300 | exactly one action moves each supported nonempty asset: that contract and token id, the whole balance, from its owner to the destination |
| PlanMeaning.EveryOutputIsMoved | packages/planner/src/planner.ts:301-374 | exactly one action moves each output of an adapter, in its full amount, after the adapter's own action |
| PlanMeaning.EveryAdapterActs | packages/planner/src/planner.ts:538-551 | exactly one action is the adapter's own |
| PlanMeaning.EveryApprovalIsRevoked | packages/planner/src/planner.ts:553-620 | exactly one action revokes each supported approval in force, for its contract and spender or operator |
| PlanMeaning.NothingElseIsPlanned | packages/planner/src/planner.ts:506-673 | every action of a plan does one of these things |
| Planner.DeterministicRescuePlanner.Collect | packages/planner/src/planner.ts:494-673 | collects exactly the planned actions and omissions, with priorities and indexes in step |
| Planner.DeterministicRescuePlanner.AddAssets | packages/planner/src/planner.ts:514-536 | adds the transfers and omissions of the assets, and collects the native ones |
| Planner.DeterministicRescuePlanner.AddCandidates | packages/planner/src/planner.ts:538-551 | adds each adapter action followed by its outputs |
| Planner.DeterministicRescuePlanner.AddApprovals | packages/planner/src/planner.ts:553-632 | adds the revocations, each depending on the transfers of its contract that the indexes hold |
| Planner.Draft.AddAction | packages/planner/src/planner.ts:500-504 | keeps priorities and both transfer indexes in step with the actions |
| Planner.RevocationsMoveNothing | packages/planner/src/planner.ts:377-396 | revocations leave the transfer indexes alone |
| Planner.DependencyShape | packages/planner/src/planner.ts:538-673 | outputs depend on their adapter action, revocations on transfers, the native transfer on everything else |
| Planner.RevocationDependencies | packages/planner/src/planner.ts:569-620 | a revocation depends on the transfers of its contract and on nothing else |
| Planner.ClashMeans | packages/planner/src/planner.ts:643-652 | the native transfer depends on its own id exactly when another planned asset has it |
| Planner.CycleExactlyOnClash | packages/planner/src/planner.ts:174-176 | the dependencies are acyclic exactly without that clash |
| PlanProperties.PlannedIdsDistinct | packages/planner/src/planner.ts:506-673 | with unique evidence the cycle error is unreachable, and action ids are distinct exactly when the joined output ids are |
| PlanProperties.NoColonsNoCollision | packages/planner/src/planner.ts:315-324 | candidate ids without colons make joined output ids distinct |
| PlanProperties.PlanLosesAnOutput | packages/planner/src/planner.ts:164-164 | for a request in scope, with unique ids, the planner returns a READY plan without one of the adapter outputs |
| PlanProperties.ClashIsReported | packages/planner/src/planner.ts:174-176 | a request in scope for which the planner reports a cycle |
| PlanProperties.NothingLostIff | packages/planner/src/planner.ts:160-184 | the sort keeps every action exactly when ids are distinct |
| PlanProperties.RevocationsFollowTransfers | packages/planner/src/planner.ts:553-620 | in the plan every revocation follows all transfers of its contract |
| PlanProperties.OutputsFollowAdapter | packages/planner/src/planner.ts:538-551 | with unique evidence every adapter output in a plan follows its adapter action, also when joined ids collide |
| PlanProperties.NativeIsLast | packages/planner/src/planner.ts:643-673 | the native transfer is last and depends on all others |
| PlanProperties.ComparesOwnPriorities | packages/planner/src/planner.ts:143-149 | the recorded priorities are the actions' own, even with repeated ids |
| PlanProperties.AssetsAccounted | packages/planner/src/planner.ts:514-536 | every asset is moved, omitted or empty: exactly one of the three |
| PlanProperties.ApprovalsAccounted | packages/planner/src/planner.ts:553-632 | every approval is revoked, omitted or inactive: exactly one of the three |
| PlanProperties.OmissionsDistinct | packages/planner/src/planner.ts:506-642 | nothing is omitted twice |
| PlanProperties.ReadyIff | packages/planner/src/planner.ts:685-685 | READY means a complete scan, everything supported and revocable, and at most one native balance |
| Json.WriteUnique | packages/planner/src/integrity.ts:23-25 | no JSON text of a value begins another value's text in a way that could be confused |
| Json.StringifyInjective | packages/planner/src/integrity.ts:23-25 | different values have different JSON texts |
| Sorting.SortedListingUnique | packages/planner/src/integrity.ts:12-17 | a set of keys has one sorted listing |
| Integrity.CanonicalIsSimilar | packages/planner/src/integrity.ts:7-21 | canonicalization changes nothing but key order |
| Integrity.SimilarSameCanonical | packages/planner/src/integrity.ts:7-21 | values equal up to key order have the same canonical form |
| Integrity.SameCanonicalSimilar | packages/planner/src/integrity.ts:7-21 | values with the same canonical form are equal up to key order |
| Integrity.CanonicalizeIdempotent | packages/planner/src/integrity.ts:7-21 | canonicalization is idempotent |
| Integrity.HashIdentifies | packages/planner/src/integrity.ts:23-25 | the hash identifies a payload up to key order, and nothing else |
| Integrity.VerifiedIff | packages/planner/src/integrity.ts:27-35 | a value verifies exactly when the schema accepts it and it carries the hash of its other fields, however the schema orders the keys of what it parses |
| Integrity.SealedPlansVerify | packages/planner/src/planner.ts:676-693 | what the schema makes of a sealed payload passes verification and has lost nothing of the payload |
| PlanNames.NamesDiffer | packages/shared/src/schemas.ts:230-376 | no two keys of a plan's JSON have one name, and no two texts of its fixed lists are equal |
| PlanJson.PlanDetermined | packages/shared/src/schemas.ts:243-376 | plans with the same JSON value, up to key order, are the same plan |
| PlanIntegrity.VerifiedMeans | packages/planner/src/integrity.ts:27-35 | a plan verifies exactly when its fields have their formats, it meets the schema's rules and its hash is its own |
| PlanIntegrity.VerifiedHashNamesPlan | packages/planner/src/integrity.ts:23-35 | two plans that verify carry the same hash exactly when they are the same plan |
| PlanIntegrity.EmittedVerifies | packages/planner/src/planner.ts:676-693 | the emitted form of a plan that meets the schema verifies |
| PlanIntegrity.EmitPlan | packages/planner/src/planner.ts:488-696 | the planner's plan is emitted exactly when its fields have their formats, and it verifies |
| PlanIntegrity.PlanAndSimulate | apps/web/src/lib/agent-runtime.ts:355-403 | an emitted plan is never turned away by the simulator's integrity check, and its report covers it |
| PlanIntegrity.WalletFollowsEmittedPlan | packages/execution/src/index.ts:175-199 | whatever plan reaches the wallet under an emitted plan's hash, the transaction prepared is that of the emitted plan |
| Integrity.TamperingIsDetected | packages/planner/src/integrity.ts:27-35 | a plan carrying a verified hash verifies exactly when all other fields are the same |
| Simulator.SimulateRescuePlan | packages/simulator/src/orchestrator.ts:27-129 | simulates in plan order with the gas of earlier successes, skips actions with failed dependencies, and splits the plan into executable and excluded |
| Simulator.ExecutableClosed | packages/simulator/src/orchestrator.ts:42-104 | the executable actions are closed under dependencies |
| Simulator.ExcludedIsComplement | packages/simulator/src/orchestrator.ts:101-115 | an action is excluded exactly when it is not executable, for providers that answer about the action asked |
| LocalProvider.AskedEchoes | packages/simulator/src/local-provider.ts:212-263 | the local provider is one of them |
| Simulator.DependenciesSucceededFirst | packages/simulator/src/orchestrator.ts:43-66 | an action succeeds only after all its dependencies |
| Simulator.NativeNeedsEverything | packages/simulator/src/orchestrator.ts:42-99 | on the planner's plans a native transfer is executable only if every other action is |
| LocalProvider.SimulationSucceedsIff | packages/simulator/src/local-provider.ts:212-263 | a simulation succeeds exactly if the action is known to the provider and its call works: answered, with true where a token has to say so, with a gas estimate where one is wanted, and for native coin with something left after gas; any other gives a reason, and is a revert exactly if that mentions one |
| LocalProvider.SimulationRecords | packages/simulator/src/local-provider.ts:265-420 | a successful simulation records that the source loses exactly what the recipient gains, the action's own asset and amount, and nothing for a revocation; a failed one records nothing |
| LocalProvider.NativePreparation | packages/simulator/src/local-provider.ts:271-306 | a successful native transfer and its gas reserve are together the smaller of balance and maximum |
| LocalProvider.NativeSpendsTheRest | packages/simulator/src/local-provider.ts:271-306 | on the planner's plans the reserve is the gas recorded for the whole plan |
| LocalProvider.SucceededResult | packages/simulator/src/local-provider.ts:212-263 | a successful result in a report is the provider's answer to that very request |
| Execution.SameAsSimulated | packages/execution/src/index.ts:75-173 | the prepared transaction is the simulated call; the native value is recovered from the debit and stays below the maximum |
| Execution.SimulatedActionsArePrepared | packages/execution/src/index.ts:175-199 | for results of the local provider preparation succeeds exactly for unexpired successes of standard actions |
| Execution.PreparedFollowsPlan | packages/execution/src/index.ts:175-199 | whatever result is given, a transaction is prepared only from an unexpired success on this very plan, and has the chain, target, call data and value the named action says, and moves no more native coin than the maximum |
| DelegatePackage.PackageExpiry | apps/web/src/lib/live-eip7702-signing-package-builder.ts:97-115 | the expiry is a whole second more than 29 seconds and at most ten minutes away, ten seconds before every simulation |
| DelegatePackage.IndexesValid | packages/agent-service/src/eip7702-signing-package.ts:176-200 | the loop over the indexes accepts exactly 0, 1, 2 and so on within bounds |
| DelegatePackage.AssembledTimes | apps/web/src/lib/live-eip7702-signing-package-builder.ts:117-188 | these times hold for every assembled package, and until it expires the runtime's window is met |
| DelegatePackage.PlannedActionsStayInScope | packages/planner/src/planner.ts:404-475 | planned actions belong to the source and move assets to the destination only |
| DelegatePackage.SelectedCanBeDelegated | packages/adapters/src/eip7702-rescue.ts:218-303 | every selected action of a planner's plan has a delegated form of valid scope |
| DelegatePackage.PlannerPackagesMeetTheRules | packages/agent-service/src/eip7702-signing-package.ts:113-310 | for a planner's plan with nonzero, non-source assets, positive amounts and distinct contracts assembly succeeds exactly when a fresh simulation is at hand: its own rules never refuse it |
| DelegatePackage.AssembledPassesIff | packages/okx-transport/src/provider-bridge.ts:157-292 | before it expires the package passes the hand-over check exactly when the manifest lists what each selected action moves or revokes |
| DelegateCalls.AssembledActsAsPlanned | packages/adapters/src/eip7702-rescue.ts:218-303 | for every assembled package the call the delegate makes for action i is, up to the spelling of addresses, the call simulated for the plan's action of that id: same contract, token id, amount, recipient, spender or operator; native coin moves whole |
| DelegateCalls.PassingActsAsPlanned | packages/okx-transport/src/provider-bridge.ts:157-292 | the same for every package that passes the hand-over check, wherever it comes from |
| DelegateCalls.AssembledIsComplete | apps/web/src/lib/live-eip7702-signing-package-builder.ts:60-94 | an assembled package has, in plan order, exactly the supported non-adapter actions that are executable by an unexpired success of the trusted provider |
| DelegateCalls.PassingBelongs | packages/okx-transport/src/provider-bridge.ts:157-292 | a package that passes the hand-over check is of this job, plan, block and request, commits to its own actions, and each of its actions has a successful simulation that outlasts it |
| DelegateCalls.LargestAmountMovesAll | contracts/src/SafeExit7702RescueDelegate.sol:412-422 | a token amount of 2^256 - 1 is taken for all the source holds |
| DelegateCalls.WalletMakesPlannedCall | packages/execution/src/index.ts:75-173 | the wallet's own transaction for such an action is the same call as well |
| DelegatePackage.SelectedNativeNeverPasses | packages/okx-transport/src/provider-bridge.ts:157-292 | an assembled package with a native transfer among the selected actions passes for no request and no job |
| RevertData.FindEvmRevertData | apps/web/src/lib/evm-revert-data.ts:5-27 | terminates on cyclic graphs, returns nothing exactly when no reachable object carries revert data, and otherwise the data at the first carrying path |
| RevertData.FirstIsNearest | apps/web/src/lib/evm-revert-data.ts:9-24 | no carrying object is nearer to the root |
| RevertData.CauseBeforeError | apps/web/src/lib/evm-revert-data.ts:23-23 | at equal distance `cause` goes before `error` |
| RevertData.HasNonEmptyEvmRevertData | apps/web/src/lib/evm-revert-data.ts:29-32 | true exactly when the first data found is not empty |
| RateLimit.InMemoryRateLimiter.Consume | packages/security/src/rate-limit.ts:45-65 | counts in the key's open window or opens one, pruning every hundredth call |
| RateLimit.InMemoryRateLimiter.Prune | packages/security/src/rate-limit.ts:67-73 | removes exactly the closed windows |
| RateLimit.BucketTable.Increment | packages/persistence/src/rate-limit-store.ts:32-57 | the upsert counts or starts over |
| RateLimit.SharedRateLimiter.Consume | packages/security/src/rate-limit.ts:85-109 | decides as the returned bucket says, and refuses empty keys and broken buckets |
| RateLimit.PruningIsInvisible | packages/security/src/rate-limit.ts:67-73 | for clocks that do not run backwards pruning changes no decision |
| RateLimit.LimitersAgree | packages/persistence/src/rate-limit-store.ts:36-51 | the SQL limiter decides like the one in memory on every request sequence |
| RateLimit.PruningIsInvisibleIff | packages/security/src/rate-limit.ts:45-73 | after any orderly history pruning changes no decision on requests read at t and then at u, exactly when t is not later than u |
| RateLimit.BackwardsReadingsDisagree | packages/security/src/rate-limit.ts:45-73 | for every limit, window and readings that run backwards, an orderly history after which pruning changes a decision |
| RateLimit.KeysAreIndependent | packages/security/src/rate-limit.ts:51-57 | requests of other keys change no decision |
| RateLimit.QuotaPerWindow | packages/security/src/rate-limit.ts:59-64 | at most `limit` allowed requests per window |
| RateLimit.QuotaPerInterval | packages/security/src/rate-limit.ts:51-64 | at most twice the limit in any interval of window length |

## Left out

- Per-field formats of the schemas (patterns, lengths, required non-empty texts) are not modelled, only the rules that relate fields; an action id made longer than its limit by a prefix is therefore accepted here.
- Timestamps inside jobs (`createdAt`, `updatedAt`, `submittedAt`, transition times) are not modelled; neither are `warnings` and free-text details and messages. The wording of the planner's own effect descriptions is a parameter.
- RPC clients, ABI encoding, EIP-712 and EIP-7702 signature recovery and HMAC are opaque: their answers are parameters.
- `submittedAuthorizations` in `eip7702-viem.ts`, the check that a mined transaction carries the submitted authorization list.
- JobStore.InMemoryJobStore.Save: the request-id check and the write are one atomic step, as in the Postgres transaction; the interleaving between them in memory, in which two jobs with one request id can both be created, is not modelled.
- JobStore.InMemoryJobStore.GetByRequestId: gives some job with the request id, not the first in insertion order; stored request ids are unique here.
- JobStore.PostgresJobStore.SaveAgentJob: the incident, scan, plan and simulation rows written in the same transaction, the integer range of columns and serialization failures are not modelled.
- AgentService.AgentIncidentService.GetSigningPackages: reads the clock once per call, where the source reads it several times.
- AgentService.AgentIncidentService.CreateIncident: the id factory gives an id no other client uses.
- BuyerReports.OrderDoesNotMatter: does not compare receipt statuses, which a reverted or rejected verdict may overwrite, and starts from a job none of whose packages has been reported.
- JobOutcomes.FinishedJobsTellTheTruth: is about the live ports; another monitor could complete a job by itself.
- Finality.Verify: the check of sender, target and calldata is a parameter, and blocks and addresses are opaque values, so hexadecimal case plays no part.
- Finality.WaitForCanonicalReceipt: polls are counted instead of timed.
- Eip7702Safety.TwinsExactlyFromOverlap: is about a model of the handle tables in which each call is two steps; executing a handle there means consuming it. That the account's nonces stop a second run of the same pair is not in that model but in `Eip7702Account.SpentPairIsDead`.
- PlanIntegrity.VerifiedHashNamesPlan: effect descriptions are compared by their texts, and plans with statuses or simulation states the planner never writes are not among the plans compared.
- JobSettlement.CompletedActionsAreRescued: is about the live ports, and about one chain; names of accounts and transactions are mapped to those of the chain by a parameter that ignores the case of addresses.
- Simulator.SimulateRescuePlan: result ids, expected effects and warnings are left out, and texts of failure reasons are named rather than spelled.
- Json.StringifyInjective: numbers are their canonical texts; negative zero and lone surrogates are not distinguished from what JSON makes of them.
- RateLimit.BucketTable.Increment: the key is stored as it is instead of hashed, and counts do not overflow.
- RescueDelegate.Delegate.Execute: reentrancy, the checks of caller, chain and deadline, and what a called token does are not modelled; whether running an action reverts is a parameter. Of the other Solidity contracts nothing is modelled.
- DelegateCalls.AssembledActsAsPlanned: is about the call the delegate makes, not about its checks of balances before and after.
- PlanMeaning.PlanConserves: of several supported native balances only the first is moved; the others are omitted.
- ReceiptTruth.ReceiptsAlwaysTrue: is about the live ports and one chain, like the settlement of completed actions, and about operations that mark a receipt as reverted or rejected only as the verifier answered.
- The user interface, wallet discovery, payments, environment parsing and log redaction are not modelled, nor are the per-route typed-data packages and the preflight response validator, which compare field by field.
