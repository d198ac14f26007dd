# Payment orchestration layer: a verified model

A Dafny model of the payment lifecycle of the orchestration layer, with proofs. It covers three things.

**The payment protocol.** Any number of `create` runs and webhook workers step the same transaction rows. Every
database transaction, insert, find, charge call and Redis operation is one atomic step, and any run may throw or crash
between two steps. Redis is adversarial: SET NX is granted or refused at will, and GET answers nothing, the processing
mark, or any snapshot some run ever stored under the key. `Protocol` defines the steps, `Ledger` the story of one
transaction (versions of its row, audit rows), `ProtocolInvariant` the inductive invariant over the program counters
of all actors, and `ProtocolTheorems` what follows for every reachable state and every run. `World` adds webhook
delivery, the unique index on events, a queue that may lose entries, workers that start only from what they pop, and
the lookup of the row by the gateway's id or the client's key in the payload; in `Protocol` itself the lookup may give
any row.

`Provenance` asks where things come from: which audit row stands behind a charge call, which charge call or webhook
behind a `gatewayTxnId`. `RestOfRun` says what can still happen once a webhook has taken a row over or a charge call
has succeeded, `Matching` which webhooks can take over a row that is not yet paid. The code does not keep a run from
charging a row that a webhook has just paid. `Provenance.ChargeMeetsPaidRowIff` and
`Matching.PaidRowChargedOnlyByItsKey` say exactly when that happens: a delivered event names the client's key and
overtakes the run right before its charge call. `Matching.PaidRowsAreCharged` shows it from any world,
`RestOfRun.ExtraChargeIffAtCall` that nothing else leads to a charge after the hand-off,
`Provenance.OneChargeAfterHandOff` that there is at most one.

The protocol's two assumptions about its surroundings are proved of the modules that provide them: a ranking is
duplicate-free (`Routing.RankingMembers`), and Redis answers only what was written (`Redis.AnswersWereWritten`).

**The services run by themselves.** Classes with the services' fields, whose methods follow the services' code:
`StateMachine.PaymentStore`, `Payments.TransactionsService`, `Reconciliation.ReconciliationWorkerService`,
`Redis.RedisService`, `Webhooks.WebhooksService`, `Webhooks.ReconciliationQueue` and
`RoutingEngine.RoutingEngineService`. Each method is proved against a function or predicate of the old state.
`Payments.Responds` says what `create` answers and writes alone, with its own time and reachability for each Redis
call; `SoloRun` shows from the same predicate that every such outcome is a run of the protocol from any reachable
state, and that the worker's driving is a sequence of the protocol's steps; `SoloWorker` does the same for
`processEvent`.

**The routing engine.** Scores are exact rationals, `Math.round(x)` is floor(x + 1/2). `GatewayHealth` treats the
circuit breaker and the latency average as functions of the history of outcomes, `Routing` the scores and the ranking,
`RoutingEngine` the engine's runs with a clock, expiring cooldown keys, and a Redis that may fail at any call and that
others share. The GETs of one ranking are in flight together, as `Promise.all` has it.

An audit row's reason text tells which actor wrote it, so `create` rows and webhook rows are told apart by data the
system really stores. Reason texts are modelled as constructors of `Reason`. A ledger's `past` and `owner` are
history: `VersionsAreReal` shows that `past` lists exactly what the row was in earlier states.

## Where the code and its documentation differ

The model follows the code.

- The repository's own README.md:11 promises a single probe in HALF_OPEN. The code only scales the score by 0.3, so
  every ranking that lists the gateway offers it until its next outcome (`RoutingEngine.HalfOpenIsOfferedIff`). The
  promise holds exactly if no two rankings list it in that time (`RoutingEngine.SingleProbeIff`);
  `RoutingEngine.SecondProbe` breaks it.
- The comment at src/common/enums/transaction-state.enum.ts:7 gives RETRY_PENDING one successor. The table also allows
  FAILED (line 39), which neither actor ever writes from there (`ProtocolTheorems.RetryIsNeverGivenUp`).
- The comment at src/gateways/routing-engine.service.ts:168 promises a cooldown of 30 s. The key is also missing when
  Redis has gone from the server to memory since the trip, or fails at the GET: then the gateway comes back early
  (`RoutingEngine.TrippedGatewayIsRankedIff` says exactly when, `RoutingEngine.CooldownCanBeLost` shows it).
- The comment at src/gateways/routing-engine.service.ts:66 offers rank 0 for an OPEN gateway. The code uses -1 and
  filters it out, unless nothing is left.
- src/redis/redis.service.ts:109-115 ignores NX and XX on the server when no expiry is given, while the in-memory
  store honours NX always and XX never. `Redis.SetResult` keeps all of this.

## Model

| member | source | states |
|---|---|---|
| Lifecycle.AllowListIsForward | src/common/enums/transaction-state.enum.ts:31-43 | the allow-list is one rank forward, never out of FAILED, plus PROCESSING to RETRY_PENDING and RETRY_PENDING to FAILED |
| Lifecycle.TransitLogsTheRow | src/transactions/state-machine.service.ts:52-80 | an accepted transition sets what the caller sends, keeps what the caller leaves out and the identity, and its audit row names the gateway the row is left with |
| Ledger.WriteKeepsChronicle | src/transactions/state-machine.service.ts:42-80 | an accepted transition keeps: every version of the row is the replay of the audit rows up to it, and these form an unbroken allow-list walk |
| Ledger.WriteKeepsReceipt | src/transactions/state-machine.service.ts:52-66 | an accepted transition keeps: `gatewayTxnId` is set exactly from SUCCESS on and all versions agree on it |
| Ledger.WriteKeepsTally | src/transactions/state-machine.service.ts:42-80 | an accepted transition of either actor keeps: trail length 3r + rank, attempts = PROCESSING rows, SUCCESS, FAILED and RECONCILED counted once |
| Ledger.CreatorWriteNeedsQuiet | src/transactions/transactions.service.ts:145-231 | the owning run's write is accepted only if no webhook row has been written, and then the row stands where the run believes |
| Ledger.CreatorWriteKeepsSane | src/transactions/transactions.service.ts:145-244 | each write of the loop keeps the whole story of the row, with the fallback list as the rest of the plan |
| Ledger.CallKeepsSane | src/transactions/transactions.service.ts:164-172 | a charge call is for the next gateway of the plan |
| Ledger.WorkerWriteClimbs | src/webhooks/reconciliation-worker.service.ts:151-192 | a webhook write accepted from a stale local state moves the row exactly one rank forward and is never FAILED or RETRY_PENDING |
| Ledger.WebhookWriteKeepsSane | src/webhooks/reconciliation-worker.service.ts:144-192 | each write of a worker keeps the whole story, whatever the owning run is doing |
| Ledger.NewLedgerIsSane | src/transactions/transactions.service.ts:118-128 | a row just inserted from a duplicate-free ranking starts a sane story |
| Ledger.CreatorWriteKeepsRecorded | src/transactions/transactions.service.ts:145-231 | each write of the loop keeps: the PROCESSING rows of the run name the first gateways of the plan, never behind the charge calls |
| ProtocolInvariant.StepGrows | src/transactions/state-machine.service.ts:30-83 | no step of any actor changes a row's identity, drops a version or an audit row, or touches a settled row |
| ProtocolInvariant.WriteStateKeepsRows | src/transactions/transactions.service.ts:145-244 | a loop transition under interference, accepted or refused, keeps the invariant of all rows |
| ProtocolInvariant.PushKeepsRows | src/webhooks/reconciliation-worker.service.ts:138-193 | a worker's transition from a possibly stale state, accepted or refused, keeps it too |
| ProtocolInvariant.InsertKeepsRows | src/transactions/transactions.service.ts:118-128 | the insert, or its refusal by the unique index, keeps it |
| ProtocolInvariant.PlaceChargeKeepsRows | src/transactions/transactions.service.ts:164-172 | a charge call keeps the bill of every row a prefix of its plan |
| ProtocolInvariant.StepKeepsCache | src/transactions/transactions.service.ts:64-107 | everything ever stored in Redis under a key is a version of the row with that key |
| ProtocolInvariant.StepKeepsInv | src/transactions/transactions.service.ts:52-252 | every action of every actor keeps the invariant |
| ProtocolInvariant.RunKeepsInv | src/transactions/transactions.service.ts:52-252 | the invariant holds in every state of every run |
| ProtocolTheorems.TrailIsCreatorThenWebhooks | src/webhooks/reconciliation-worker.service.ts:144-192 | every trail is rows of the owning run followed by at most four webhook rows |
| ProtocolTheorems.NoCreatorRowAfterHandOff | src/transactions/transactions.service.ts:145-244 | once a webhook row is in the trail, every row added later in the run comes from a webhook |
| ProtocolTheorems.OvertakenRunThrows | src/transactions/transactions.service.ts:247-251 | a run overtaken by a webhook throws at its next write and changes no row |
| ProtocolTheorems.AttemptsAreBounded | src/transactions/transactions.service.ts:155-159 | `attemptCount` is at most 1 + the number of fallback gateways in every reachable state |
| ProtocolTheorems.AllowListHasNoBound | src/common/enums/transaction-state.enum.ts:31-43 | the allow-list alone permits any number of attempts, so the bound does not come from it |
| ProtocolTheorems.TrailShape | src/common/enums/transaction-state.enum.ts:31-43 | the trail has 3r + rank rows, at most 3n + 1 for n ranked gateways |
| ProtocolTheorems.TransitionsTerminate | src/transactions/state-machine.service.ts:44-50 | every action that changes a row lowers a measure that never falls below zero |
| ProtocolTheorems.ChargesFollowThePlan | src/transactions/transactions.service.ts:140-172 | the charge calls for a row are the first gateways of its ranking, in order, each once |
| ProtocolTheorems.NoDoubleCharge | src/transactions/transactions.service.ts:166-172 | two charge calls with one client key come from one run and go to different gateways, and no two calls carry the same gateway-level key |
| ProtocolTheorems.ChargesComeFromTheInserter | src/transactions/transactions.service.ts:128-172 | every charge call for a key is made by the run that inserted its row |
| ProtocolTheorems.AuditReplaysTheRow | src/transactions/state-machine.service.ts:42-80 | replaying the audit rows gives the row's state, gateway, attempts and reconciliation |
| ProtocolTheorems.OutcomeIsWrittenOnce | src/transactions/transactions.service.ts:188-231 | SUCCESS or FAILED at most once and never both, RECONCILED only after SUCCESS and once, `gatewayTxnId` fixed from SUCCESS on |
| ProtocolTheorems.VersionsAreReal | src/transactions/state-machine.service.ts:68-69 | the versions a ledger lists are what the row was in earlier states of the run |
| ProtocolTheorems.ResponsesAgree | src/transactions/transactions.service.ts:64-107 | all successful returns for a key name one transaction, and each is a version from which the audit rows lead to the present state |
| ProtocolTheorems.CachedSnapshotsAreVersions | src/transactions/transactions.service.ts:200-241 | the same for every snapshot stored in Redis |
| ProtocolTheorems.MatchedRowsStaySettled | src/webhooks/reconciliation-worker.service.ts:105-109 | when a worker reaches the processed mark with a matched row, that row is settled and never changes again |
| ProtocolTheorems.LoopNeverRunsDry | src/transactions/transactions.service.ts:215-246 | the throw after the loop is never reached |
| ProtocolTheorems.RetryIsNeverGivenUp | src/common/enums/transaction-state.enum.ts:39 | in every reachable state whatever happens next to a row in RETRY_PENDING leaves it there or takes it to ROUTED, never to FAILED as the table allows |
| ProtocolTheorems.FailuresReachTheCatchBlock | src/transactions/transactions.service.ts:93-251 | from every point in the try block a failure leads to the catch block, the deletion and the throw; a run may stop anywhere before its end |
| Provenance.EveryChargeWasRecorded | src/transactions/transactions.service.ts:154-172 | the k-th PROCESSING row of the owning run names the k-th ranked gateway, the charge calls are those gateways in that order, and a call never comes before its row |
| Provenance.ChargeMeetsPaidRowIff | src/transactions/transactions.service.ts:161-172 | when a charge call is about to be made its row is paid exactly if a webhook row is in the trail, and PROCESSING otherwise |
| Provenance.OneChargeAfterHandOff | src/transactions/transactions.service.ts:145-244 | after the first webhook row of a transaction at most one more charge call is made for it in the rest of the run |
| RestOfRun.ExtraChargeIffAtCall | src/transactions/transactions.service.ts:145-244 | after the first webhook row a further charge call is enabled if the owner stands right before it, and from anywhere else none is made in the rest of the run |
| RestOfRun.OvertakenRunNeverReturns | src/transactions/transactions.service.ts:247-251 | a run in its loop when a webhook has taken its row over never gets to an answer for its client, in the rest of the run |
| RestOfRun.SuccessIsTheLastCharge | src/transactions/transactions.service.ts:188-210 | after a charge call is answered with success the run places no other and gets no other answer, and no call for the row is made by anyone |
| RestOfRun.OneSuccessPerKey | src/transactions/transactions.service.ts:166-188 | of all charge calls under one client key, by any runs, at most one is ever answered with success |
| Provenance.ReceiptHasAnOrigin | src/transactions/transactions.service.ts:188-195 | a row's `gatewayTxnId` was written in one step, by the owning run for the gateway it charged last and with that call's answer, or by a worker with the id it read from its event |
| Provenance.RowsCarryTheRequest | src/transactions/transactions.service.ts:118-126 | in every run every row keeps the key, merchant, amount and currency of the request it was inserted for |
| Provenance.RowsAreAddedOneByOne | src/transactions/state-machine.service.ts:70-80 | a step adds at most one audit row of a transition: the owner's, naming the gateway its loop is at, or a worker's, naming the gateway of its event |
| World.ReceiptIsAnswerOrDelivery | src/webhooks/reconciliation-worker.service.ts:176-184 | with deliveries added: the id is the answer to a charge call or is carried by a stored webhook event |
| Matching.LookupIsByIdOrKey | src/webhooks/reconciliation-worker.service.ts:90-97 | in every world of a run a worker is given a row exactly if its gateway id is the event's, or its key is the one the event names, or `___none___` if it names none; and none exactly if there is no such row |
| Matching.WebhookRowsNameAnEvent | src/webhooks/reconciliation-worker.service.ts:144-192 | every webhook row of every trail names the gateway of a stored event |
| Matching.UnpaidRowsAreDrivenByKey | src/webhooks/reconciliation-worker.service.ts:92-105 | a row that is not paid is driven only by workers whose stored event names its client key (one without a key names the stand-in `___none___`) |
| Matching.PaidRowChargedOnlyByItsKey | src/webhooks/reconciliation-worker.service.ts:92-105 | a row that is paid when its run is about to charge it was paid by a worker whose stored event carries its `gatewayTxnId` and names its client key |
| Matching.PaidRowsAreCharged | src/transactions/transactions.service.ts:161-172 | from every world: an event whose payload names the client's key is delivered, stored, queued, loaded and matched, drives the row to SUCCESS, and the run's charge call is still enabled |
| GatewayKeys.ChargeKeyIsInjective | src/transactions/transactions.service.ts:171 | the gateway-level key determines the client's key and the gateway |
| GatewayKeys.ChargeKeyReads | src/transactions/transactions.service.ts:171 | the gateway-level key is the client's key, an underscore and the gateway's name |
| World.EventsAreProcessedAtMostOnce | src/webhooks/webhooks.service.ts:34-58 | one record for each (gateway, event id), and queue entries plus `processEvent` calls for it never exceed one |
| World.ProcessedMeansSettled | src/webhooks/reconciliation-worker.service.ts:78-114 | an event marked processed for a matched row leaves that row FAILED or RECONCILED for the rest of the run |
| World.StepKeepsOnePlace | src/webhooks/reconciliation-worker.service.ts:41-51 | delivery, push, loss and pop keep each record in at most one place |
| World.DeliveryIsStoredIff | src/webhooks/webhooks.service.ts:34-58 | a delivery is stored, with all it carries, exactly if no event with its gateway and event id is; otherwise it is acknowledged |
| World.WorldIsAProtocolState | src/webhooks/reconciliation-worker.service.ts:64-115 | with deliveries and the queue added, the payment part is still a reachable state of the protocol |
| StateMachine.PaymentStore.Transition | src/transactions/state-machine.service.ts:19-84 | not found, refused, or the row and audit row of `Transit` with nothing else changed |
| StateMachine.PaymentStore.Insert | src/database/migrations/1751600000000-InitSchema.ts:38-40 | an insert succeeds exactly if no row has the key |
| Payments.TransactionsService.Pass | src/transactions/transactions.service.ts:146-243 | one pass of the loop: its audit rows, its row, and in the statistics one more success or failure of this gateway and nothing of any other |
| Payments.TransactionsService.Execute | src/transactions/transactions.service.ts:140-246 | the loop alone: first charged attempt decides, else FAILED on the last; exact row and audit rows, no refused transition, and statistics in which each gateway tried counts its own answer and no other row changes |
| Payments.TransactionsService.AnswerHeld | src/transactions/transactions.service.ts:64-91 | after a refusal: conflict, cached snapshot, stored row (then cached for a day) or conflict, also when the key has expired or Redis has switched since the refusal |
| Payments.TransactionsService.CreateLocked | src/transactions/transactions.service.ts:93-246 | a granted key: the stored row, no gateway, or failover over the ranking; the result is what every GET finds for a day, wherever in between Redis goes to memory |
| Payments.TransactionsService.Create | src/transactions/transactions.service.ts:52-252 | `create` alone in all its cases, with a time and a reachability of its own for each Redis call: result, tables, statistics by gateway and answer, and what Redis holds under the key afterwards |
| Payments.FailoverIsTallied | src/transactions/transactions.service.ts:198-213 | after a failover over distinct gateways each one tried has one more success or failure, its streak, circuit and average to match, and no other row has changed |
| Payments.FailoverIsTold | src/transactions/transactions.service.ts:146-243 | the audit rows of each attempt by position: gateway, states and reasons |
| Payments.ErrorsByCase | src/transactions/transactions.service.ts:64-113 | which error `create` answers with, exactly when, and that nothing is written then |
| Payments.NewPaymentCarriesTheRequest | src/transactions/transactions.service.ts:117-138 | a new payment carries the request, the ranking and the deciding answer, and its first audit row says it was created |
| Payments.LockLastsTenSeconds | src/transactions/transactions.service.ts:56-62 | a lock nobody deletes or overwrites is refused to others for ten seconds and granted from then on |
| Payments.ResultsLastADay | src/transactions/transactions.service.ts:200-207 | a result is found for 86400 seconds on the server, and for good in memory |
| SoloRun.FailoverIsAProtocolRun | src/transactions/transactions.service.ts:93-252 | from every reachable state, for every ranking and all gateway answers, the protocol goes on to the result, audit rows, charge calls and cache entry of the method |
| SoloRun.CreateAloneIsAProtocolRun | src/transactions/transactions.service.ts:52-252 | whatever `create` answers alone (cached, stored row, conflict, no gateway, failover), some run of the protocol ends with that answer and with ledgers that show the tables it leaves |
| SoloRun.DriveIsAProtocolRun | src/webhooks/reconciliation-worker.service.ts:138-193 | what `driveToReconciled` writes alone is a sequence of the worker's protocol steps, throwing exactly when it is refused |
| SoloRun.FailoverRowsTellTheStory | src/transactions/transactions.service.ts:140-246 | the failover's audit rows are a walk that replays to the final row, three rows for each gateway tried |
| SoloRun.AttemptBoundIsReached | src/transactions/transactions.service.ts:225-231 | from every reachable state and with every ranking a run can use all its attempts |
| Reconciliation.DriveSucceedsIff | src/webhooks/reconciliation-worker.service.ts:138-193 | driving from a stale state succeeds exactly if that state is settled or as far as the row, which has not failed; then the row is RECONCILED |
| Reconciliation.DriveAloneReconciles | src/webhooks/reconciliation-worker.service.ts:138-193 | alone, every row that has not failed becomes RECONCILED and a failed one is untouched |
| Reconciliation.DriveIsIdempotent | src/webhooks/reconciliation-worker.service.ts:147-149 | driving again changes nothing |
| Reconciliation.DriveKeepsReceipt | src/webhooks/reconciliation-worker.service.ts:176-192 | a paid row keeps its `gatewayTxnId`, a row paid here gets the webhook's, at most one attempt is added |
| Reconciliation.DriveNamesTheGateway | src/webhooks/reconciliation-worker.service.ts:151-192 | every audit row written names the webhook's gateway and the reason for its transition, and so does the row's gateway once one is written; otherwise the row is untouched |
| Reconciliation.MatchesByIdOrKey | src/webhooks/reconciliation-worker.service.ts:90-95 | a row is found by the gateway's id, by the non-empty key in the payload, or by `___none___` without one |
| Reconciliation.ReconciliationWorkerService.DriveToReconciled | src/webhooks/reconciliation-worker.service.ts:138-193 | the five guarded transitions do what `Drive` says, for any local state; all they write names the webhook's gateway |
| Reconciliation.ReconciliationWorkerService.ProcessEvent | src/webhooks/reconciliation-worker.service.ts:64-115 | skipped, nothing to match, or the matched row driven and settled; a row is driven exactly if one carries the event's id or the key it names; what is marked processed |
| SoloWorker.ProcessEventIsAWorldRun | src/webhooks/reconciliation-worker.service.ts:64-115 | from every world with the record in the queue, each of these outcomes is what a run of `World` does |
| Reconciliation.ReconciliationWorkerService.PollQueue | src/webhooks/reconciliation-worker.service.ts:38-62 | a polling worker, each turn in its own mode and reachability, takes what the queue gives, marks exactly that processed, settles a row for every waiting event it takes that can be matched, and goes on after a turn that finds nothing or throws |
| Webhooks.PollingConserves | src/redis/redis.service.ts:51-64 | polling neither loses nor repeats an entry |
| Webhooks.PollingDrains | src/webhooks/reconciliation-worker.service.ts:41-49 | the queue after any turns: the list is short by one entry for each turn that reached the server, the slot is empty once a turn was in memory |
| Webhooks.PollingIsFirstInFirstOut | src/webhooks/reconciliation-queue.service.ts:14-22 | on the server, through any failures, entries are taken in the order in which they were pushed |
| Webhooks.WebhooksService.Ingest | src/webhooks/webhooks.service.ts:34-58 | a seen event changes nothing; a new one is stored once and queued, or stored and left unqueued by a failed push |
| Webhooks.ReconciliationQueue.PushEvent | src/webhooks/reconciliation-queue.service.ts:14-22 | a push puts the entry at the head of the list, or into the slot, where it replaces what waited there |
| Webhooks.ReconciliationQueue.Pop | src/redis/redis.service.ts:51-64 | a pop takes the entry pushed first, or the slot, and nothing else |
| Redis.RedisService.Get | src/redis/redis.service.ts:80-90 | the answer in the mode after the call, with the switch on failure |
| Redis.RedisService.Await | src/redis/redis.service.ts:80-90 | the same for a GET issued before other GETs were answered: its mode is that of its issue, its failure its own |
| Redis.RedisService.Set | src/redis/redis.service.ts:92-124 | every combination of mode, expiry, store and failure |
| Redis.RedisService.Del | src/redis/redis.service.ts:126-140 | the key is gone from the store in use |
| Redis.SetMeans | src/redis/redis.service.ts:92-124 | when a SET is granted in each mode, until when its value is found, and that a refused one and every other key are as before |
| Redis.DelMeans | src/redis/redis.service.ts:126-140 | a DEL leaves nothing to find under its key and everything else |
| Redis.AnswersWereWritten | src/redis/redis.service.ts:80-140 | after any calls and failures an answer is a value once set under that key, which is all the protocol assumes |
| Redis.TheSwitchIsOneWay | src/redis/redis.service.ts:80-140 | in-memory mode is never left and the server's content no longer changes |
| Redis.LockExcludesUntilItEnds | src/redis/redis.service.ts:109-110 | as long as a granted NX key is not deleted or overwritten and Redis does not fail, it is refused to others exactly until it expires |
| GatewayHealth.BreakerFollowsHistory | src/gateways/routing-engine.service.ts:129-179 | `consecutiveFailures` is the failures since the last success or cooldown reset, OPEN exactly from three on, HALF_OPEN exactly after a cooldown reset |
| GatewayHealth.TotalsFollowHistory | src/gateways/routing-engine.service.ts:129-155 | `successCount` and `failureCount` are the numbers of the two kinds of outcomes |
| GatewayHealth.AverageFollowsSamples | src/gateways/routing-engine.service.ts:135-162 | the average is the rounded 9:1 mean of exactly the latencies of successes and of failures with a positive one, the first taken as it is |
| GatewayHealth.OutcomesMoveTheAverage | src/gateways/routing-engine.service.ts:135-162 | the first positive latency becomes the average and each later one moves it toward itself, or leaves it in the band around itself |
| GatewayHealth.AverageStaysWithin | src/gateways/routing-engine.service.ts:157-162 | with latencies in [lo, hi] the average is 0 or in [lo, hi] |
| GatewayHealth.AverageApproaches | src/gateways/routing-engine.service.ts:136-139 | under one latency the average moves toward it without passing it, and stops exactly inside [L-4, L+5] |
| GatewayHealth.AverageSettles | src/gateways/routing-engine.service.ts:136-139 | it stops there after at most the initial distance in steps |
| Routing.ScoreBounds | src/gateways/routing-engine.service.ts:66-109 | scores lie in (0, 1] when CLOSED and (0, 0.3] when HALF_OPEN, so -1 marks exactly the OPEN gateways |
| Routing.RankingMembers | src/gateways/routing-engine.service.ts:115-127 | the ranking is duplicate-free and holds exactly the gateways that are not OPEN, or all when every one is |
| Routing.RankingOrder | src/gateways/routing-engine.service.ts:115-127 | descending score, or ascending cost when every gateway is OPEN |
| Sorting.SortBySorts | src/gateways/routing-engine.service.ts:117-122 | the sort is an ordered permutation that keeps ties in their first order |
| Routing.BetterScoresHigher | src/gateways/routing-engine.service.ts:71-109 | in one circuit state a gateway at least as good in all terms and better in one scores higher at every amount |
| Routing.ClosedBeatsHalfOpen | src/gateways/routing-engine.service.ts:86-109 | above 5000 a CLOSED gateway with success rate at least 3/7 outscores every HALF_OPEN one |
| Routing.BetterComesFirst | src/gateways/routing-engine.service.ts:115-127 | both dominance rules as positions in the ranking |
| Routing.StandingIsScore | src/gateways/routing-engine.service.ts:71-109 | the score in counters, basis points and milliseconds, with the weights on both sides of 5000 and the factor 3/10 |
| Routing.HigherStandingComesFirst | src/gateways/routing-engine.service.ts:105-122 | ties aside, of two gateways that are not OPEN the one that stands higher comes first, and only that one |
| Routing.RateAgainstCost | src/gateways/routing-engine.service.ts:88-103 | between CLOSED gateways of one latency, up to 5000 three of success rate weigh five of cost, above 5000 seven weigh one; ties aside that decides the order |
| Routing.RankingIsByStanding | src/gateways/routing-engine.service.ts:115-127 | the ranking in full when no gateway is OPEN and no two stand equal |
| Routing.SmallAmountsGoByCost | src/gateways/routing-engine.service.ts:88-103 | a cheap gateway with two successes in five comes before a dear one that never failed exactly up to 5000 |
| RoutingEngine.RoutingEngineService.RecordSuccess | src/gateways/routing-engine.service.ts:129-148 | the row, the table and the cooldown key after a success |
| RoutingEngine.RoutingEngineService.RecordFailure | src/gateways/routing-engine.service.ts:150-179 | the row, the table and the cooldown key after a failure |
| RoutingEngine.RoutingEngineService.GetRankedGateways | src/gateways/routing-engine.service.ts:42-127 | the cooldown checks it stores, each GET failing or not by itself, and the ranking of the table it leaves |
| RoutingEngine.RowsFollowHistories | src/gateways/routing-engine.service.ts:42-179 | in every run of the engine each row is the seeded row after a history of events, whose outcomes are those recorded for this gateway, in order |
| RoutingEngine.TotalsFollowOutcomes | src/gateways/routing-engine.service.ts:129-162 | in every reachable state a gateway's totals count the outcomes recorded for it, and its average is their mean, whatever is recorded for others |
| RoutingEngine.ChecksKeepTotals | src/gateways/routing-engine.service.ts:50-64 | the checks of a ranking change nothing but OPEN to HALF_OPEN and its streak |
| RoutingEngine.CostsAreSeeded | src/database/migrations/1751600000000-InitSchema.ts:88-92 | in every reachable state the costs are 290, 200, 190 and 50 |
| RoutingEngine.SeededRanking | src/gateways/routing-engine.service.ts:115-127 | before any outcome the order is UPI, PAYU, RAZORPAY, STRIPE at every amount |
| RoutingEngine.OpenMeansThreeFailures | src/gateways/routing-engine.service.ts:164-166 | in every reachable state a circuit is OPEN exactly at three or more consecutive failures |
| RoutingEngine.VisibleKeyMeansOpen | src/gateways/routing-engine.service.ts:53-64 | a cooldown key that can be seen belongs to an OPEN gateway, whatever call fails and whoever else uses the Redis service |
| RoutingEngine.TrippedGatewayIsRankedIff | src/gateways/routing-engine.service.ts:53-69 | at any time after its last trip and with no success since, a gateway is ranked exactly if every configured one is OPEN, or its key was put on the server and 30 s have passed, Redis has gone to memory before this ranking, or it fails at this GET |
| RoutingEngine.CooldownCanBeLost | src/redis/redis.service.ts:84-89 | a run in which a gateway is ranked one second after its trip beside one that is not OPEN |
| RoutingEngine.HalfOpenIsOfferedIff | src/gateways/routing-engine.service.ts:86-127 | from the operation that leaves a gateway HALF_OPEN to its next outcome, a ranking offers it exactly if it lists it |
| RoutingEngine.SingleProbeIff | src/gateways/routing-engine.service.ts:86-127 | the promised single probe holds exactly if no two rankings in that time list the gateway |
| RoutingEngine.SecondProbe | src/gateways/routing-engine.service.ts:86-127 | a run in which two rankings in a row offer a HALF_OPEN gateway beside a CLOSED one |

## Left out

- HTTP controllers, modules, database configuration, health check and logging: wiring without logic of its own.
- Gateway adapters: a charge call is an arbitrary answer, a success with an id or an error; the 1.5 s timeout is an error. What a timed-out call does at the gateway afterwards is not modelled.
- Signatures and hashes of webhooks: library cryptography.
- `isGatewayConfigured`: the configured gateways are an arbitrary duplicate-free listing of the table.
- `extractGatewayTxnId`: the extracted id is a field of the event.
- The row lookup of the worker: an arbitrary row in `Protocol`; in `World` any row that matches the event, where the query gives one of them.
- `merchantId`, raw gateway responses and error texts: carried or dropped without being looked at.
- Floating-point rounding of scores and averages: arithmetic is exact.
- `TransactionsService.transition` (src/transactions/transactions.service.ts:265-277): a public pass-through without a caller; the protocol has no actor that uses it.
- Statistics updates inside `create` are steps of the class, not of the protocol; a failure there is the protocol's `Fault`.
- Lost updates between concurrent statistics updates: each engine operation is one step. Other calls on the shared Redis service come between two operations.
- Reconciliation.ReconciliationWorkerService.PollQueue: runs for a given number of turns, alone; the waits are left out, and a failing `brpop` is taken not to have reached the server (in `World` the queue may lose entries).
- Order of the queue in `World`: any waiting entry may be popped next, which includes the real order.
- Payments.TransactionsService.Execute: a refused transition cannot occur alone and is asserted away; the protocol has the refusal and the catch block.
- Reconciliation.ReconciliationWorkerService.ProcessEvent: without interference the driving cannot fail, so the rethrow appears only in the protocol.
- Redis.RedisService.Set: a call that fails is taken not to have reached the server.
