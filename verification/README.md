# Verification of the Vero engine and its bridge

A Dafny model of the stateful parts of the protocol and proofs about whole runs of them. The
on-chain engine (`engine-core`) is one contract state changed by transactions that commit whole
or roll back. The bridge (`engine-bridge`) is asynchronous code, modelled as steps between
awaits under any scheduler. `dafny verify dfyconfig.toml` checks everything.

| file | what it holds |
|---|---|
| `NonceManager.dfy` | sequence numbers under a per-account promise lock: exclusion, wake-up, serial equivalence, progress |
| `NonceReleases.dfy` | numbers put back, or the network read again, while others are out: when one is repeated, when one is lost |
| `BuildRuns.dfy` | overlapping builds on one account: when two transactions share a number |
| `ChainStateCache.dfy` | stale-while-revalidate cache: the Map as a timestamped LRU cache, one fetch per key, no stuck entry |
| `CacheRuns.dfy` | that cache by the steps of a run: the order is the order of last use, the least recently used key is evicted |
| `EventQueue.dfy` | the event table: retry weight, order, backoff, recovery, statistics |
| `EventPropagator.dfy` | poller, drain and recovery over that table: nothing lost or skipped, enqueued once |
| `EventRuns.dfy` | when a failed event is tried again; how often events are attempted and handled, with runs that reach the bounds |
| `RpcClient.dfy` | round-robin failover with quarantine: fairness, no endpoint twice, success |
| `Csv.dfy` | CSV printing against a reader for section 2 of RFC 4180 |
| `Fees.dfy` | fee estimate, batch plan, builds, protocol fee arithmetic |
| `ContractState.dfy`, `Audit.dfy`, `CircuitBreaker.dfy`, `Governance.dfy`, `EmergencyRecovery.dfy`, `ControlPlane.dfy`, `Proxy.dfy`, `Lifecycle.dfy`, `ZkHooks.dfy`, `FeeCollection.dfy` | what each contract call does, as a function from state to new state or error |
| `CallOutcomes.dfy` | the same by the stored values alone: for what each call is refused, in which order, and what it leaves |
| `Host.dfy`, `Entrypoints.dfy` | the same calls as code that takes the guard and writes storage key by key, proved against those functions, with rollback on panic |
| `Protocol.dfy` | traces of transactions, and which call may change what |
| `BreakerRuns.dfy`, `AuditRuns.dfy`, `ParameterRuns.dfy`, `GovernanceRuns.dfy`, `RecoveryRuns.dfy`, `FundingRuns.dfy`, `AccessRuns.dfy` | what holds in every trace |
| `Wrappers.dfy`, `MapSums.dfy` | results and options; totals over finite maps |

How to read it:

- The class methods and the entrypoint methods follow the original statement by statement. Each
  `ensures` ties the new state to a function of the old one, and the run lemmas are about those
  functions: `Entrypoints.Replay` closes the gap for the contract, `Next` in each scheduler view
  is made of the functions that the class methods ensure. An entrypoint that is a straight line of
  checks and writes has no row below; its method is proved against its function all the same, and
  `CallOutcomes` says what that function does without naming its parts.
- A history is a function of the trace alone (who approved since when, what was accepted, what was
  paid). The theorems compare the stored state with that history.
- A trace may hold every call that writes the contract's storage and is listed above, the proxy's
  among them: the proxy is part of the same crate and keeps its keys beside the others.
- SHA-256 is any function from bytes to 32 bytes. It is not assumed injective: the chain theorem
  returns the collision instead.
- `require_auth` is membership in the set of accounts that signed the transaction. A token contract
  is a balance table whose `transfer` traps when the sender cannot pay. A clock reading, a network
  answer, a database failure and a handler's verdict are parameters.

Where the code and its own documentation disagree, the code is followed:

- `markFailed` says that a row with retries left goes back to pending; it always becomes failed.
- The nonce manager says that its lock keeps cache writes from interleaving; `release` takes no
  lock. `ReleaseRepeatsExactly` says when a number put back lets another be handed out twice, and
  `ReleaseIsLostExactly` when it is forgotten; `OutOfOrderReleaseRepeats` and
  `ReleaseInsideLosesNumber` are such runs. A refresh while numbers are out does the same under the
  condition of `RefreshRepeatsExactly` (`EarlyRefreshRepeats`); `NeverOutTwice` is what disciplined callers get,
  and `BuildsShareExactly` what overlapping builds can come to.
- Stopping and restarting the poller lets two polls overlap, and a restart may have lost the cursor;
  both can enqueue an event again after a cleanup. `EnqueuedOnceExactly` says when,
  `OverlappingPollsRepeat` and `ForgottenCursorRepeats` are such runs.
- The retry limit counts attempts, and a recovery runs the handlers without one:
  `HandlersWithinBudget` bounds the runs of the handlers, `BudgetIsReached` reaches the bound.
- The counter of successful updates can be set by an update, since its key is not reserved, and is
  zeroed by an initialisation that follows the proxy's. `CounterCountsUpdates` is exact about both,
  `AimedUpdateMiscounts` and `LateStartMiscounts` are runs that show them.
- The proxy writes the admin key of the control plane, and initialisation tests another key, so the
  admin can be replaced once: `AdminIsPermanentExactly`. It installs code without a proposal and
  without asking the breaker: `CodeWasApproved` and `OpenBreakerFreezesChain` name the case,
  `ProxySwapsWhileOpen` is a run of it.
- The proxy's integrity check always panics (`UpgradeProxy.NeverCommits`).
- The key of the protocol phase is not reserved, so an update may store a number of the wrong type
  there: `TrapsOnTypeExactly`, with the run `AimedUpdateTraps`.
- The plan of a batch says what the batch costs; with a fractional safety margin the envelope may
  cost more (`BatchNeverDearerExactly`, `FractionalMarginCostsMore`).
- A table without columns does not survive printing (`RoundTripExactly`).

## Model

| member | source | states |
|---|---|---|
| NonceManagement.NonceManager.EnterLock | engine-bridge/src/nonce-manager.ts:62-71 | on a locked account the call parks on the held promise and nothing changes; else it takes the lock, and a reservation goes on with the cached number or, as a refresh does after deleting the entry, asks the network |
| NonceManagement.NonceManager.SettleRead | engine-bridge/src/nonce-manager.ts:52-55 | a network answer n caches n + 1 and yields it; an outage ends the call with an error and leaves the cache alone |
| NonceManagement.NonceManager.ResumeBody | engine-bridge/src/nonce-manager.ts:25-29 | a reservation of n leaves n + 1 in the cache and returns n; a refresh only reports success |
| NonceManagement.NonceManager.LeaveLock | engine-bridge/src/nonce-manager.ts:75-78 | the lock entry of the account, and nothing else, is gone |
| NonceManagement.NonceManager.ReleaseNumber | engine-bridge/src/nonce-manager.ts:33-38 | a number is put back exactly when nothing is cached or it is lower than what is cached |
| NonceManagement.NonceManager.ReserveAlone | engine-bridge/src/nonce-manager.ts:24-30 | a reservation nobody interleaves with answers the cached number, or one more than the network says, caches the number after it, and leaves no lock behind; it is one step of the serial machine |
| NonceManagement.RunIsSafe | engine-bridge/src/nonce-manager.ts:62-79 | in every interleaved run: at most one call per account is inside the lock, a lock entry exists exactly while one is, and every parked call is either awake or waits for the promise that is held now |
| NonceManagement.RunIsAnswered | engine-bridge/src/nonce-manager.ts:24-56 | in every interleaved run, whatever is released when, a reservation that asked the network gets the number after its answer or fails with it, and a refresh reports what the network did |
| NonceManagement.RunIsSerial | engine-bridge/src/nonce-manager.ts:24-79 | every interleaved run of reserves and refreshes, with releases of unlocked accounts, has a history that the one-call-at-a-time machine accepts line by line, in lock order, each finished call in it once with its own answer |
| NonceManagement.QuiescentCacheIsSerial | engine-bridge/src/nonce-manager.ts:24-79 | once all calls have finished the shared cache is the cache of the serial run |
| NonceManagement.ReservesAreConsecutive | engine-bridge/src/nonce-manager.ts:48-56 | reservations of an account between two network reads are numbered consecutively, counting every one between them |
| NonceManagement.OwnStepsProgress | engine-bridge/src/nonce-manager.ts:63-67 | a lexicographic measure falls at every step of a call, the re-parking of a woken call included |
| NonceManagement.NeverStuck | engine-bridge/src/nonce-manager.ts:62-79 | while any call is unfinished some call can move: no deadlock |
| NonceManagement.EveryScheduleFinishes | engine-bridge/src/nonce-manager.ts:62-79 | in every state of a run, whatever order the scheduler picks: the calls take at most a fixed number of steps between them, each keeps its operation and account, and none can move exactly when all have finished |
| NonceReleases.NeverOutTwice | engine-bridge/src/nonce-manager.ts:33-38 | in every interleaved run in which each number put back is the highest one out, while the account is unlocked, and the network never answers below one that is out, no number is ever out twice |
| NonceReleases.ReleaseRepeatsExactly | engine-bridge/src/nonce-manager.ts:24-38 | in every run whose numbers are out once each and below the next one: putting one of them back lets some continuation by cached reservations hand out a number that is still out if and only if a higher one is out |
| NonceReleases.RefreshRepeatsExactly | engine-bridge/src/nonce-manager.ts:40-56 | in every run whose numbers are out once each: a refresh that the network answers with n lets some continuation by cached reservations hand out a number that is still out if and only if one above n is out |
| NonceReleases.EarlyRefreshRepeats | engine-bridge/src/nonce-manager.ts:40-56 | a legal run in which a refresh makes a number go out twice |
| NonceReleases.OutOfOrderReleaseRepeats | engine-bridge/src/nonce-manager.ts:24-38 | a legal run in which a number is out twice |
| NonceReleases.ReleaseIsLostExactly | engine-bridge/src/nonce-manager.ts:33-38 | in every run, putting a number back below the cached one while a call is inside leaves the memory at the end of that call as if it had not been put back, for every network answer if and only if the call is a reservation that has its number, and for some answer if and only if it is or still waits for the network |
| NonceReleases.ReleaseInsideLosesNumber | engine-bridge/src/nonce-manager.ts:33-38 | a legal run that loses a number, with a history no serial run has |
| ChainStateCaching.ChainStateCache.TouchEntry | engine-bridge/src/chain-state-cache.ts:31-37 | a present key moves to the end of the Map order |
| ChainStateCaching.ChainStateCache.EvictIfNeeded | engine-bridge/src/chain-state-cache.ts:39-46 | entries leave from the front until the bound holds |
| ChainStateCaching.ChainStateCache.SetEntry | engine-bridge/src/chain-state-cache.ts:90-91 | a present key keeps its place, a new one goes to the end |
| ChainStateCaching.ChainStateCache.GetSwr | engine-bridge/src/chain-state-cache.ts:60-104 | a hit is touched and answered at once, a stale unflagged one is flagged and revalidated, and unflagged again if the fetcher throws; a miss joins the fetch in flight, starts one, or gets what the fetcher threw |
| ChainStateCaching.ChainStateCache.SettleFetch | engine-bridge/src/chain-state-cache.ts:88-121 | a result is stored and the bound restored, a failed revalidation clears the flag of the entry then present, and a miss leaves the in-flight map either way |
| ChainStateCaching.ChainStateCache.Invalidate | engine-bridge/src/chain-state-cache.ts:126-128 | the key is gone, the in-flight map is untouched |
| ChainStateCaching.ChainStateCache.Clear | engine-bridge/src/chain-state-cache.ts:131-133 | every entry is gone, the in-flight map is untouched |
| ChainStateCaching.MapRefinesLru | engine-bridge/src/chain-state-cache.ts:31-46 | over every sequence of operations the insertion-ordered Map holds what a cache with explicit last-use timestamps holds, in the order of last use |
| ChainStateCaching.WriteEvictsOnlyTheOldest | engine-bridge/src/chain-state-cache.ts:39-46 | with room for at least one entry, a write costs exactly the least recently used other key, only when a new key does not fit, and never the key just written; overwriting keeps the position |
| ChainStateCaching.RunRefinesLru | engine-bridge/src/chain-state-cache.ts:60-133 | the same under every interleaving of hits, misses, completions, revalidations, invalidations and clears, and the bound holds after every step |
| CacheRuns.HitIsUsed | engine-bridge/src/chain-state-cache.ts:60-82 | a getSwr that finds its key makes it the last in the order, raises its flag exactly if it is stale, unflagged and the fetcher does not throw, and leaves all other entries and their order as they were |
| CacheRuns.MissLeaves | engine-bridge/src/chain-state-cache.ts:84-104 | and one that does not find it leaves the entries and their order alone |
| CacheRuns.OrderIsByLastUse | engine-bridge/src/chain-state-cache.ts:31-133 | in every run the Map order is the order of the last uses, a use being a getSwr that found the key or the result that inserted it, read off the steps of the run alone; no key stands twice and the bound holds |
| CacheRuns.LeastUsedIsEvicted | engine-bridge/src/chain-state-cache.ts:39-46 | in every run a key that leaves without being invalidated or cleared leaves because a result was stored when the cache was full, and was used longer ago than every key that stays |
| CacheRuns.ResultIsStored | engine-bridge/src/chain-state-cache.ts:88-108 | in every run a fetched result is stored under its key, stamped and unflagged, unless nothing may be kept, and every other entry that stays is unchanged |
| ChainStateCaching.RunIsSound | engine-bridge/src/chain-state-cache.ts:60-121 | in every run: one running miss-fetch per key at most and the in-flight map lists exactly those; a raised flag has its revalidation still running; stored data is what the last successful fetch of its key brought; every caller gets data of its own key |
| ChainStateCaching.GetMeets | engine-bridge/src/chain-state-cache.ts:60-104 | what a caller meets in any run: the stored data at once and, if stale and unless the fetcher threw, a running revalidation; or the one outstanding fetch, started only if there was none; or what the fetcher threw, with nothing left in flight |
| ChainStateCaching.SettledStays | engine-bridge/src/chain-state-cache.ts:82-103 | a settled fetch never changes, so all who await it get the same result or error |
| EventQueueing.EventQueue.Enqueue | engine-bridge/src/event-queue.ts:108-130 | a new id becomes a pending row, untried, enqueued now and due at once; a present id or a failing insert changes nothing and reports false |
| EventQueueing.EventQueue.Dequeue | engine-bridge/src/event-queue.ts:136-171 | takes a row that is pending, or failed with retries left, whose next attempt has come, enqueued no later than any other such row, now processing with one more attempt, and hands it out if its payload parses; nothing changes exactly when there is no such row or the database fails |
| EventQueueing.EventQueue.MarkProcessed | engine-bridge/src/event-queue.ts:176-189 | the row is processed and stamped; an absent id changes nothing |
| EventQueueing.EventQueue.MarkFailed | engine-bridge/src/event-queue.ts:195-223 | the row is failed, whatever retries are left, with its error; its next attempt is 2^attempts seconds later, or now under test or once retries are used up |
| EventQueueing.EventQueue.RecoverPending | engine-bridge/src/event-queue.ts:229-259 | processing rows and failed rows with retries left become pending, even if reading them back then fails; otherwise the pending rows are returned, each once, in enqueue order |
| EventQueueing.EventQueue.GetStats | engine-bridge/src/event-queue.ts:268-310 | each bucket counts exactly its rows, the buckets add up to the number of rows, and the age is that of the earliest row; all empty if the database fails |
| EventQueueing.EventQueue.Cleanup | engine-bridge/src/event-queue.ts:315-334 | exactly the processed rows old enough are removed, and their number is returned |
| EventDelivery.EventPropagator.FetchAndEnqueue | engine-bridge/src/event-propagator.ts:104-122 | the loop enqueues until the first failure and leaves the cursor at the last event enqueued |
| EventDelivery.EventPropagator.HandleQueuedEvents | engine-bridge/src/event-propagator.ts:129-154 | the drain is a run of the scheduler in which each event handed out gets the verdict of its own handlers, in number at most the summed retry weight; it ends at a row that does not parse, at a failing database, or with no row pending or failed with retries left whose next attempt has come, so that none of those enqueued by then whose handlers never failed is still pending |
| EventDelivery.EventPropagator.RecoverPendingEvents | engine-bridge/src/event-propagator.ts:172-195 | processing rows and failed rows with retries left are pending again, and every pending row has its handlers run once, in enqueue order, and gets their verdict unless that write fails; the recovery is a run of the scheduler |
| EventDelivery.PollEnqueuesPrefix | engine-bridge/src/event-propagator.ts:104-122 | a poll enqueues a prefix of its batch, stops at an event already queued or not writable, and the cursor is the last event of the prefix |
| EventDelivery.PollAddsRows | engine-bridge/src/event-propagator.ts:104-122 | it adds just those events, as untried rows due at once, and changes no row that was there |
| EventDelivery.PolledRows | engine-bridge/src/event-propagator.ts:104-122 | each with its payload and the time of the poll |
| EventDelivery.PollAdvancesExactly | engine-bridge/src/event-propagator.ts:114-121 | the cursor moves if and only if the first event served is not in the table and can be written |
| EventDelivery.OldCursorRepeatsExactly | engine-bridge/src/event-propagator.ts:93-121 | a restart with an old cursor, or none, makes the next poll enqueue again the first event it is served if that is no longer in the table and can be written, and nothing otherwise |
| EventDelivery.HandlersRun | engine-bridge/src/event-propagator.ts:129-195 | the handlers of an event run when it is taken and parses, and when a recovery that could reset and read the table finds it pending |
| EventDelivery.NothingLostOrSkipped | engine-bridge/src/event-propagator.ts:90-195 | over every run of polls, overlapping at will, drains, recoveries, cleanups and restarts with the cursor of any time or none: the ids ever enqueued are those of a prefix of the feed that reaches at least the cursor, and an id no longer in the table had all its handlers succeed |
| EventDelivery.EnqueuedOnceExactly | engine-bridge/src/event-propagator.ts:51-122 | in every such run the ids were enqueued once each, in feed order, if and only if no reply to a poll that asked with an older cursor, or none, found its first event gone from the table |
| EventRuns.OverlappingPollsRepeat | engine-bridge/src/event-propagator.ts:51-122 | a run in which one is: two polls ask without a cursor, the event of the first reply is handled and cleaned away, and the second reply enqueues it again |
| EventDelivery.LonePollsEnqueueOnce | engine-bridge/src/event-propagator.ts:67-122 | so they are, up to the cursor, while no poll asks before the one before it is answered and every restart has the cursor just lost |
| EventRuns.ForgottenCursorRepeats | engine-bridge/src/event-propagator.ts:93-121 | a run with one poll at a time in which one is enqueued again, after a restart without the cursor |
| EventQueueing.TakingLowersWeight | engine-bridge/src/event-queue.ts:136-159 | each dequeue uses up retry weight |
| EventQueueing.ReportingAddsNoWeight | engine-bridge/src/event-queue.ts:176-223 | marking a row processed or failed adds none |
| EventQueueing.TakeableExactly | engine-bridge/src/event-queue.ts:136-146 | a row is first in line exactly if it is pending, or failed with retries left, its next attempt has come, and no such row was enqueued earlier |
| EventRuns.RetriedAfterBackoffExactly | engine-bridge/src/event-queue.ts:195-223 | in every run a row whose handlers failed, and which nobody takes, reports on or resets meanwhile, can be taken exactly from 2^attempts seconds after the failure on, at once under test, when no row that may be taken was enqueued earlier, and never once its retries are used up |
| EventRuns.WaitDoubles | engine-bridge/src/event-queue.ts:208-211 | the wait is two seconds after the first attempt and doubles with each |
| EventRuns.AttemptsWithinBudget | engine-bridge/src/event-queue.ts:136-259 | in every run no row is attempted more than max(1, maxRetries) times plus once for each recovery |
| EventRuns.HandlersWithinBudget | engine-bridge/src/event-propagator.ts:129-195 | in every run the handlers are started for an event at most max(1, maxRetries) times for each time it was enqueued, plus twice for each recovery, which runs them without counting an attempt |
| EventRuns.FreshRepliesKeepBudget | engine-bridge/src/event-propagator.ts:104-195 | so, in a run in which no event is enqueued again, at most max(1, maxRetries) times plus twice for each recovery |
| EventRuns.BudgetIsReached | engine-bridge/src/event-propagator.ts:129-195 | for any settings and any number of recoveries some run reaches that bound |
| RpcFailover.RpcClient.PickEndpoint | engine-bridge/src/rpc-client.ts:50-60 | the live endpoint nearest to the cursor going round, and the cursor just past it; nothing and no change exactly when none is live |
| RpcFailover.RpcClient.LiveCount | engine-bridge/src/rpc-client.ts:63-66 | the number of endpoints out of quarantine |
| RpcFailover.RpcClient.Call | engine-bridge/src/rpc-client.ts:30-48 | up to three attempts, each failure quarantining its endpoint for thirty seconds, with any picks and failures of other calls while each is awaited |
| RpcFailover.PicksUnlessAllDead | engine-bridge/src/rpc-client.ts:50-66 | nothing is picked if and only if the live count is zero |
| RpcFailover.TriedInTurn | engine-bridge/src/rpc-client.ts:30-48 | a call tries endpoints until one answers and returns that answer; giving up for good it tried three, none of which answered, and finding none live fewer |
| RpcFailover.PickBringsNearer | engine-bridge/src/rpc-client.ts:52-57 | a pick of another endpoint strictly lowers the cyclic distance to a live one |
| RpcFailover.LiveEndpointIsReached | engine-bridge/src/rpc-client.ts:50-60 | among any picks and failures of concurrent calls, an endpoint live at every pick until its own is picked before the picks outnumber its distance |
| RpcFailover.RoundRobinIsFair | engine-bridge/src/rpc-client.ts:50-60 | any n successive picks of n endpoints include every endpoint that is live until it is picked |
| RpcFailover.NeverTriesTwice | engine-bridge/src/rpc-client.ts:30-48 | a call whose last pick comes within thirty seconds of its first failure tries no endpoint twice, whatever concurrent calls do |
| RpcFailover.FailsOnlyByFailing | engine-bridge/src/rpc-client.ts:30-48 | with an endpoint live at each pick the call makes, it succeeds or has tried three endpoints none of which answered |
| RpcFailover.FailoverSucceeds | engine-bridge/src/rpc-client.ts:30-48 | so, within that window, it succeeds whenever an endpoint is live at each pick it makes and fewer than three reachable ones fail to answer |
| RpcFailover.HealthyEndpointSuffices | engine-bridge/src/rpc-client.ts:30-48 | which it does whenever one endpoint is live at its first pick, answers it and fails no other call meanwhile |
| RpcFailover.ThreeSilentDefeat | engine-bridge/src/rpc-client.ts:30-48 | and three silent endpoints defeat a call with a fourth that is live and would answer: the bound is tight |
| Csv.RoundTripExactly | dashboard/src/utils/csv.ts:34-51 | the printed table reads back, by section 2 of RFC 4180, as exactly the header and every row, field for field, for any text, if and only if there is a column |
| Csv.FieldsReadBack | dashboard/src/utils/csv.ts:23-51 | with a column every header and every cell reads back in its place: a missing cell as the empty text, a text as itself, and one that starts with =, +, - or @ as itself after an apostrophe |
| Csv.PrintedField | dashboard/src/utils/csv.ts:26-31 | a text is quoted exactly for a quote, a comma or a line break in it, with its quotes doubled |
| Csv.PrintedTable | dashboard/src/utils/csv.ts:34-51 | two columns and a row of plain texts print with commas between and CRLF after each line |
| Csv.NothingReadsAsFormula | dashboard/src/utils/csv.ts:23-31 | no field that is read back begins with =, +, - or @, in any row or in the header |
| Csv.SameTextExactly | dashboard/src/utils/csv.ts:23-51 | two tables print alike if and only if they show the same texts: the formula prefix is all that printing loses |
| Csv.FieldReadsBack | dashboard/src/utils/csv.ts:23-31 | an escaped field followed by a comma or line break reads back as its shown text and leaves what follows |
| GasOracle.CeilOfShift | engine-bridge/src/gas-oracle.ts:93 | an integer margin may be moved out of the ceiling of the estimate |
| GasOracle.EstimateIsLeast | engine-bridge/src/gas-oracle.ts:48-101 | a whole fee covers the base fee times the multiplier plus the margin, with the defaults 1.2 and 0, if and only if it is at least the estimate |
| TxAggregation.PlanExactly | engine-bridge/src/tx-aggregator.ts:51-67 | no operations are refused; the fee per operation is the product rounded up, a batch pays the margin once and single envelopes each |
| TxAggregation.FeeSetCoversPlan | engine-bridge/src/tx-aggregator.ts:90-96 | the fee set covers the planned total and overshoots it by less than one stroop per operation |
| TxAggregation.FeeSetPerOperation | engine-bridge/src/tx-aggregator.ts:90-96 | every operation is charged the same whole fee, less than a stroop above its share |
| TxAggregation.WholeMarginOvershoot | engine-bridge/src/tx-aggregator.ts:56-96 | with a whole margin the overshoot is at most n - 1 |
| TxAggregation.BatchNeverDearerExactly | engine-bridge/src/tx-aggregator.ts:56-96 | batching costs no more than sending one by one if and only if the rounded-up share of the margin fits in the margin |
| TxAggregation.BatchNeverDearer | engine-bridge/src/tx-aggregator.ts:56-96 | which every whole margin satisfies |
| TxAggregation.FractionalMarginCostsMore | engine-bridge/src/tx-aggregator.ts:56-96 | and a margin of half a stroop does not: the batch pays more than the plan |
| TxAggregation.SavingsAndSingle | engine-bridge/src/tx-aggregator.ts:57-66 | the saving is the margin times n - 1, and for one operation the total and the fee set are the oracle estimate |
| TxAggregation.TxAggregator.FinishBuild | engine-bridge/src/tx-aggregator.ts:86-116 | from where the reservation settles, whatever happened to the account meanwhile: the number is used if planning and signing succeed and put back if not |
| TxAggregation.BuiltNumbersHaveNoGap | engine-bridge/src/tx-aggregator.ts:71-117 | over any serial series of builds, whichever fail after reserving, the built transactions are numbered consecutively, and the next number follows the last of them |
| BuildRuns.BuildsShareExactly | engine-bridge/src/tx-aggregator.ts:71-117 | of so many builds on one account that are given a number, so many of which fail and hand it back, however builds and hand-backs overlap: two transactions built can share a number if and only if there are at least four builds, one fails and two do not |
| ProtocolFee.CalculateFee | engine-core/src/protocol_fee.rs:35-51 | fee and net add up to the amount, the fee is between zero and the amount and is the floor of the rate, and the call fails exactly for a negative amount or an overflowing product |
| ProtocolFee.SplittingBounds | engine-core/src/protocol_fee.rs:35-51 | splitting an amount into k parts makes the summed fees at most the fee on the whole and short of it by at most k - 1 |
| ProtocolFee.SplitPayment | engine-core/src/protocol_fee.rs:35-51 | and when the whole does not overflow none of the parts does, so the bound is about fees the contract computes |
| CallOutcomes.ChargeExactly | engine-core/src/protocol_fee.rs:35-71 | charging is refused for the first that applies of its reasons, or pays the stored rate of the amount in ten-thousandths, rounded down, to the stored recipient and returns the rest |
| CallOutcomes.SetUpFeeExactly | engine-core/src/protocol_fee.rs:28-33 | a rate above 10 000 or a zero recipient is refused, else both are stored |
| CallOutcomes.ChangeRateExactly | engine-core/src/protocol_fee.rs:80-85 | the admin alone changes the rate, within that bound |
| CallOutcomes.ChangeRecipientExactly | engine-core/src/protocol_fee.rs:87-93 | and the recipient, to any but the zero address |
| Host.Env.EnterReentrancyGuard | engine-core/src/guards.rs:14-19 | panics exactly when the lock is held, and holds it |
| Host.Env.ExitReentrancyGuard | engine-core/src/guards.rs:22-24 | releases it |
| Entrypoints.Invoke | engine-core/src/guards.rs:14-42 | a transaction leaves the specified state if it returns and the state before it if it panics, wherever it panicked |
| Entrypoints.Replay | engine-core/src/core/control_plane.rs:87-282 | transactions one after another end in the state that the trace semantics gives, so every run lemma is about the entrypoints |
| Audit.InnerIgnoresGuard | engine-core/src/audit.rs:80-87 | recording a commitment neither reads nor moves the guard its caller holds |
| EmergencyRecovery.TallyIgnoresGuard | engine-core/src/emergency_recovery.rs:81-84 | nor does the payout of a recovery |
| Audit.AcceptedExactly | engine-core/src/audit.rs:56-100 | a commitment is accepted if and only if the breaker is closed, its sequence is new and its hash is the digest of the stored head, the sequence, most significant byte first in eight bytes, and the payload, in this order; the preflight check agrees, and each refusal has its own error |
| Audit.HashedBytes | engine-core/src/audit.rs:29-35 | what is hashed is exactly those bytes, each at its place |
| Audit.AcceptedIsStored | engine-core/src/audit.rs:83-100 | an accepted commitment replaces the stored sequence and head, and nothing else changes |
| Audit.CommittedExtends | engine-core/src/audit.rs:83-100 | an accepted commitment has a higher sequence and a hash chained to the old head, and both become current |
| Audit.EncodeInjective | engine-core/src/audit.rs:29-35 | the hashed bytes determine previous hash, sequence and payload |
| Audit.EqualHeadsTellAll | engine-core/src/audit.rs:29-35 | two histories with one head are equal, or comparing them names two inputs with one digest or a preimage of the all-zero genesis |
| AuditRuns.RunIsChained | engine-core/src/audit.rs:38-100 | in every run the accepted sequences strictly rise from one and the stored head is the chained hash of all of them |
| AuditRuns.HeadPinsHistory | engine-core/src/audit.rs:29-113 | two runs with the same stored head accepted the same sequences and payloads, or the comparison computes a collision or a preimage of zero |
| UpgradeProxy.CommittedDid | engine-core/src/core/proxy.rs:29-61 | an accepted proxy call appointed, where there was no admin, the one who signed it, and reserved its gap, or installed code that the stored admin signed for, and changed nothing else |
| CallOutcomes.ProxyExactly | engine-core/src/core/proxy.rs:29-73 | each proxy call is refused for the first that applies of its reasons, and accepted otherwise |
| UpgradeProxy.NeverCommits | engine-core/src/core/proxy.rs:64-73 | the proxy takes the guard twice, so its integrity check always panics |
| Entrypoints.VerifyIntegrity | engine-core/src/core/proxy.rs:64-73 | the same of the code as it runs |
| Lifecycle.MovesForward | engine-core/src/core/state.rs:34-71 | a move is accepted if and only if the phase rises, and to settled only from active; each refusal has its own error and nothing else changes |
| CallOutcomes.PhasesExactly | engine-core/src/core/state.rs:18-71 | phases are stored as 0 to 3, any other number reads as 0, and a move from one number to another is refused when it is the same, lower, or from 0 to 2 |
| Entrypoints.CheckTargets | engine-core/src/core/control_plane.rs:272-276 | fails exactly when some target is reserved |
| Entrypoints.WriteParams | engine-core/src/core/control_plane.rs:278-280 | the writes of the batch, in order |
| Entrypoints.BatchUpdateParam | engine-core/src/core/control_plane.rs:258-282 | the commitment is recorded before the targets are checked, and a reserved target still undoes it |
| ControlPlane.ReservedExactly | engine-core/src/core/control_plane.rs:26-62 | of all keys the engine uses, exactly CP_INIT, P_COUNT, LASTPAR and PROTO_ST may be targets of an update |
| ControlPlane.UpdatesRespectReservedKeys | engine-core/src/core/control_plane.rs:160-282 | an accepted update leaves every reserved key but the two of the audit chain as it was |
| ControlPlane.UpdatesExtendChain | engine-core/src/core/control_plane.rs:160-282 | and extends the chain by its own commitment: no parameter write touches the head |
| ControlPlane.BatchOutcome | engine-core/src/core/control_plane.rs:278-281 | an accepted batch leaves its last write under each key and every other key as it was |
| ControlPlane.LastWriteWins | engine-core/src/core/control_plane.rs:278-280 | the last write is the one no later write to that key follows |
| ControlPlane.BatchIsAllOrNothing | engine-core/src/core/control_plane.rs:269-276 | one reserved target makes the whole batch panic |
| CallOutcomes.SetExactly | engine-core/src/core/control_plane.rs:160-183 | an update is refused for the first that applies of: guard held, no signature, no admin, another admin, breaker open, reserved key, old sequence, wrong hash, counter full; or it writes the chain, the parameter, its name and the counter, and nothing else |
| CallOutcomes.SetManyRefused | engine-core/src/core/control_plane.rs:258-282 | a batch is refused in the same order but that its targets are checked after the commitment |
| CallOutcomes.StartExactly | engine-core/src/core/control_plane.rs:87-102 | initialisation is refused for the first that applies of its five reasons, or writes its five keys |
| ControlPlane.UpdateCountsExactly | engine-core/src/core/control_plane.rs:299-305 | an accepted update raises the counter by one if and only if it does not target the counter or writes the value it has |
| CallOutcomes.SetManyCounts | engine-core/src/core/control_plane.rs:278-282 | a batch leaves the counter one above what it was, or above the last number it wrote over it, and overflows exactly from the largest |
| AuditRuns.AimedUpdateMiscounts | engine-core/src/core/control_plane.rs:20-62 | a run that initialises and then takes the counter from 0 to 42 in one accepted update |
| AuditRuns.CounterCountsUpdates | engine-core/src/core/control_plane.rs:87-127 | in every run the counter is the number of accepted updates throughout if and only if every update spares it and initialisation comes after no update |
| AuditRuns.WithoutProxyStartIsFirst | engine-core/src/core/control_plane.rs:87-102 | the second condition can fail only where the proxy appointed an admin first |
| AuditRuns.LateStartMiscounts | engine-core/src/core/proxy.rs:29-42 | a run in which it does: the proxy appoints one admin, who updates a parameter, and initialisation for another puts the counter back to 0 |
| AuditRuns.CounterIsChainLength | engine-core/src/core/control_plane.rs:160-282 | while the counter is spared, it is the length of the audit chain if and only if no commitment was recorded without an update |
| Governance.CommittedSteps | engine-core/src/governance.rs:67-275 | what any accepted call requires and does, the signatures, the order, the quorum and the timelock included |
| Governance.EndorsedExactly | engine-core/src/governance.rs:153-238 | an approval is accepted if and only if the view allows it and there is no minimum stake or the signer holds it in the stored stake token |
| CallOutcomes.EndorseExactly | engine-core/src/governance.rs:190-238 | and is refused for the first that applies of its reasons, in the order of the code, or adds the signer, at the threshold with the proposal approved and locked for 720 ledgers |
| CallOutcomes.ApprovableExactly | engine-core/src/governance.rs:204-222 | a proposal takes an approval exactly when it is pending, the signer has not approved it and comes after the last who has; each refusal has its own error |
| CallOutcomes.EstablishGovernanceExactly | engine-core/src/governance.rs:67-102 | initialisation is refused for the first that applies of its reasons, a threshold above 100 or a stake without token among them, or stores just what it was given |
| CallOutcomes.SubmitExactly | engine-core/src/governance.rs:162-187 | a submission is refused for the first that applies of its reasons, or filed as pending without approvals, whatever it claimed |
| CallOutcomes.PerformExactly | engine-core/src/governance.rs:245-264 | an execution is refused for the first that applies of its reasons, or changes the state of the proposal alone |
| CallOutcomes.InstallExactly | engine-core/src/upgrade.rs:16-34 | an installation is refused for the first that applies of its own reasons, then of those of an execution, or executes and installs |
| Entrypoints.AllDistinct | engine-core/src/governance.rs:86-92 | the uniqueness loop: accepts exactly the lists without repeats |
| Entrypoints.SignerIndex | engine-core/src/governance.rs:135-143 | the first index of the signer, or an error exactly for a stranger |
| GovernanceRuns.RunIsRecorded | engine-core/src/governance.rs:162-275 | in every run a stored proposal is what its history says: hash, approvers in order, quorum and unlock ledger |
| GovernanceRuns.ExecutionIsJustified | engine-core/src/governance.rs:190-275 | in every run an executed proposal had exactly threshold distinct configured signers who signed and held the stake when they approved, was not executed before, reached quorum at least 720 ledgers earlier, and was handled with the breaker closed at every step |
| GovernanceRuns.ExecutedAtMostOnce | engine-core/src/governance.rs:245-264 | no run executes a proposal twice |
| GovernanceRuns.CodeWasApproved | engine-core/src/upgrade.rs:16-34 | installed code changes only to the hash that a proposal executed by that transaction was submitted with, or to one the stored admin signed for at the proxy |
| GovernanceRuns.SameApproversSameOrder | engine-core/src/governance.rs:186-222 | approval lists over the same signers with the same members are the same list |
| GovernanceRuns.AuditTrailIsCanonical | engine-core/src/governance.rs:186-222 | two runs, of one deployment or two, in which the same signers approved recorded the same list |
| GovernanceRuns.ApprovableExactly | engine-core/src/governance.rs:190-238 | with the stake gate off, a pending proposal can still be approved by some continuation of the run if and only if the signers after its last approver are at least as many as the approvals missing and the timelock still fits a ledger number |
| GovernanceRuns.ApprovedCanExecute | engine-core/src/governance.rs:245-264 | from every reachable state in which a proposal is approved, some continuation of the run executes it |
| GovernanceRuns.ExecutableExactly | engine-core/src/governance.rs:190-275 | with the stake gate off, a proposal not yet executed can be executed by some continuation if and only if it is approved or can still be |
| BreakerRuns.BreakerMovesByGuardian | engine-core/src/circuit_breaker.rs:63-99 | in every run the breaker opens only by a trip and closes only by a reset, signed by a configured guardian |
| CallOutcomes.TripExactly | engine-core/src/circuit_breaker.rs:63-99 | a trip is refused for the first that applies of: guard held, no signature, no guardian, already open; or opens the breaker and changes nothing else |
| CallOutcomes.ResetExactly | engine-core/src/circuit_breaker.rs:63-99 | and a reset likewise closes it |
| CallOutcomes.EstablishBreakerExactly | engine-core/src/circuit_breaker.rs:25-46 | the guardians are stored as given, once, on the signature of the admin, if there are any and none twice |
| AccessRuns.OpenBreakerFreezesChain | engine-core/src/circuit_breaker.rs:56-60 | while it is open no transaction moves the audit head or sets a parameter, and none installs code but the proxy, on the signature of the stored admin |
| AccessRuns.ProxySwapsWhileOpen | engine-core/src/core/proxy.rs:46-61 | a run in which it does: initialised, the breaker set up and tripped, no proposal ever made, and the code replaced |
| AccessRuns.OpenBreakerFreezesProposals | engine-core/src/circuit_breaker.rs:56-60 | nor changes a proposal |
| AccessRuns.OpenBreakerFreezesRecovery | engine-core/src/circuit_breaker.rs:56-60 | nor makes, replaces, approves or pays a recovery request |
| AccessRuns.OpenBreakerFreezesFunds | engine-core/src/circuit_breaker.rs:56-60 | nor lowers a token balance of the contract |
| AccessRuns.PrivilegedCallsAreSigned | engine-core/src/core/control_plane.rs:285-297 | an accepted call that is reserved to the admin carries the signature of the stored admin |
| AccessRuns.AdminIsPermanentExactly | engine-core/src/core/control_plane.rs:87-102 | in every run the admin signed its own initialisation, and is never replaced if and only if the control plane was not initialised for another account after the proxy had appointed one |
| AccessRuns.StartFindsProxyAdmin | engine-core/src/core/proxy.rs:29-42 | the control plane is initialised at most once, and finds an admin in place if and only if the proxy appointed one |
| EmergencyRecovery.CommittedSteps | engine-core/src/emergency_recovery.rs:36-155 | what any accepted call requires and does: the request or approval left pending, or the payment made and nothing pending |
| CallOutcomes.EstablishRecoveryExactly | engine-core/src/emergency_recovery.rs:36-51 | initialisation is refused for the first that applies of its reasons, or stores admins and threshold and leaves nothing pending |
| CallOutcomes.AskRefused | engine-core/src/emergency_recovery.rs:53-61 | a request is refused for the first that applies of: guard held, breaker open, no signature, no recovery admin |
| CallOutcomes.AskExactly | engine-core/src/emergency_recovery.rs:53-147 | or else for a zero address or an amount that is not positive or fits no event; or it replaces what was pending, and is paid at once where one approval suffices |
| CallOutcomes.EndorseRecoveryExactly | engine-core/src/emergency_recovery.rs:87-147 | an approval is refused for the first that applies of its reasons, or is recorded, and the request paid and cleared where the approvals suffice |
| CallOutcomes.TransferExactly | engine-core/src/emergency_recovery.rs:139 | a token moves exactly when the amount is not negative and the sender holds it |
| CallOutcomes.TransferMoves | engine-core/src/emergency_recovery.rs:139 | and then leaves one balance and reaches the other |
| CallOutcomes.MoveExactly | engine-core/src/emergency_recovery.rs:139 | transfers by other accounts than the contract are the same token calls |
| RecoveryRuns.RunIsSound | engine-core/src/emergency_recovery.rs:53-155 | in every run, between transactions: approvals are distinct admins, fewer than the threshold, none exactly when nothing is pending, all for the last request |
| RecoveryRuns.PayoutIsBacked | engine-core/src/emergency_recovery.rs:53-147 | every payout is the last request, token, destination and amount, once, backed by exactly threshold distinct admins who asked for or approved that very request and signed |
| RecoveryRuns.PendingCanBePaid | engine-core/src/emergency_recovery.rs:87-147 | from every reachable state, a pending request that the contract can cover is paid by some continuation of the run |
| FundingRuns.PayableExactly | engine-core/src/emergency_recovery.rs:87-147 | a pending request can be paid by some continuation if and only if all accounts together hold as much of its token: others may send the contract what it lacks |
| RecoveryRuns.ContractSpendsProperly | engine-core/src/emergency_recovery.rs:125-147 | a token balance of the contract falls only by a backed payout or by a fee at the stored rate |
| RecoveryRuns.TotalsAreConserved | engine-core/src/protocol_fee.rs:54-71 | no run creates or destroys tokens |
| RecoveryRuns.BalancesFollowTransfers | engine-core/src/emergency_recovery.rs:139 | every balance is the initial one plus the net of the transfers made |
| Entrypoints.CheckMetadata | engine-core/src/core/zk_hooks.rs:125-135 | accepts exactly the metadata within both limits |
| AuditRuns.RegistrationEffect | engine-core/src/core/zk_hooks.rs:49-143 | a registration is for the current non-genesis head, stores proof and attestation and counts one |
| CallOutcomes.RegisterExactly | engine-core/src/core/zk_hooks.rs:49-143 | a registration is refused for the first that applies of its reasons, more than 16 entries of metadata or one of more than 256 bytes among them, or stores proof and attestation and counts one |
| AuditRuns.RunIsAttested | engine-core/src/core/zk_hooks.rs:49-143 | in every run each stored proof and attestation is for a root that was the audit head of this run, both maps agree, each holds what was last registered, and the counter is the number of registrations |
| Protocol.CommitFrame | engine-core/src/core/control_plane.rs:24-62 | every call writes only under the keys it is for: set-up calls and components their own, an update the chain, the counter and the unreserved parameters it names |
| Protocol.RunIsWellTyped | engine-core/src/core/control_plane.rs:51-60 | in every run each engine key, if set, holds a value of the type its readers expect |
| Protocol.TrapsOnTypeExactly | engine-core/src/core/state.rs:51-54 | in every run a state-changing call traps on a stored value of the wrong type if and only if it reads the phase and a parameter update wrote that last |
| ParameterRuns.ParameterIsLastWritten | engine-core/src/core/control_plane.rs:119-122 | in every run a parameter reads as the value of the last accepted update that named it |
| ParameterRuns.GetParamTrapsExactly | engine-core/src/core/control_plane.rs:119-122 | in every run the parameter getter traps on a key if and only if it is set and is neither a parameter, nor one of the three counters, nor one of the three open engine keys that an update was the last to write |
| AuditRuns.AimedUpdateTraps | engine-core/src/core/state.rs:51-54 | a run in which one does: initialised, then the key of the phase updated, and the phase can no longer be read |
| Protocol.GuardIsFreeBetween | engine-core/src/guards.rs:27-42 | the guard is never left set between transactions |

## Left out

- NonceManagement.RunIsSerial: for runs that hand numbers back only while the account is unlocked; what a release inside the lock does is said by `NonceReleases.ReleaseIsLostExactly`, and by `ReleaseInsideLosesNumber` that such a run need not be serial.
- TxAggregation.BuiltNumbersHaveNoGap: for builds one after another; `BuildRuns.BuildsShareExactly` is about builds that overlap, and counts a build from the number it is given, on an account that nothing else refreshes or reserves from.
- TxAggregation.TxAggregator.BuildTransaction: for a build that finds the account unlocked; one that has to wait continues, once its reservation settles, as `FinishBuild` says.
- GovernanceRuns.ApprovableExactly: with the stake gate off; with it on, approval also depends on token balances.
- ChainStateCaching.ChainStateCache.EvictIfNeeded: the bound is a whole number from zero; the original's is a JavaScript number, of which a fraction acts as its floor, an infinity or not-a-number as no bound, and a negative one keeps the loop from ending.
- The text of events and logs, and the getters but for `get_param`.
- FundingRuns.PayableExactly: a token contract that caps a balance, or refuses an account, is outside the balance tables; and no account may start with a negative balance.
- Freshness of cached data by the start of a fetch: a late older revalidation may overwrite a newer result, so what is proved is by completion.
- IEEE rounding: fees are reals with exact floors and ceilings.
- `GasOracle.fetchBaseFee` and its timed cache; `TxAggregator.execute`, which polls the network.
- `treasury.rs`, `core/access.rs`, `version.rs` beyond initialisation, `burn.rs`, `core/guards.rs`, `require_state` of `core/state.rs`: they repeat governance's timelock, once-only and membership checks or only read.
- The behaviour of newly installed code: a run continues with the same entrypoints after an upgrade.
- The dashboard but for its CSV printer, and the bridge's sockets, timers, configuration and alerting.
- SQLite itself, SHA-256, signature checking, token contracts and the deployer: abstracted as said above.
