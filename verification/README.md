# Verification of the exchange's matching engine

A Dafny model of a BTC/USD spot exchange: its matching and settlement engine, the
maker scan beside concurrent transactions, the locks, and the two durable outboxes.
Amounts, prices and balances are integers in units of 10^-8; a product rounds down.

What is modelled, from the bottom up:

- `Decimals`: the two-stage rounding of `decimal.utils.ts`, and why integers in units
  may stand for it.
- `Model`, `Engine`: the tables, and the four transactions (create, process, cancel,
  reject) as functions on committed states. A transaction that throws rolls back.
  `Run` applies any sequence of them, with account openings, from the empty database.
- `OrderBook`: the candidate query, and the plain specification of maker selection:
  sort the eligible book by price and sequence, take until the taker is covered.
- `OrderRequests`, `OrderHistories`: what a creation, a cancellation and a rejection write,
  column by column, and how every order of a run came by its terms and its status.
- `Ledger`, `Fills`, `Settlement`, `Market`, `Reachability`: the books every state
  keeps, fill by fill, transaction by transaction, run by run. Every reachable state
  satisfies `Sound`: the books balance, statuses agree with remainders, and no
  executable cross rests.
- `Priority`, `EventCoverage`, `EveryRun`, `Lifecycle`: what one processed order and one
  order's life obey in every run.
- `BuyOrderCost`, `WalletDebits`: what a BUY order costs over its life, by the trade log and
  by what its owner's wallet loses, turn by turn.
- `MonetaryOracle`: the independent ledger replay of `monetary-invariants.ts` as a
  program, and the proof that it accepts exactly the balanced states, and every run.
- `Wallets`, `TradeSettlement`, `OrdersService`, `MatchingService`, `Exchange`: the
  services as methods that change one `Database` object in place - guarded wallet
  updates, the settlement loop with its stale taker row, rollback - each proved to do
  what its function in `Engine` says.
- `MakerScan`: the cursor scan as small steps between which cancellations begin,
  commit or roll back and orders are created.
- `Serializability`: a whole matching transaction as small steps, reading the latest
  committed rows under its own uncommitted writes, between which other transactions
  commit. The committed state is always the one a serial run in commit order gives.
- `MatchingProgress`: that such a transaction gets to its commit, with a measure of the
  work it has left.
- `SmallSteps`: creations, cancellations and rejections as small steps too, each beginning,
  locking, writing and committing or rolling back beside all the others; these refine the
  single commits of `Serializability`.
- `Locks`: every transaction's lock requests, and the wait-for graph.
- `OutboxClaims`, `MatchingOutbox`, `Processor`, `MatchingPipeline`: the matching outbox, its
  dispatcher, the job queue and its processor, then whole runs of any number of each
  with crashes, failed deliveries, expired leases, redelivery and late commits.
- `ForgottenOrders`: the one way an accepted order can be left without intent and job.
- `RealtimeOutbox`, `RealtimeRuns`: the same for the realtime outbox, with backoff, dead letters,
  fencing and pruning.

Conventions. Users, orders and trades are rows of append-only tables and are named by
their row number, in commit order; an order's `sequence` is a column of its own, unique and
otherwise any number, drawn before the commit. Outbox rows are named by their rank in
`created_at` order. Times are milliseconds on one clock that never goes back,
claim tokens are fresh, and each SQL statement is atomic. The isolation level is READ
COMMITTED: a read sees the latest committed rows, and `FOR UPDATE` waits for the row.
An account may open with any balances that fit its columns; the exchange's own opening
balances are one case. Where the isolated statements, the queue or the network may
fail, the steps of the model may fail before or after taking effect.

Totality is conditional on supply: opening balances of each asset that together fit one
column. Only the results that say that no guard fails carry that condition.

## Model

| member | source | states |
|---|---|---|
| Decimals.MultiplyIsExact | backend/src/common/decimal.utils.ts:47-50 | for any two operands that fit DECIMAL(28,8), rounding the product to 56 digits and then to eight places is the exact truncated product in units, or the same overflow |
| Decimals.AddIsExact | backend/src/common/decimal.utils.ts:57-60 | sums are exact before the range check |
| Decimals.SubtractIsExact | backend/src/common/decimal.utils.ts:52-55 | differences are exact before the range check |
| OrderBook.NextCandidateIsFirst | backend/src/matching/matching-order-book.service.ts:76-116 | the query returns a candidate exactly when there is one after the cursor, and that one precedes all others |
| OrderBook.NextCandidateIsBestPriced | backend/src/matching/matching-order-book.service.ts:82-115 | in prices and numbers: the query returns an offer behind the cursor whenever there is one; a buyer gets the lowest ask, a seller the highest bid, and at one price the smallest number |
| OrderBook.PriorityBookRanks | backend/src/matching/matching-order-book.service.ts:82-115 | repeating the query lists exactly the eligible makers, strictly by price then sequence |
| OrderBook.RankingIsUnique | backend/src/matching/matching-order-book.service.ts:112-114 | there is only one such list |
| OrderBook.CursorAdvances | backend/src/matching/matching-order-book.service.ts:40-41 | taking a candidate leaves strictly fewer after the cursor |
| OrderBook.CoverLengthIsLeast | backend/src/matching/matching-order-book.service.ts:62-70 | the selection is the shortest prefix of the ranking that covers the taker, else all of it |
| OrderBook.SelectionTakesBestOffers | backend/src/matching/matching-order-book.service.ts:29-115 | the selection lists offers only, best price first and at one price the smallest number; an offer is left out only when the better ones cover the taker |
| MatchingService.CandidateIsEligible | backend/src/matching/matching-order-book.service.ts:118-139 | on rows the database can hold, the re-check of the locked row agrees with the query's filter |
| MatchingService.FindAndLockEligibleMakers | backend/src/matching/matching-order-book.service.ts:20-74 | undisturbed, the cursor loop returns what sorting the book and taking from the front gives: the best-priced offers, in order, and no offer left out unless they cover the taker |
| MakerScan.ScanIsLinearizable | backend/src/matching/matching-order-book.service.ts:20-74 | whatever cancellations and creations interleave, the finished scan's makers are the simple selection on the book as it then stands, and the rows it read are current |
| MakerScan.ScanTerminates | backend/src/matching/matching-order-book.service.ts:29-41 | under the market lock the number of scan steps is bounded by the candidates there were at its start |
| MakerScan.ScanIsNeverStuck | backend/src/matching/matching-order-book.service.ts:43-60 | an unfinished scan can step, unless a cancellation holds the very row it waits for |
| MakerScan.OthersMayCommit | backend/src/matching/matching-order-book.service.ts:40-59 | between any two steps of the scan any active order it has not locked may be cancelled, the taker excepted, and any new order created |
| Fills.DebitCoversCost | backend/src/matching/trade-settlement.service.ts:231-239 | a BUY debit covers the executed cost and fits the reservation; at the limit price it exceeds the cost by at most one unit |
| Fills.FillFits | backend/src/wallets/wallets.repository.ts:24-41 | with bounded supply no guard of a fill's two wallet updates can fail |
| Fills.FillKeepsBooks | backend/src/matching/trade-settlement.service.ts:117-229 | one fill keeps every reservation, every account's ledger balance and both global totals |
| Settlement.SettleAllKeeps | backend/src/matching/matching.service.ts:93-186 | after any prefix of the makers: the rows, trades, users and remainders are the ones the fills determine, and the books hold with the loop's live remainder in place of the stale row |
| Settlement.SettleAllSucceeds | backend/src/matching/matching.service.ts:93-186 | with bounded supply the settlement loop never throws |
| Settlement.SelectionIsNeeded | backend/src/matching/matching-order-book.service.ts:29-71 | each selected maker's turn comes with a positive remainder on both sides, and if the taker ends covered the last maker trades |
| EveryRun.PassesAgree | backend/src/matching/matching.service.ts:93-112 | in every run settlement ends with exactly the remainder selection computed; every selected maker meets a positive remainder on both sides, so the early break and the zero-remaining skip are never taken; if the taker is filled the last selected maker trades |
| TradeSettlement.DebitNeverOverflows | backend/src/matching/trade-settlement.service.ts:231-239 | on stored orders the range-checked debit is the exact difference of rounded costs, nonnegative and in range |
| TradeSettlement.FeesNeverOverflow | backend/src/matching/trade-settlement.service.ts:77-115 | on stored orders the range-checked fee details are the exact ones |
| TradeSettlement.AmountsNeverOverflow | backend/src/matching/trade-settlement.service.ts:126-138 | on stored orders no amount of either kind of fill overflows or is negative |
| TradeSettlement.ApplyBuyTakerBalances | backend/src/matching/trade-settlement.service.ts:117-172 | two guarded updates in sequence move exactly the fill, or the fill fails |
| TradeSettlement.ApplySellTakerBalances | backend/src/matching/trade-settlement.service.ts:174-229 | the same for a SELL taker, with the zero refund left out of the update |
| TradeSettlement.ApplyTradeBalances | backend/src/matching/trade-settlement.service.ts:43-75 | either side's movement of money, by the taker's side |
| Wallets.BalanceConstraints | backend/src/wallets/wallets.repository.ts:24-41 | one bound per changed field, refusing exactly the negative or oversized changes |
| Wallets.GuardedUpdate | backend/src/wallets/wallets.repository.ts:60-73 | all changes are made if and only if every bound holds on the live row; otherwise none |
| Wallets.UpdateBalances | backend/src/wallets/wallets.repository.ts:97-119 | the same, with an unmatched row reported as a bounds error |
| Wallets.ReserveFunds | backend/src/wallets/wallets.service.ts:17-37 | moves the rounded cost of a BUY or the amount of a SELL to reserved, or refuses for lack of funds |
| Wallets.ReleaseFunds | backend/src/wallets/wallets.service.ts:39-60 | moves exactly what the order still holds back to available, or fails |
| OrdersService.CreateOrder | backend/src/orders/orders.service.ts:39-97 | succeeds exactly on good input, a known account with enough available, and a new number; then stores the order as asked for, reserves its funds, and adds its intent and event, each named column by column; otherwise the error and an untouched database |
| OrdersService.CancelOrder | backend/src/orders/orders.service.ts:113-167 | succeeds exactly for the owner's queued, open or partially filled order whose funds can be freed; then only its status becomes cancelled, its funds are available again and two events are stored; otherwise the error and an untouched database |
| OrderRequests.CreationPlaces | backend/src/orders/orders.service.ts:45-88 | exactly when a creation succeeds, and every column it writes: order, wallet, intent and event |
| OrderRequests.CancellationEnds | backend/src/orders/orders.service.ts:113-163 | exactly when a cancellation succeeds, and every column it writes |
| OrderRequests.RejectionEnds | backend/src/matching/matching.service.ts:237-269 | exactly when a rejection succeeds, every column it writes, and that it leaves an order outside the queue alone |
| OrderHistories.OrdersAreAsAskedFor | backend/src/orders/orders.repository.ts:17-38 | in every run each order has the owner, side, price, amount and number of the creation that added it |
| OrderHistories.StatusesComeFromCommands | backend/src/orders/orders.service.ts:113-163 | in every run an order is cancelled if and only if its owner cancelled it, rejected if and only if a rejection met it in the queue, and out of the queue only by these or its own matching |
| MatchingService.TakeTurn | backend/src/matching/matching.service.ts:93-186 | one turn of the loop, with both skips |
| MatchingService.SettleMakers | backend/src/matching/matching.service.ts:88-186 | the loop's variables and the tables end as the fold over the makers, or the loop fails with its error |
| MatchingService.ProcessOrder | backend/src/matching/matching.service.ts:30-230 | the whole transaction refines its function on states, rollback included |
| MatchingService.RejectOrder | backend/src/matching/matching.service.ts:237-269 | a queued order becomes rejected, its funds are available again and one event is stored; without a queued order, or on failure, nothing changes |
| Exchange.Serve | backend/src/matching/matching.service.ts:30-274 | any sequence of service calls on a fresh database reaches the state the functional run describes, and it is sound |
| Market.ProcessedRow | backend/src/matching/matching.service.ts:172-203 | how every order row looks after a processed order: the taker, each maker by its own fill, all others untouched |
| Market.ProcessKeepsBookUncrossed | backend/src/matching/matching.service.ts:188-203 | matching leaves no executable cross on the book |
| Market.ProcessKeepsSound | backend/src/matching/matching.service.ts:30-230 | matching keeps the engine's invariant |
| Reachability.ReachableIsSound | backend/test/support/monetary-invariants.ts:65-221 | every state any run reaches balances, has consistent statuses and is uncrossed |
| Reachability.ReservationsAreExact | backend/src/matching/trade-settlement.service.ts:231-239 | every user's reserved USD is the sum of individually rounded remaining costs of active BUY orders, reserved BTC the sum of remaining SELL amounts |
| Reachability.NoExecutableCrossRests | backend/src/matching/matching.service.ts:104-112 | in every reachable state a resting BUY and SELL of different users that cross are together worth less than one USD unit |
| Reachability.NothingButFundsFails | backend/src/wallets/wallets.repository.ts:24-119 | with bounded supply processing, rejecting and cancelling fail exactly on missing or inactive orders, creating exactly on bad input, a missing account, too little available or a number already used, and opening exactly on balances out of range |
| EveryRun.PriceTimePriority | backend/src/matching/matching-order-book.service.ts:98-115 | in every run, if a maker received a fill, every eligible maker ahead of it was filled or was worth nothing at its turn |
| EveryRun.CheapestAskFirst | backend/src/matching/matching-order-book.service.ts:98-115 | in every run, if a buyer took from one ask, every ask of another user that was cheaper, or as cheap with a smaller number, was filled or together with what the buyer then needed worth less than one USD unit |
| EveryRun.HighestBidFirst | backend/src/matching/matching-order-book.service.ts:98-115 | the same for a seller and higher bids |
| EveryRun.FillsAtMakerPrice | backend/src/matching/matching.service.ts:104-186 | in every run each new trade is the taker's with an open or partially filled order of another user on the other side, at that order's price and within both limits; it names its buyer and seller, charges five per mille to the maker and three to the taker in what each receives, and reduces the maker by its amount |
| Lifecycle.RunsOnlyProgress | backend/src/matching/matching.service.ts:172-203 | over any continuation orders keep their terms and never grow; an open order can only become partially filled, filled or cancelled, a partially filled one only filled or cancelled, and a final one stays as it is; trades and events are append-only |
| Lifecycle.ReachableOrder | backend/prisma/migrations/20260714174500_enforce_wallet_and_order_status_invariants/migration.sql:50-67 | every reachable order satisfies the status constraint, and its fills account for what it lost |
| Lifecycle.RedundantDeliveriesChangeNothing | backend/src/matching/matching.service.ts:35-49 | erasing the deliveries of orders that had left the queue leaves the same database |
| Lifecycle.LaterDeliveriesAreRedundant | backend/src/matching/matching.service.ts:247-249 | after a delivery of an order took effect every later process or reject of it is such a redundant delivery |
| Lifecycle.OneTransactionPerTaker | backend/src/matching/matching.service.ts:44-49 | all trades with one taker come from one transaction |
| EveryRun.EventsCoverWrites | backend/src/matching/matching.service.ts:204-222 | in every run a processed order announces exactly the trades it made and exactly the users whose order rows it wrote, each once |
| WalletDebits.LifetimeCost | backend/src/matching/trade-settlement.service.ts:231-239 | over any run, as taker and then as maker, what the owner's wallet lost from its reservation for a BUY order is the rounded original cost minus the rounded remaining cost; it covers everything the fills cost and never exceeds the original reservation |
| WalletDebits.EveryFillDebitsItsBuyer | backend/src/matching/trade-settlement.service.ts:126-154 | in every run the turn that makes a trade takes from the buyer's reserved USD exactly the debit computed from original minus executed, whichever side the buyer is on; what the fill did not cost comes back to available, never negative, and at the limit price at most one unit |
| WalletDebits.DebitedIsFallOfCost | backend/src/matching/trade-settlement.service.ts:231-239 | the wallet debits of an order, summed over all turns of all matching transactions of a run, are the fall in its rounded remaining cost |
| MonetaryOracle.ReplayTrades | backend/test/support/monetary-invariants.ts:94-157 | the trade loop accepts exactly the valid trades and ends with every account's ledger, every order's executed amount and both fee totals |
| MonetaryOracle.ReserveOrders | backend/test/support/monetary-invariants.ts:159-183 | the order loop accepts exactly the consistent orders and ends with every account's reservations |
| MonetaryOracle.CheckWallets | backend/test/support/monetary-invariants.ts:185-219 | the wallet loop accepts exactly the matching wallets and conserved totals |
| MonetaryOracle.AssertMonetaryInvariants | backend/test/support/monetary-invariants.ts:65-221 | the replay returns the recorded fees if and only if the snapshot is acceptable |
| MonetaryOracle.RatesAgree | backend/test/support/monetary-invariants.ts:128-144 | the engine's rounded rates and the replay's per-mille fees are the same for every amount |
| MonetaryOracle.AcceptsIffBooks | backend/test/support/monetary-invariants.ts:65-221 | a snapshot is acceptable if and only if the books balance and the statuses are consistent |
| MonetaryOracle.EveryRunIsAccepted | backend/test/support/monetary-invariants.ts:65-221 | the replay accepts every state any run reaches |
| Serializability.EveryScheduleIsSerial | backend/src/matching/matching.service.ts:31-55 | for every interleaving of a matching transaction's steps with the commits of other transactions, the committed state is that of running the committed transactions one after the other in commit order |
| SmallSteps.SmallStepsRefine | backend/src/orders/orders.service.ts:49-92 | creations, cancellations and rejections that begin, lock an order row, update a wallet under its guard, commit or roll back, interleaved with one another and with matching, reach a world some schedule of single commits reaches |
| SmallSteps.EveryInterleavingIsSerial | backend/src/orders/orders.service.ts:113-163 | so the committed state of every such interleaving is that of a serial run in commit order |
| SmallSteps.TransactionRuns | backend/src/orders/orders.service.ts:49-163 | from every reachable floor a creation, cancellation or rejection that would succeed alone and whose rows nobody has locked runs to its commit beside whatever is under way |
| SmallSteps.MatchingStepGoesOn | backend/src/matching/matching.service.ts:31-42 | a step of the matching transaction waits only for the row or the market a pending transaction has |
| SmallSteps.PendingCommitsWhatItWouldDoAlone | backend/src/wallets/wallets.repository.ts:60-73 | a creation, cancellation or rejection commits exactly what it would do at once on the state it commits on, though it read and wrote its rows earlier |
| SmallSteps.NumbersStayUnique | backend/prisma/migrations/20260714152000_add_order_table/migration.sql:35 | though numbers are drawn in one order and committed in another, the committed ones are distinct and no insertion finds its own taken |
| SmallSteps.NoReleaseFails | backend/src/wallets/wallets.service.ts:39-60 | with bounded supply a cancellation or rejection that has its order row never meets a failing guard: it can write once the wallet row is free, and then commit |
| SmallSteps.CreationFailsOnFunds | backend/src/wallets/wallets.service.ts:17-37 | with bounded supply a creation's guard fails exactly on bad input, a missing account or too little available on the rows as they are then |
| Serializability.ConcurrentStatesAreSound | backend/test/support/monetary-invariants.ts:65-221 | so every committed state of every interleaving is sound and passes the replay |
| Serializability.CommitsWhatItWouldDoAlone | backend/src/matching/matching.service.ts:51-222 | the interrupted transaction commits what it would have done at once on the state it commits on |
| MatchingProgress.NextTurnNeedsOnlyLocks | backend/src/wallets/wallets.repository.ts:97-148 | with bounded supply, whatever has committed since the scan, the next turn can be taken if and only if there is nothing to fill or both wallets are locked: neither guarded update can fail |
| MatchingProgress.WorkBoundsSteps | backend/src/matching/matching.service.ts:51-222 | once begun, a matching transaction takes a bounded number of steps, and nothing that commits beside it raises the bound |
| MatchingProgress.MatchingGoesOn | backend/src/matching/matching.service.ts:93-186 | with bounded supply there is always a step it can take, and the step lowers the work it has left |
| MatchingProgress.MatchingCanCommit | backend/src/matching/matching.service.ts:51-222 | from wherever the others have left it, its own steps lead to its commit, of exactly what processing its order at once on the committed state gives |
| MatchingProgress.QueuedOrderIsProcessed | backend/src/matching/matching.service.ts:31-222 | with bounded supply, and no other matching under way, any queued order can be processed from its beginning to its commit |
| Serializability.SettleAllFrame | backend/src/matching/matching.service.ts:114-118 | settlement depends only on the wallets and orders it locked, and changes no others |
| Locks.NoDeadlock | backend/src/wallets/wallets.repository.ts:121-148 | for any number of concurrent transactions no schedule closes a cycle of waits |
| Locks.LocksAreTakenInOrder | backend/src/matching/matching.service.ts:31-55 | in every schedule matching and rejection have the market before anything else and their order before any wallet, matching asks for no order row once it has a wallet, a cancellation has its order before its wallet |
| Locks.ProgramsGetTheirLocks | backend/src/matching/matching.service.ts:31-121 | each program, alone, gets every lock it asks for, whatever makers were chosen |
| Locks.InterleavedLocksWouldDeadlock | backend/src/matching/matching-order-book.service.ts:28 | were each maker locked only as it is settled, some schedule would reach a cycle of waits between a matching transaction and a cancellation: why all makers are locked first |
| Locks.EveryScheduleCanContinue | backend/src/matching/matching.service.ts:276-285 | while any transaction runs, one waits for nothing or for a free lock |
| OutboxClaims.TakeOldest | backend/src/queue/order-matching-outbox-dispatcher.service.ts:150-158 | a claim takes the oldest candidates, each once, and leaves one out only when the batch is full of older ones |
| MatchingOutbox.Outbox.ClaimNextBatch | backend/src/queue/order-matching-outbox-dispatcher.service.ts:141-168 | takes at most fifty unlocked intents, none with a lease of the last thirty seconds or a retry ahead, and leaves such an intent out only when fifty older ones are taken; those get the new token and a lease from now, nothing else changes |
| MatchingOutbox.Outbox.RemoveClaimedRow | backend/src/queue/order-matching-outbox-dispatcher.service.ts:170-179 | without the token nothing changes; with it exactly this intent goes and every other stays as it was |
| MatchingOutbox.Outbox.ReleaseClaim | backend/src/queue/order-matching-outbox-dispatcher.service.ts:181-197 | without the token nothing changes; with it the lease ends, one more attempt is counted and the retry is two seconds ahead, every other intent as it was |
| MatchingOutbox.Outbox.EnqueueProcessOrder | backend/src/queue/order-matching.queue.ts:25-45 | a job the queue knows keeps its state and its attempts, an unknown one is queued afresh, and every other job is as it was |
| MatchingOutbox.DispatchBatch | backend/src/queue/order-matching-outbox-dispatcher.service.ts:105-131 | handed over, an intent is gone and its order has a job; failed, it is released with a retry in two seconds or keeps its lease; jobs known before, and intents outside the batch, stay as they were |
| MatchingOutbox.DispatchLoop | backend/src/queue/order-matching-outbox-dispatcher.service.ts:97-139 | terminates and reports a failure if and only if some candidate fails; without one every candidate has a job and no intent; with one it stops after the first batch of the oldest fifty that fails, the batches before it handed over and every later candidate untouched; no intent is gone whose order has no job |
| Processor.ProcessJob | backend/src/queue/order-matching.processor.ts:12-31 | one delivery: matched if matching succeeds, retried with nothing changed if it fails and an attempt is left, else rejected, or failed with nothing changed when that throws too |
| Processor.EveryAttemptIsUsed | backend/src/queue/order-matching.processor.ts:33-36 | matching that keeps failing is tried exactly as often as there are attempts left before the rejection |
| Processor.JobSettlesOrRejects | backend/src/queue/order-matching.processor.ts:12-36 | a job left to itself ends its order by matching if that succeeds and by rejection if not, and is recorded failed exactly when both throw |
| MatchingPipeline.NoAcceptedOrderIsLost | backend/src/queue/order-matching-outbox-dispatcher.service.ts:97-197 | over all runs, retries included, a queued order has an intent, a live job or a job recorded as failed, unless the queue has dropped the record of its failed job |
| MatchingPipeline.LostMeansForgotten | backend/src/queue/order-matching.queue.ts:33-34 | that is the exact condition: a queued order without an intent has a live or failed job if and only if the queue has not dropped its failed one |
| MatchingPipeline.FailedJobsStayOnRecord | backend/src/queue/order-matching.queue.ts:33-34 | while at most a hundred failed jobs are on record none of them is dropped |
| MatchingPipeline.FailedJobsMayGo | backend/src/queue/order-matching.queue.ts:33-34 | a failed job may be dropped if and only if more than a hundred are on record |
| ForgottenOrders.OrderIsForgotten | backend/src/queue/order-matching.queue.ts:33-34 | and it happens: after a hundred and one failed jobs a run ends with a queued order that has neither intent nor job |
| MatchingPipeline.OrdersComeWithIntents | backend/src/orders/orders.service.ts:68-81 | a transaction appends an intent for exactly the orders it adds |
| MatchingPipeline.IntentIsClaimedAgain | backend/src/queue/order-matching-outbox-dispatcher.service.ts:150-158 | over all runs, whatever becomes of its dispatcher and of all other intents, an unlocked intent found as it was thirty seconds and a millisecond earlier is claimable, and the next claim takes it unless a batch of older candidates is ahead |
| MatchingPipeline.EarlierDispatcherIsFenced | backend/src/queue/order-matching-outbox-dispatcher.service.ts:170-197 | once an intent is claimed again, what an earlier dispatcher does with its token, at any later time, removes nothing and ends no lease |
| MatchingPipeline.CompletedMeansProcessed | backend/src/queue/order-matching.processor.ts:12-31 | over all runs a completed job's order is no longer queued |
| MatchingPipeline.IntentsRunToMatching | backend/src/queue/order-matching-outbox-dispatcher.service.ts:97-131 | from every reachable state a claimable intent whose order has no job can be handed over and its job completed by matching the order |
| MatchingPipeline.DeliveriesSettleOnce | backend/src/queue/order-matching-outbox-dispatcher.service.ts:97-139 | over all runs the database is the one of a history in which each order has at most one delivery that takes effect |
| MatchingPipeline.JobsStayWithinBudget | backend/src/queue/order-matching.processor.ts:33-36 | over all runs a job has at most two counted failures before its last attempt, and rejection starts only on that attempt; stalled deliveries are not counted |
| MatchingPipeline.DeliveryAgreesWithProcessor | backend/src/queue/order-matching.processor.ts:12-36 | the steps of an active job are together one delivery to the processor at three attempts: same end, same database |
| RealtimeOutbox.Repository.InsertEvents | backend/src/realtime/realtime-outbox.repository.ts:22-46 | adds one fresh row per event and changes no other |
| RealtimeOutbox.Repository.ClaimNextBatch | backend/src/realtime/realtime-outbox.repository.ts:48-76 | takes at most fifty unlocked pending rows, none with a lease of the last thirty seconds or a retry ahead, and leaves such a row out only when fifty older ones are taken; those get the new token and a lease from now, nothing else changes |
| RealtimeOutbox.Repository.MarkAsPublished | backend/src/realtime/realtime-outbox.repository.ts:78-90 | without the token nothing changes; with it the row is published now and gives up its lease and retry, every other row as it was |
| RealtimeOutbox.Repository.ReleaseClaim | backend/src/realtime/realtime-outbox.repository.ts:92-124 | without the token nothing changes; with it the lease ends and one failure is counted: a retry 2, 4, 8, 16 or 32 seconds ahead for the first five, 60 up to the ninth, and from the tenth a dead letter and no retry; every other row as it was |
| RealtimeOutbox.Repository.PruneExpiredEvents | backend/src/realtime/realtime-outbox.repository.ts:126-138 | what stays, unchanged, is exactly what was neither published nor dead-lettered at or before its cutoff; nothing pending ever goes |
| RealtimeOutbox.DispatchBatch | backend/src/realtime/realtime-outbox-dispatcher.service.ts:121-154 | acknowledged, a row is published; failed, it has one more failure or keeps its lease; rows outside the batch stay as they were |
| RealtimeOutbox.DispatchLoop | backend/src/realtime/realtime-outbox-dispatcher.service.ts:107-159 | terminates and reports a failure if and only if some candidate fails; without one it publishes exactly the candidates, however many batches that takes; with one it stops after the first batch of the oldest fifty that fails, the batches before it published and every later candidate untouched |
| RealtimeRuns.BackoffOverRuns | backend/src/realtime/realtime-outbox.repository.ts:92-124 | over all runs attempts never exceed ten, a row is dead-lettered exactly at its tenth counted failure, at least 302 seconds after the first, and never both published and dead-lettered |
| RealtimeRuns.RetriesAreExact | backend/src/realtime/realtime-outbox.repository.ts:57-66 | over all runs a pending row without a live lease may be claimed from its last failure plus exactly the delay for that failure, and not before |
| RealtimeRuns.NoEventIsLost | backend/src/realtime/realtime-outbox.repository.ts:57-138 | over all runs every appended event is pending, was published, or was dead-lettered, even after pruning |
| RealtimeRuns.ClaimsCanBePublished | backend/src/realtime/realtime-outbox-dispatcher.service.ts:107-133 | from every reachable table a claimed row can be published and acknowledged |
| RealtimeRuns.ClaimsCanBeReleased | backend/src/realtime/realtime-outbox-dispatcher.service.ts:107-154 | or it fails and is released, which counts exactly one failure |
| RealtimeRuns.PendingIsClaimedAgain | backend/src/realtime/realtime-outbox.repository.ts:57-66 | over all runs, whatever becomes of its dispatcher and of all other rows, an unlocked pending row found as it was a minute and a millisecond earlier is claimable, and the next claim takes it unless a batch of older candidates is ahead |
| RealtimeRuns.EarlierHolderIsFenced | backend/src/realtime/realtime-outbox.repository.ts:87-123 | once a row is claimed again, whatever an earlier holder does with its token, at any later time, changes nothing |

## Left out

- The frontend, controllers, input parsing, authentication, mappers, modules and configuration: amounts and prices start as integers in units.
- Account creation beyond its effect on wallets: an account opens with any balances that fit.
- `wallet-funds.service.ts`, pagination, active-order lists, market statistics and order-book views: queries and a duplicate path the engine does not call.
- The internals of Redis, BullMQ and Socket.IO: enqueueing and publishing are steps that succeed, fail or repeat; the queue deduplicates by job ID while it remembers the job, delivers again, and loses no waiting or active job.
- Log messages, `last_error`, `occurredAt`, payload parsing, polling timers, the maintenance timer, shutdown flags and the sharing of one dispatch promise.
- Random identifiers and their collisions: rows are named by position.
- MatchingService.FindAndLockEligibleMakers: has nothing running beside it, and returns row numbers; `MakerScan`, `Serializability` and `SmallSteps` treat the locks, the re-read rows and the interleavings.
- MakerScan.ScanIsLinearizable: a deleted maker row is not modelled, because no transaction deletes orders.
- Serializability.EveryScheduleIsSerial: transactions other than matching are single steps at their commit; `SmallSteps` takes them apart.
- SmallSteps.EveryInterleavingIsSerial: an account opening is one step, waiting for a lock is not a step of its own (`Locks` treats it), and the order in which one fill locks its two wallets is left open.
- Locks.NoDeadlock: locks are granted in any order, with no queue per lock, so fairness is not claimed.
- MatchingPipeline.NoAcceptedOrderIsLost: excepts orders whose failed job the queue has dropped from the hundred it keeps, because the source leaves those with neither intent nor job; `MatchingPipeline.LostMeansForgotten` makes the exception exact and `ForgottenOrders.OrderIsForgotten` reaches it.
- MatchingOutbox.DispatchLoop: runs at one instant beside statements that keep their locks; the moving clock and other dispatchers are in `MatchingPipeline`.
- RealtimeOutbox.DispatchLoop: runs at one instant beside statements that keep their locks; the moving clock and other dispatchers are in `RealtimeRuns`.
- Exchange.Serve: the methods work on one database object without interleaving; concurrency is treated on values in `MakerScan`, `Serializability`, `SmallSteps` and `Locks`.
