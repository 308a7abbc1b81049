# Verification of the triggered buy-order system

This project models three connected parts of the system and proves what they guarantee.

1. **The trading services.** Creating, cancelling, triggering and executing buy orders, depositing money and
   processing price updates, as a small-step system. Every awaited database or publish call is one step
   (`Protocol`). There are no transactions: any number of calls interleave in any order, jobs may be dropped,
   delayed or delivered twice, publishes may be lost, and a worker may stop for ever between two steps. The state
   holds the collections of the database and, for every call under way, its program counter and locals. A schedule
   is any finite sequence of actions, and the results about it hold after every schedule.
2. **The same services run inline.** With `QUEUE_DRIVER=inline` and one request at a time, a request is one nested
   imperative computation. `InlineExchange` is an object whose methods update the collections in place. Every method
   is proved equal, on the whole database, to a closed form (`InlineOutcome`), the closed form is proved to be what
   running the small-step processes to completion does, and that is proved to be one schedule of part 1. So every
   safety result of part 1 holds inline, and inline runs have more: settled states, greedy allocation, exact stores.
3. **The analytics.** Five calendar buckets per event, the fold of events into metric records, and the consumer
   that deduplicates what it is delivered. Calendar arithmetic is that of section 21.4.1 of ECMA-262 (2021 edition),
   on integers, with the mutable `Date` object (`EcmaTime`). The consumer's batches may repeat, reorder and abort.

`OrderWrites` says who writes an order and what was checked before, over any interleaving. The parts meet in
`EventLog`, `EventFacts`, `PriceNews`, `Agreement`, `Books`, `OrderCounts` and `PriceIdentity`: what the trading
services publish, field by field, and how the snapshots after any delivery of it compare with the primary store.
Where the interleaved services do less than the inline ones, `Races` gives the exact condition step by step,
`PositionRuns`, `LostUpdates`, `LedgerRuns`, `MissedTriggers` and `Idempotency` state it over whole runs, and
`Schedules` and `Shortfall` lead from the first request into each of these cases.

What is asked of the outside world: ids of new documents are unused, a query lists every document it selects once
(in any order), requests respect the bounds of their validation (price at least 0, target and deposit at least 0.01,
quantity at least 1), and a run starts with users and stocks but no orders. Money and quantities are real numbers,
time is an integer number of milliseconds.

## Where the code does less than one might expect

These are results too. Each is stated for a whole family of states, with the exact condition where there is one, and
the cases of the interleaved services are reached from starting states (`Schedules`, `Shortfall`,
`Races.DepositChainBreaks`, `LedgerRuns.BalancedRowsNeedNotChain`).

- A deposit's ledger row balances if and only if the wallet, when it is credited, still holds the balance read before
  (`Races.DepositRowBalancesIff`). Rows that balance one by one need not chain (`LedgerRuns.BalancedRowsNeedNotChain`).
  The rows of a user chain after a run, overlapping or not, if and only if every row inserted balances and starts at
  the wallet less everything that calls under way have moved and not yet recorded (`LedgerRuns.ChainHoldsIff`), and
  they do after every run in which no two wallet operations of the user overlap
  (`LedgerRuns.LedgerReplaysWithoutOverlap`).
- Saving a position adds the trade if and only if the stored quantity is still the one that was loaded
  (`Races.SaveAddsIff`), and its cost if and only if the stored amount is (`Races.SaveInvestsIff`). When every call has come to its end, a position holds what its trades add up to if and only
  if no two executions of that user and symbol were ever between load and save at the same time
  (`LostUpdates.PositionExactIff`); one such overlap leaves it short for ever (`LostUpdates.OverlapLosesForEver`).
- An execution that has looked for its position fails to save it if and only if it found none and the position exists
  by then (`PositionRuns.StrandsIff`). The money is taken and the trade recorded, but the order stays EXECUTING for ever
  (`PositionRuns.StrandedForEver`) and its execution is never announced (`Books.StrandedUnannounced`). When every call
  has come to its end and nothing was lost, the analytics fall short of the store by exactly these trades
  (`Books.ReportedAndStranded`), and agree if and only if there is none (`Books.ExecutionsMatchTheStoreIff`); such a
  run with a gap starts from every state that accepts two requests (`Shortfall.ShortfallReachable`).
- A new order that is already at its target is evaluated only if the price read before the insert was at or below
  the target (`Races.StalePriceMissesTheTrigger`), and sending an order back to PENDING evaluates nothing, although
  the price may have come back down (`MissedTriggers.RevertMissesIff`). When every call has come to its end, an order
  is PENDING at a price that meets its target if and only if the price met it already at the moment the order was last
  made PENDING, and was not written since (`MissedTriggers.MissedIff`); what made it PENDING then had read a price
  above its target (`MissedTriggers.MissedTriggersWereStale`). The project's README says that orders execute when the
  current price is at most the target; the code does not promise that the price is still there at the debit, only that
  it was the current price while the order was claimed (`OrderSafety.TradePricesWereQuoted`).
- A repeated creation request is answered with the existing order if and only if that was inserted before the repeat
  looked its key up (`Idempotency.RepeatAnsweredIff`). If it was inserted between the lookup and the insert of the
  repeat, the repeat is refused (`Idempotency.LateRepeatRefusedIff`). The lookup does not ask for the user, so the order
  answered with has the requester's user and terms if and only if the request that inserted it had them
  (`Idempotency.ReplyTermsIff`).
- `Date.UTC` moves the years 0 to 99 to 1900 to 1999, so a bucket contains its time exactly when the year is not one
  of those (`Buckets.BucketContainsIff`).
- An order that returns to PENDING and is triggered again reuses its event id. Its second event is dropped, so the
  day on which it counts depends on which one is delivered first (`Consumer.RepeatedIdAgreesIff`).
- The observed-price table keeps the prices of two symbols apart if and only if their stock ids, present or not,
  differ (`Metrics.SymbolsShareEntryIff`, `Metrics.MisfiledIff`).

## Model

| member | source | states |
|---|---|---|
| AnalyticsEvents.EventIdInjective | src/common/analytics/analytics-event-publisher.service.ts:114-117 | type and document id can be read back from an event id: no two documents and no two event types of one document share an id |
| AnalyticsEvents.EventIdSpelled | src/common/analytics/analytics-event-publisher.service.ts:114-117 | the event id of each type is its name, a colon and the document id |
| Ownership.ExecStepFrame | src/modules/orders/orders.service.ts:258-465 | a step of an execution leaves the document, the trades and the debit rows of every other order, all stocks and all price events unchanged; of the wallets it writes at most that of its order's owner, and of the positions at most that of its owner and symbol |
| Ownership.StepKeepsInv | src/modules/orders/orders.service.ts:154-172 | any step of any call keeps the ownership invariant: an order is EXECUTING exactly under one execution, which may rely on its terms, its debit and its trade |
| Ownership.RunKeepsInv | src/modules/orders/orders.service.ts:258-465 | the ownership invariant holds after every schedule |
| OrderSafety.ExecutingIffClaimedOnce | src/modules/orders/orders.service.ts:266-281 | an order is EXECUTING if and only if some execution, running or stopped, holds its claim, and the holder is unique |
| OrderSafety.UnguardedWritesHitOwnClaim | src/modules/orders/orders.service.ts:283-309 | of the two unconditional status writes the first is unreachable and the second finds the order EXECUTING under the same execution |
| OrderSafety.StepMoves | src/modules/orders/orders.service.ts:154-223 | one step moves an order only along the lifecycle and never changes its terms |
| OrderSafety.FinishedOrdersNeverChange | src/modules/orders/orders.service.ts:331-340 | COMPLETED, CANCELLED and FAILED are absorbing: whatever is scheduled later, the document stays identical |
| OrderSafety.EffectsHappenOnce | src/modules/orders/orders.service.ts:323-398 | at most one debit row and one trade per order; a trade implies EXECUTING or COMPLETED with the matching debit; COMPLETED implies both at the recorded price; every other status implies neither |
| OrderSafety.TradesRespectTargets | src/modules/orders/orders.service.ts:299-323 | every trade has executed price at most the target, the order's quantity, and cost equal to quantity times price |
| OrderSafety.TradePricesWereQuoted | src/modules/orders/orders.service.ts:299-379 | the executed price was the stock's current price at a moment when the order was claimed, even if it moved after evaluation or after the read |
| OrderWrites.InsertsWereCovered | src/modules/orders/orders.service.ts:72-93 | over every schedule, an inserted order has its request's user, terms and key, and at an earlier step its request read an active stock of the symbol, and after that a wallet of the owner that held at least quantity times target |
| OrderWrites.RefusedForGood | src/modules/orders/orders.service.ts:72-84 | over every schedule, a request that finds no active stock, or a wallet below quantity times target, is refused at that step, which changes no collection; it stays refused and inserts nothing in any continuation |
| OrderWrites.CancelsIff | src/modules/orders/orders.service.ts:154-176 | the first step of a cancellation makes an order of the asking user that is PENDING or TRIGGERED CANCELLED, with that reason and nothing else changed; for every other order it changes nothing |
| OrderWrites.CancelledByOwner | src/modules/orders/orders.service.ts:154-176 | over every schedule, a step that makes an order CANCELLED is the first step of a cancellation its owner asked for, and the order was PENDING or TRIGGERED |
| OrderWrites.DocumentWrites | src/modules/orders/orders.service.ts:154-398 | over every schedule, every write to an existing order is one of six, each from its statuses and to the exact document; a completion carries the clock of its step and the price of the order's one trade |
| OrderWrites.FailuresCouldNotPay | src/modules/orders/orders.service.ts:323-340 | over every schedule, an order becomes FAILED only after a step at which its owner was inactive or held less than its quantity times a price that met its target |
| Conservation.MoneyIsConserved | src/modules/users/users.service.ts:83-96 | over every schedule: starting balance plus deposits equals balance plus recorded trades plus amounts debited and not yet recorded, and the balance is never negative |
| Conservation.DebitsTakenAreRows | src/modules/wallet/wallet.service.ts:58-84 | the successful wallet debits of an order, counted along the run, are its ledger rows plus the debits whose row is still to be written |
| Conservation.OneDebitPerOrder | src/modules/wallet/wallet.service.ts:58-84 | over every schedule the wallet debit of an order succeeds at most once, exactly once if it is COMPLETED, and never for one neither EXECUTING nor COMPLETED |
| PositionSums.TradesDistinct | src/modules/orders/orders.service.ts:370-379 | no two recorded trades belong to one order |
| PositionSums.PositionsAddUpRealTrades | src/modules/portfolio/portfolio.service.ts:16-43 | under any interleaving a position's quantity and cost are each the sum over some set of distinct real trades of that user and symbol, so neither exceeds what was bought |
| Livelock.NoLivelock | src/modules/queue/queue.service.ts:537-577 | with m requests and deliveries, every schedule makes at most m(11 + 17m) steps that are not idle: triggering and reverting cannot go on for ever |
| Livelock.TriggersBoundedByEvaluations | src/modules/orders/orders.service.ts:214-223 | the successful triggers of an order never exceed the evaluations of its symbol that listed orders |
| StockPrices.LeastPriceIsMinimum | src/modules/stocks/stocks.service.ts:81-127 | over every schedule the least price is the minimum of its starting value and all prices written since, and stays at most the current price if it started so |
| Races.DepositRowBalancesIff | src/modules/wallet/wallet.service.ts:25-37 | a deposit row balances if and only if the wallet still held the balance read earlier when it was credited |
| Races.ConcurrentDepositsBreakTheChain | src/modules/wallet/wallet.service.ts:25-37 | two deposits that read the same balance leave a row that is off by the other deposit's amount |
| Races.DepositChainBreaks | src/modules/wallet/wallet.service.ts:25-37 | from every starting state with a user there is a schedule of two deposits, of any amounts, whose rows neither chain nor balance |
| LedgerRuns.StepReplay | src/modules/wallet/wallet.service.ts:31-84 | inserting a row keeps the chain of its user exactly when the row balances and starts at the replayed balance; no other step touches the chain |
| LedgerRuns.ChainHoldsIff | src/modules/wallet/wallet.service.ts:31-84 | over every schedule, overlapping or not: the rows of a user chain from the starting balance if and only if every row inserted balances and starts at the wallet less what calls under way have moved and not yet recorded, and then they come to just that |
| LedgerRuns.LedgerReplaysWithoutOverlap | src/modules/wallet/wallet.service.ts:25-84 | in every run where no two wallet operations of one user overlap, the rows chain from the starting balance to the current one less what is moved and not yet recorded |
| LedgerRuns.BalancedRowsNeedNotChain | src/modules/wallet/wallet.service.ts:25-37 | from every starting state with a user there is a schedule of two deposits whose rows balance each and do not chain |
| Races.SaveAddsIff | src/modules/portfolio/portfolio.service.ts:37-41 | saving a loaded position adds the quantity if and only if the stored quantity did not change since the load |
| Races.SaveInvestsIff | src/modules/portfolio/portfolio.service.ts:37-41 | it adds the cost if and only if the stored amount did not change since the load, or the cost is 0 |
| Races.SavedAverageIff | src/modules/portfolio/portfolio.service.ts:37-41 | it leaves the average of the loaded document with this trade if and only if that differs from the loaded average or the stored average is still the loaded one; otherwise the stored average stays |
| Races.ConcurrentExecutionsLoseAnUpdate | src/modules/portfolio/portfolio.service.ts:22-41 | two executions that load the same position: both complete the save, only the second quantity is added |
| Races.ConcurrentFirstTradesStrandAnOrder | src/modules/portfolio/portfolio.service.ts:27-34 | two first trades of one user and symbol: the second insert throws, and its trade stays |
| PositionRuns.StrandsIff | src/modules/portfolio/portfolio.service.ts:22-41 | in every reachable state, the step that saves a position throws if and only if the load found none and the position now exists |
| PositionRuns.StrandedForEver | src/modules/portfolio/portfolio.service.ts:27-34 | whatever is scheduled later, such an execution never moves, its order stays EXECUTING and its trade stays recorded |
| PositionRuns.PositionsExactWithoutOverlap | src/modules/portfolio/portfolio.service.ts:16-43 | in every run where no two executions of one user and symbol overlap between load and save, the position is the exact sum of all trades but those about to be applied, with the right average, and no execution of theirs is stranded |
| LostUpdates.OverlapLosesForEver | src/modules/portfolio/portfolio.service.ts:22-41 | once two executions of one user and symbol are between load and save at the same time, the quantity of the position stays below that of the trades whatever is scheduled later |
| LostUpdates.PositionExactIff | src/modules/portfolio/portfolio.service.ts:16-43 | over every schedule, when every call has come to its end, the quantity of a position is that of all its trades if and only if no two of its executions ever overlapped between load and save |
| Races.StalePriceMissesTheTrigger | src/modules/orders/orders.service.ts:72-97 | a new order is evaluated at once if and only if the price read before the insert was at or below its target, whatever the price is now |
| MissedTriggers.MissedIff | src/modules/orders/orders.service.ts:72-97 | over every schedule, when every call has come to its end, an order is PENDING at a price that meets its target if and only if the price met it already when the order was last made PENDING, and no price of its symbol was written since |
| MissedTriggers.MissedTriggersWereStale | src/modules/orders/orders.service.ts:72-97 | such an order was made PENDING by a request, or sent back by an execution, that had read a price above its target |
| MissedTriggers.RevertMissesIff | src/modules/orders/orders.service.ts:299-321 | sending an order back queues nothing, and leaves it at a price that meets its target if and only if the price has come back down since it was read |
| Schedules.StrandedReachable | src/modules/portfolio/portfolio.service.ts:22-34 | two or more accepted requests of one user for one stock can leave an execution stranded, from every starting state that accepts them |
| Shortfall.ShortfallReachable | src/modules/orders/orders.service.ts:380-462 | they can do so in a run where every call comes to its end and every publish arrives, and with all events delivered the analytics then report fewer trades of a user than there are |
| Schedules.LostUpdateReachable | src/modules/portfolio/portfolio.service.ts:37-41 | three such requests can complete their saves and leave a position short of its trades |
| Schedules.MissedTriggerReachable | src/modules/orders/orders.service.ts:72-97 | a request accepted above its target, with a price update down to the target, can end with every call finished and the order untriggered |
| Schedules.SentBackMissedReachable | src/modules/orders/orders.service.ts:299-321 | a request accepted at its target, with a rise and a fall of the price, can end with every call finished and the order PENDING, sent back and untriggered at a price that meets its target |
| Schedules.RetriggerReachable | src/modules/orders/orders.service.ts:299-321 | an order can be triggered, sent back and triggered again, and then its trigger is published twice with two times |
| Idempotency.KeysStayUnique | src/modules/orders/orders.service.ts:57-60 | over every schedule no two orders carry one idempotency key |
| Idempotency.RepeatsAgree | src/modules/orders/orders.service.ts:56-131 | over every schedule two answered requests with one key were answered with the same order |
| Idempotency.RepeatAnsweredIff | src/modules/orders/orders.service.ts:57-60 | over every schedule, a request that looks its key up is answered if and only if an order with the key has been inserted in the run, and then with that one order, changing nothing |
| Idempotency.LateRepeatRefusedIff | src/modules/orders/orders.service.ts:57-93 | over every schedule, a request with a key that reaches its insert is refused there if and only if an order with the key was inserted after its own lookup, and then changes nothing |
| Idempotency.ReplyTermsIff | src/modules/orders/orders.service.ts:57-60 | over every schedule, the order a request was answered with was inserted by a request with its key, and has the requester's user, or terms, if and only if that request had them |
| Schedules.LateRepeatReachable | src/modules/orders/orders.service.ts:57-93 | from every starting state that accepts two requests with one key, whoever makes them, the second can be refused |
| Schedules.ForeignReplyReachable | src/modules/orders/orders.service.ts:57-60 | from every starting state that accepts a request with a key, any request with that key, of any user and with any terms, can be answered with its order |
| Inline.CompleteIsRun | src/modules/queue/queue.service.ts:150-205 | running a call to completion, with the jobs it enqueues nested, is a schedule of the interleaved system |
| Inline.InlineRunsAreRuns | src/modules/queue/queue.service.ts:98-205 | every inline run of any list of requests is a schedule of the interleaved system |
| Inline.InlineKeepsDb | src/modules/queue/queue.service.ts:98-205 | so inline runs keep the order, debit and trade guarantees proved for all schedules |
| InlineOutcome.ExecCompletes | src/modules/orders/orders.service.ts:258-465 | running an execution to completion ends in the closed form of its branch: skipped, existing trade, reverted, failed or filled |
| InlineOutcome.ExecSpelled | src/modules/orders/orders.service.ts:258-398 | that form, on the stores, for an untraded TRIGGERED order: sent back when the price is above its target, otherwise paid, traded and COMPLETED exactly when its active owner holds the cost, and FAILED with nothing else written when not |
| InlineOutcome.OtherExecSpelled | src/modules/orders/orders.service.ts:266-297 | and for the others: nothing for an order that is not TRIGGERED, only the status for one that has a trade, only the claim when the stock is missing |
| InlineOutcome.ScanCompletes | src/modules/queue/queue.service.ts:557-564 | the evaluation loop, with every execution nested in it, ends in the closed form |
| InlineOutcome.EvalCompletes | src/modules/queue/queue.service.ts:537-565 | the same for an evaluation job |
| InlineOutcome.PriceCompletes | src/modules/queue/queue.service.ts:394-457 | the same for a price update with the evaluation nested at its end |
| InlineOutcome.CreateCompletes | src/modules/orders/orders.service.ts:56-131 | the same for a creation request, repeated, refused or accepted, with the evaluation before the creation event |
| InlineOutcome.CancelCompletes | src/modules/orders/orders.service.ts:154-202 | the same for a cancellation |
| InlineOutcome.DepositCompletes | src/modules/wallet/wallet.service.ts:25-56 | the same for a deposit |
| InlineOutcome.RequestCompletes | src/modules/queue/queue.service.ts:125-205 | the same for any request |
| InlineExchangeServices.InlineExchange.FindById | src/modules/users/users.service.ts:36-46 | returns the stored user or none, changing nothing |
| InlineExchangeServices.InlineExchange.IncrementWallet | src/modules/users/users.service.ts:48-63 | credits exactly the one wallet, or changes nothing for an unknown user |
| InlineExchangeServices.InlineExchange.ReserveFunds | src/modules/users/users.service.ts:83-96 | debits exactly when the user exists, is active and can pay, and then only that wallet |
| InlineExchangeServices.InlineExchange.Deposit | src/modules/wallet/wallet.service.ts:25-56 | refused exactly for an unknown user, and then nothing changes; otherwise the wallet grows by the amount, the ledger by a row with the balances before and after, and the whole database is the closed form of a deposit |
| InlineExchangeServices.InlineExchange.DebitForOrder | src/modules/wallet/wallet.service.ts:58-103 | succeeds exactly when the owner can pay; then the wallet falls by quantity times price and the ledger grows by its row, otherwise nothing changes |
| InlineExchangeServices.InlineExchange.ApplyExecution | src/modules/portfolio/portfolio.service.ts:16-43 | the position of that user and symbol is created or increased with its running average, all others stay |
| InlineExchangeServices.InlineExchange.GetStockBySymbol | src/modules/stocks/stocks.service.ts:69-79 | returns the stored stock or none |
| InlineExchangeServices.InlineExchange.UpsertPrice | src/modules/stocks/stocks.service.ts:81-127 | the stock of the symbol ends active at the given price, with the id it had or the new one, and the smaller of the price and the least price it had (without one, as the database compares a missing field); every other stock stays |
| InlineExchangeServices.InlineExchange.MarkTriggered | src/modules/orders/orders.service.ts:214-256 | succeeds exactly for a PENDING order, which becomes TRIGGERED and is announced; otherwise nothing changes |
| InlineExchangeServices.InlineExchange.ClaimOrder | src/modules/orders/orders.service.ts:266-281 | succeeds exactly for a TRIGGERED order, which becomes EXECUTING; otherwise nothing changes |
| InlineExchangeServices.InlineExchange.ExecuteTriggeredOrder | src/modules/orders/orders.service.ts:258-465 | the whole database afterwards is the closed form of an execution; it returns the order's trade exactly if it claimed the order and a trade is recorded |
| InlineExchangeServices.InlineExchange.SettleOrder | src/modules/orders/orders.service.ts:323-398 | fills the order exactly when the owner can pay and fails it otherwise |
| InlineExchangeServices.InlineExchange.RecordPurchase | src/modules/orders/orders.service.ts:370-386 | records the trade and applies it to the position |
| InlineExchangeServices.InlineExchange.CompleteOrder | src/modules/orders/orders.service.ts:388-462 | completes the order at the executed price and the clock of that step, and announces the execution with the time of the trade |
| InlineExchangeServices.InlineExchange.FailOrder | src/modules/orders/orders.service.ts:331-368 | fails the order, announces it, and touches no other store |
| InlineExchangeServices.InlineExchange.FindEligibleOrders | src/modules/orders/orders.service.ts:204-212 | when the query lists every document it selects once, the result has exactly the PENDING orders of the symbol whose target is at least the price, each once |
| InlineExchangeServices.InlineExchange.CancelOrder | src/modules/orders/orders.service.ts:154-202 | succeeds exactly for an order of the asking user that is PENDING or TRIGGERED, which becomes CANCELLED with no other collection but the events changed; refused, it changes nothing; the whole database is the closed form |
| InlineExchangeServices.InlineExchange.FindByKey | src/modules/orders/orders.service.ts:57-60 | finds an order with the key if and only if there is one |
| InlineExchangeServices.InlineExchange.CheckRequest | src/modules/orders/orders.service.ts:72-84 | passes exactly an active stock and a known user whose balance is at least quantity times target; each refusal is given exactly under its own condition |
| InlineExchangeServices.InlineExchange.CreateBuyOrder | src/modules/orders/orders.service.ts:56-131 | answers exactly a taken key, with an order that has it; for a free key accepts exactly with an active stock and a balance of at least quantity times target, refuses each other case under its own condition; only an accepted request changes anything, and one above its target inserts just the order; the whole database is the closed form |
| InlineExchangeServices.InlineExchange.PlaceOrder | src/modules/orders/orders.service.ts:86-128 | inserts, evaluates at once when the price read is at or below the target, then announces |
| InlineExchangeServices.InlineExchange.ProcessOrderEvaluation | src/modules/queue/queue.service.ts:537-565 | the loop over the listed orders ends in the closed form of an evaluation, which writes no price and takes back no event |
| InlineExchangeServices.InlineExchange.RecordPrice | src/modules/queue/queue.service.ts:411-428 | one price event with the price before, one upserted stock, nothing else |
| InlineExchangeServices.InlineExchange.AnnouncePrice | src/modules/queue/queue.service.ts:430-454 | one price record, and appended to the events the update with its id, symbol and both prices if its publish arrives, then the decrease with them if its publish arrives and the new price is below the old one |
| InlineExchangeServices.InlineExchange.ProcessPriceUpdate | src/modules/queue/queue.service.ts:394-457 | the same record and events first, the evaluation's after them; the whole database is the closed form of a price update |
| InlineExchangeServices.InlineExchange.ServeRequest | src/modules/queue/queue.service.ts:98-205 | the object ends where completing the request's small-step process ends |
| InlineExchangeServices.InlineExchange.ServeAll | src/modules/queue/queue.service.ts:98-205 | after any list of requests the object ends where the inline schedule of the small-step system ends |
| Serial.RejectedOrdersCostMore | src/modules/users/users.service.ts:83-96 | in the greedy fold, every order rejected from an active owner costs more than that owner has left at the end |
| Serial.EvaluationIsGreedy | src/modules/queue/queue.service.ts:537-565 | an inline evaluation is the left-to-right fold over the listed orders: exactly those change status, each to the fold's verdict, and wallets end as the fold leaves them |
| Serial.EvaluationVerdict | src/modules/orders/orders.service.ts:258-398 | an order that is not eligible is untouched; an eligible one is COMPLETED or FAILED, and FAILED for an active owner only if it costs more than the owner has left |
| Serial.InlineRunsStaySettled | src/modules/queue/queue.service.ts:394-565 | between inline requests nothing is TRIGGERED or EXECUTING, every PENDING target is strictly below the current price, and no order was ever returned to pending |
| SerialStores.InlineRunsKeepStores | src/modules/portfolio/portfolio.service.ts:16-43 | after any inline run every position is the exact sum of all its trades, the ledger rows chain from the starting balance to the current one, and each price event's old price is the previous one's new price |
| SerialStores.AverageIsBetweenPricesPaid | src/modules/portfolio/portfolio.service.ts:37-41 | after any inline run average times quantity is the amount invested, and the average lies between any bounds on the prices paid |
| EcmaTime.YearUnique | microservice/analytics/analytics.service.ts:186-189 | the year found for a day is the only one whose days include it |
| EcmaTime.MonthUnique | microservice/analytics/analytics.service.ts:186-189 | the month found for a day is the only one whose days include it |
| EcmaTime.MakeDayInverse | microservice/analytics/analytics.service.ts:187-189 | a day is recovered from its own year, month and date |
| EcmaTime.CalendarSpelled | microservice/analytics/analytics.service.ts:186-229 | day 0 begins 1970, every year has 365 or 366 days by the Gregorian rule, and the months share them out as they should |
| Buckets.BackToMonday | microservice/analytics/analytics.service.ts:191-195 | moving back by the days since Monday reaches the Monday of that week, across months and years |
| Buckets.GetPeriodStart | microservice/analytics/analytics.service.ts:186-206 | the setters reach midnight of the first day of the period of the (possibly moved) day |
| Buckets.GetPeriodEnd | microservice/analytics/analytics.service.ts:208-229 | the setters reach the last millisecond before the next period, across month and year ends and leap days |
| Buckets.GetBucketForDate | microservice/analytics/analytics.service.ts:160-173 | computes the bucket of the period that contains the day, and for lifetime the bucket from 0 to 253402300799999 |
| Buckets.BucketContainsIff | microservice/analytics/analytics.service.ts:186-229 | a bucket contains the time it was made for if and only if the year is not one of 0 to 99 |
| Buckets.SameBucketIff | microservice/analytics/analytics.service.ts:186-229 | two times share a bucket if and only if one lies within the other's |
| Buckets.NextBucketFollows | microservice/analytics/analytics.service.ts:208-229 | the millisecond after a bucket is the start of the next one |
| Buckets.BucketStartIsLatest | microservice/analytics/analytics.service.ts:186-206 | the start is the latest midnight, Monday, first of the month or 1 January not after the time |
| Buckets.ModernTimes | microservice/analytics/analytics.service.ts:161-167 | every time from 1970 to 9999 is in the lifetime bucket and is not moved |
| Buckets.LifetimeEnds | microservice/analytics/analytics.service.ts:161-167 | the lifetime bucket ends with the last millisecond of the year 9999 |
| Metrics.CounterIsSum | microservice/analytics/analytics.service.ts:245-288 | each additive figure of a metric record is the sum of the contributions of the events folded in |
| Metrics.AverageIsRatio | microservice/analytics/analytics.service.ts:263-270 | the average execution price is the total invested over the total quantity, and 0 without quantity |
| Metrics.AdminSubscriptions | microservice/analytics/analytics.service.ts:290-302 | the admin list names, once each, exactly the stocks some subscription event named, and its count is its length |
| Metrics.UserSubscriptions | microservice/analytics/analytics.service.ts:290-302 | a user's list is that of the last subscription event folded in, and its count the length of it |
| Metrics.NoSubscriptions | microservice/analytics/analytics.service.ts:290-302 | and empty without one |
| Metrics.ObservedPriceTable | microservice/analytics/analytics.service.ts:307-331 | when equal stock ids mean equal symbols, the table has one entry per symbol seen, with the lowest of all prices, the last one, and lowest at most latest |
| Metrics.MisfiledIff | microservice/analytics/analytics.service.ts:312-315 | a price is filed under another symbol if and only if an entry with its stock id and another symbol comes before every entry of its own symbol |
| Metrics.SymbolsShareEntryIff | microservice/analytics/analytics.service.ts:312-330 | the prices of two symbols get entries of their own if and only if their stock ids differ, and share one if and only if they are equal |
| Snapshots.AnalyticsService.ApplyEventToMetrics | microservice/analytics/analytics.service.ts:245-305 | each event type changes its own fields, stated one by one, and no others; that is the event's step of the fold |
| Snapshots.AnalyticsService.ApplyStockPriceMetric | microservice/analytics/analytics.service.ts:307-331 | the first entry with the id or symbol keeps both, gets the price as its latest and the smaller of the two as its lowest, and all others stay; without one an entry is appended |
| Snapshots.AnalyticsService.UpdateUserSnapshot | microservice/analytics/analytics.service.ts:86-119 | changes exactly the snapshot of that user and bucket, from its stored or default metrics |
| Snapshots.AnalyticsService.UpdateAdminSnapshot | microservice/analytics/analytics.service.ts:121-151 | changes exactly the admin snapshot of that bucket |
| Snapshots.AnalyticsService.ApplyEvent | microservice/analytics/analytics.service.ts:69-84 | updates the five buckets of the event, for its user if it names one, and for the admin |
| Snapshots.SnapshotIsFold | microservice/analytics/analytics.service.ts:69-151 | every stored snapshot is the fold of exactly the events of its user whose time is in its bucket |
| Snapshots.UserListIsLast | microservice/analytics/analytics.service.ts:290-302 | every user snapshot lists the stocks of the last subscription event of that user in its bucket, counted |
| Snapshots.UserListEmpty | microservice/analytics/analytics.service.ts:290-302 | and nothing without one |
| Snapshots.FigureIsSum | microservice/analytics/analytics.service.ts:69-151 | every additive figure of every snapshot is a sum over all events applied |
| Snapshots.PeriodIsSumOfDays | microservice/analytics/analytics.service.ts:160-229 | each additive figure of a day, week, month or year equals the sum of the figures of its days |
| Snapshots.YearIsSumOfMonths | microservice/analytics/analytics.service.ts:160-229 | a year's figure equals the sum of its twelve months' figures |
| Snapshots.LifetimeIsSumOfYears | microservice/analytics/analytics.service.ts:160-167 | the lifetime figure equals the sum over the years 1970 to 9999 |
| Snapshots.AdminIsSumOfUsers | microservice/analytics/analytics.service.ts:75-83 | an admin figure equals the sum of the users' figures plus the events that name no user |
| Consumer.AnalyticsEventsConsumer.HandleMessage | microservice/analytics/analytics-events.consumer.ts:83-107 | ignores a message without receipt, throws exactly on one that is no event or whose delete fails, and applies an event exactly if its id is new, records the id and deletes the message unless the delete fails |
| Consumer.AnalyticsEventsConsumer.HandleBatch | microservice/analytics/analytics-events.consumer.ts:70-72 | handles exactly the messages up to the first one that throws |
| Consumer.AnalyticsEventsConsumer.Poll | microservice/analytics/analytics-events.consumer.ts:58-81 | over any receive responses, failed ones and a shutdown included: the ids recorded and the receipts deleted are those of exactly the messages taken (less failed deletes), and from an empty consumer the snapshots are those of the first delivery of every id among the messages taken, in their order |
| Consumer.TakesIff | microservice/analytics/analytics-events.consumer.ts:58-81 | a message is taken if and only if it has a receipt and an event, no response before it came with the shutdown, and every message before it in its batch has no receipt or is an event whose delete does not fail |
| Consumer.AllTakenIff | microservice/analytics/analytics-events.consumer.ts:58-81 | the messages taken are listed in the order of the responses, and within one in that of its batch |
| Consumer.EachIdAppliedOnce | microservice/analytics/analytics-events.consumer.ts:89-106 | whatever was delivered and whichever deletes failed, the snapshots are those of the first delivery of every id, the recorded ids are the delivered ones, and the deleted messages are those handled whose delete succeeded |
| Consumer.OrderOfDeliveryDoesNotMatter | microservice/analytics/analytics-events.consumer.ts:83-107 | two deliveries covering the same ids, in any order and with any repetitions, agree on all counters and totals, the average, the admin subscriptions and every lowest price |
| Consumer.RepeatedIdAgreesIff | microservice/analytics/analytics-events.consumer.ts:90-97 | for one id delivered with two times, both orders of delivery agree on a bucket's figure if and only if the event does not count there or both times lie on one side of the bucket |
| EventLog.RunKeepsLog | src/common/analytics/analytics-event-publisher.service.ts:19-55 | over every schedule each published event states a fact of the database, and every event but a trigger or an execution has one process that may publish it, once |
| EventLog.OneIdOneEvent | src/common/analytics/analytics-event-publisher.service.ts:114-117 | over every schedule two published events with one id name one user and carry one payload, and are the same event unless an order was triggered twice |
| EventFacts.WaitingOrderEvents | src/modules/orders/orders.service.ts:113-256 | over every schedule, a creation, trigger or cancellation event names the order's owner, symbol, quantity and target, no cost, its own id and status, and carries the clock of the step that published it |
| EventFacts.ExecutionEvents | src/modules/orders/orders.service.ts:446-462 | an execution event names the owner, symbol and quantity of a COMPLETED order, its executed price, quantity times price, and the time of its recorded trade |
| EventFacts.FailureEvents | src/modules/orders/orders.service.ts:350-366 | a failure event names a FAILED order, a price at most its target, quantity times price, and carries the clock of its step |
| EventFacts.WalletEvents | src/modules/wallet/wallet.service.ts:39-100 | a wallet event names the owner, amount and balances of a ledger row of its kind, whose id it has, and carries the clock of its step |
| EventFacts.PriceEventTimes | src/modules/queue/queue.service.ts:430-492 | a price update carries the clock of the step that recorded the price, a decrease that of its own step |
| EventFacts.TradeTimes | src/modules/orders/orders.service.ts:370-379 | a trade carries the clock of the step that recorded it |
| Agreement.DeliveriesReportTheSame | microservice/analytics/analytics-events.consumer.ts:83-107 | over every schedule, any two deliveries of the published events that cover the same ids report the same lifetime figures and average |
| Agreement.ReportedFields | microservice/analytics/analytics.service.ts:245-288 | the figures reported are the fields of the stored metric record |
| Agreement.BucketsReportTheSame | microservice/analytics/analytics-events.consumer.ts:83-107 | the same for every bucket and every figure but the count of triggers |
| Agreement.BucketAveragesAgree | microservice/analytics/analytics-events.consumer.ts:83-107 | and for the average execution price of every bucket |
| Agreement.ExecutionsNeverOverstated | src/modules/orders/orders.service.ts:446-462 | over every schedule and every possibly incomplete delivery, the executions reported for any bucket are exactly the trades whose event arrived, so at most those in the store |
| Books.RunKeepsAnnounced | src/modules/wallet/wallet.service.ts:86-100 | when no publish fails, every trade and every ledger row has been announced or is about to be by the call that wrote it |
| Books.StrandedUnannounced | src/modules/orders/orders.service.ts:380-386 | over every schedule the execution of a stranded order is not among the published events |
| Books.AnnouncedUnlessStranded | src/modules/orders/orders.service.ts:446-462 | when every call has come to its end and no publish failed, a trade has been announced if and only if its execution is not stranded |
| Books.ReportedAndStranded | src/modules/orders/orders.service.ts:446-462 | then, completely delivered, trade count, quantity and investment reported for any user and any bucket plus the same figures of the stranded trades are those of the store's trades |
| Books.ExecutionsMatchTheStoreIff | src/modules/orders/orders.service.ts:446-462 | so the report matches the store if and only if no trade that counts there is stranded (for the investment: none that cost anything) |
| Books.LedgerRowsOk | src/modules/wallet/wallet.service.ts:74-84 | over every schedule each debit row has balance before equal to balance after plus amount, no negative balance, and no row has a negative amount |
| Books.ReportedWallet | src/modules/wallet/wallet.service.ts:39-53 | over every schedule and delivery the lifetime deposits and spend reported are exactly the ledger rows whose event arrived |
| Books.WalletNeverOverstated | src/modules/wallet/wallet.service.ts:39-53 | and those of any bucket are at most the ledger's |
| Books.LedgerMatchesEffects | src/modules/wallet/wallet.service.ts:25-100 | over every schedule the debit rows of a user come to its trades plus executions charged and not yet recorded, and the deposit rows to its recorded deposits |
| Books.BooksClose | microservice/analytics/analytics.service.ts:263-278 | when every call has come to its end, no publish failed and all is delivered: reported spend is the cost of the user's trades and exceeds the reported investment by exactly the cost of the stranded ones, reported deposits equal the deposits made, and starting balance plus deposits minus spend is the wallet |
| Books.SpendIsInvestmentIff | microservice/analytics/analytics.service.ts:263-278 | then spend equals investment if and only if no trade of the user that cost anything is stranded |
| OrderCounts.RunKeepsTriggers | src/modules/orders/orders.service.ts:214-256 | over every schedule a trigger event is only published for an order that was triggered in the run |
| OrderCounts.RunKeepsOrdersAnnounced | src/modules/orders/orders.service.ts:113-256 | when no publish fails, every creation, trigger, cancellation, execution and failure in the run has been announced or is about to be |
| OrderCounts.OrderCountsMatchTheStore | microservice/analytics/analytics.service.ts:258-261 | over every schedule and delivery each lifetime order count is the number of distinct orders its events are about, at most the orders created, ever triggered, CANCELLED, COMPLETED or FAILED, and exactly those when nothing was lost and every call has come to its end |
| PriceIdentity.RunKeepsIdentity | src/modules/queue/queue.service.ts:437-492 | over every schedule published prices name the stock id of their symbol, and stocks keep distinct ids |
| PriceIdentity.DeliveredPriceTables | microservice/analytics/analytics.service.ts:307-331 | so for every delivery the observed-price table of every bucket is right, and complete deliveries agree on the lowest prices of every bucket |
| PriceNews.RecordedPrices | src/modules/queue/queue.service.ts:407-416 | over every schedule, a step that records a price records the symbol and price of its update, with the old price the stock had at an earlier step, absent exactly if there was no such stock |
| PriceNews.PublishedPrices | src/modules/queue/queue.service.ts:430-492 | every published price event has the id of exactly one price record and carries its symbol, old and new price; a decrease has an old price above the new one |
| PriceNews.RecordsAnnounced | src/modules/queue/queue.service.ts:430-454 | when no publish fails, a recorded price whose update is past its announcements has been published, and a decrease with its id if and only if the new price is below the old one |
| PriceNews.PriceCountsMatchTheStore | microservice/analytics/analytics.service.ts:280-288 | over every schedule and delivery the lifetime counts of updates and decreases are at most the recorded prices and those that fell, and exactly these when nothing was lost and every call has come to its end |

## Left out

- HTTP controllers, request validation, authentication, roles, e-mail, avatar upload, logging and configuration.
- The stock-provider client and the price sync built on it: a loop that enqueues price updates, each of which is modelled as a request.
- The notification topic for price decreases and the subscription flow: remote calls. Only the subscription event in the metric fold is modelled. That the decrease event is not published at all without a configured topic is covered by the choice that a publish may be lost.
- BullMQ, Redis, SNS, SQS and MongoDB internals. Single-document updates are atomic, unique indexes are failed inserts, a query may list its result in any order.
- Liveness with BullMQ: the fixed job id of an execution may suppress a second enqueue, so that every triggered order eventually runs is not promised by the code.
- Database errors other than unique-index failures. In particular a ledger insert that throws inside the debit, which the catch around it would report as a failed order although the wallet was charged.
- Registration of users and changes of a user's status while orders are open; a user is active or not for a whole run.
- Stock names, currency, source and time stamps, and the timestamps MongoDB adds to documents.
- What a missing least price compares to in MongoDB: both answers are allowed, and the least-price result starts from a stock that has the field.
- Binary floating point, and the limit of Date values to 100 million days around 1970.
- Symbols are taken as already in upper case, and ids as strings; a malformed id is not modelled. An empty idempotency key is written as no key.
- A failure of the consumer between applying an event and recording it, and more than one consumer: both allow an event to be applied twice.
- Message parsing: a body is an event or is not one.
- The latest observed price and a user's own subscription list are those of the last event applied (`Metrics.ObservedPriceTable`, `Snapshots.UserListIsLast`), so they depend on the order of delivery; no claim is made about them across orders.
- The response builder and the period parser of the analytics endpoints, which would only add easy members.
- InlineExchangeServices.InlineExchange.ExecuteTriggeredOrder: a stock that is missing makes the original throw through the evaluation loop; here the call returns and the loop goes on. The case cannot arise, since an order's stock exists and stocks are never removed (`OrderSafety.UnguardedWritesHitOwnClaim`).
- LostUpdates.PositionExactIff: speaks of the quantity, not of the amount invested; a trade at price 0 costs nothing, so losing it does not show there (`Races.SaveInvestsIff` is the condition for one save).
- Consumer.AnalyticsEventsConsumer.Poll: the list of responses is finite, so it models the loop up to any point, not that it goes on.
- Agreement.BucketsReportTheSame: not the count of triggers of a bucket shorter than lifetime, because a re-triggered order publishes one id with two times; `Consumer.OrderOfDeliveryDoesNotMatter` gives the condition.
- The services share one object, `InlineExchange`, since their state is the shared database. Its methods `SettleOrder`, `RecordPurchase`, `CompleteOrder`, `FillOrder`, `FailOrder`, `CheckRequest`, `PlaceOrder`, `InsertOrder` and `TriggerOrder` are parts of one original method each.
