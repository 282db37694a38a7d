# Verified models of the trading engine

A Dafny project that models the stateful cores of the trading engine and proves properties over all their inputs,
calls and interleavings. Each file stands for one component of the source:

- `CloseProtocol.dfy` — closing all positions: workers, retries, timeouts, ambiguous outcomes and the tombstones that
  guard against selling a position twice, as a step system over the chain, the memory and the disk.
- `StrategyEngine.dfy` — the backtest engine: orders, fills, lots, average cost, equity and drawdown, against an
  account book that reads nothing but the fills.
- `OrderLaws.dfy`, `AccountLaws.dfy` — at which prices its orders fill, and what fills and requests do to the account.
- `TrailingStop.dfy` — trailing stops as a function of the price history.
- `Decimal.dfy`, `Pnl.dfy` — exact decimal-string money, fee conversion and realized profit.
- `CapitalAllocator.dfy`, `AllocationLaws.dfy` — the largest-remainder split, its optimality, and both by pnl.
- `FeedReconnect.dfy`, `FeedLaws.dfy` — sockets, timers and reconnects of the candle feed, under every order of events,
  its reconnect budget and its subscriptions.
- `PluginRegistry.dfy` — registration and load order.
- `DataEngine.dfy` — the bar store with its query cache.
- `BarAggregation.dfy` — aggregation to coarser timeframes.
- `DataLaws.dfy` — what the stored bars, the cached answers and the coarser bars are, bar by bar.
- `Scheduler.dfy` — the FIFO mutex.
- `Prelude.dfy` — option and result types, and facts of arithmetic.

A component that updates its fields is a class whose methods are proved against functions on a state value; the
theorems are about those functions and about every sequence of them. The table lists the theorems and the methods with
the most branching; the other methods of the classes have contracts of the same kind. Prices and quantities are `real`,
and decimal strings are sequences of characters over unbounded integers.

## Assumptions

The safety of the close protocol assumes of its surroundings what `CloseProtocol.Assumption` lists: the keys of a
snapshot are distinct, a signature reported as final is on chain, an error that holds one of the four phrases by which a
request is declined (`CloseDecisions.Declined`) means that the swap neither landed nor ever will, and a tombstone write
completes before the next load. Nothing else keeps a swap from landing at any time. For each of the four a run is given
that sells a position twice when only that one fails. What is reported needs less: verdicts, attempts and the source of
a signature need none of them, the summary only distinct keys. The engine's answer to "is the position still open" is
left to the surroundings at every attempt. Any number of runs may overlap, more than the engine's single-flight guard
lets begin.

The theorems about lots and ledger assume that the quantities traded are positive:
`StrategyEngine.FillNeedsPositiveQuantity` says why this is exactly what the lots need, and
`StrategyEngine.ZeroQuantityBreaksTheLedger` what happens to the ledger otherwise. Order ids, booked equity and drawdown
need no such assumption. The fee model behind a commission method is an arbitrary function of the direction and of the
entry value.

## What the code does beyond its documentation

- `disconnect` leaves the connecting flag set (src/trading/bybit-websocket.ts:336-348), so a linear feed stopped during
  its handshake never connects again: `FeedReconnect.ConnectAfterDisconnect`, `FeedReconnect.StuckForGood`.
- A legacy percent or per-contract commission is taken twice on exit (src/strategy/strategy-engine.ts:681 and 850):
  `StrategyEngine.LegacyExitIsChargedTwice` gives the exact condition, `StrategyEngine.OnePercentRoundTrip` a run,
  `StrategyEngine.EquityIsPnlExactly` and `StrategyEngine.DrawdownCoversExactly` what it means for whole runs. The ledger
  identity accounts for it.
- `allocateCapital` promises that the slices sum to the total (src/trading/capital-allocator.ts:60-66). They do if and
  only if the total is a whole number of units and no repeated id overwrites a slice: `CapitalAllocator.SlicesAddUp`,
  `CapitalAllocator.FractionalTotal`.
- `dDiv` promises rounding to nearest, which holds if and only if the divisor is positive
  (src/pnl/decimal.ts:144-151): `Decimal.DDivRounds`.
- Two names that spell the same symbol:timeframe share cache entries, and one is answered with the other's bars:
  `DataEngine.ColonBreaksTheCache`. `DataEngine.QueriesAreDirectExactly` says for which sets of names this never happens.
- Hot swap, which is on by default, can close a dependency cycle: `PluginRegistry.HotSwapCanCloseACycle`.
  `PluginRegistry.RegisterKeepsAcyclicExactly` says which calls do, and `PluginRegistry.RegistrationIsAcyclicExactly`
  which configurations exclude it.
- A limit or stop order fills at its own price even when the whole bar lies past it:
  `StrategyEngine.HitOrdersReachTheirPrice`, `StrategyEngine.GappedFillIsOutside`.
- A fill of quantity zero opens a position of zero, against which the next order the other way vanishes:
  `StrategyEngine.ZeroQuantityBreaksTheLedger`.

## Model

| member | source | states |
|---|---|---|
| `CloseProtocol.NoPositionIsSoldTwice` | src/trading/close-manager.ts:421-608 | Over any number of close runs, with any interleaving of workers, timeouts, late answers, landings and restarts, at most one swap of a position landed since its tombstone was last cleared, and swaps landed equal clears plus that remainder: no swap lands unaccounted and no clear happens without one |
| `CloseProtocol.OneSwapPerJob` | src/trading/close-manager.ts:471-515 | Of all the swaps that the close of one position sends over its retries, at most one was not rejected, so at most one executes |
| `CloseProtocol.VerdictsOfAPosition` | src/trading/close-manager.ts:383-413 | Whatever the surroundings do, the verdicts fired for a position in one run are none, a single one, or a timeout and then a confirmed close; a confirmed close names the last swap that this very close sent; a close that is done has fired its verdict, and the run has recorded the first one fired |
| `CloseProtocol.ClosedIsVouchedFor` | src/trading/close-manager.ts:538-572 | Whatever the surroundings do, a confirmed close with a signature fires for a position if and only if the swap of that signature was the last one of this very close when it was answered as signed or confirmed by a status check |
| `CloseProtocol.ConfirmedCloseHasLanded` | src/trading/close-manager.ts:538-608 | If only replies and status checks are honest about success, every confirmed close names a swap that landed |
| `CloseProtocol.CountedClosedIsReportedOnce` | src/trading/close-manager.ts:836-883 | If only snapshots list no position twice, then at any moment a position counts as closed in the summary of its run if and only if exactly one verdict fired for it and that verdict was a confirmed close |
| `CloseProtocol.RunSummary` | src/trading/close-manager.ts:836-883 | Under the same assumption alone, closed + failed + timedOut is the number of positions, and failedSymbols holds exactly the positions not reported closed once |
| `CloseProtocol.DuplicateKeysMiscount` | src/trading/close-manager.ts:836-883 | That assumption is needed: a position listed twice is sold and reported closed, and summed up as timed out, although every other assumption holds |
| `CloseDecisions.RetryableMeaning` | src/trading/close-manager.ts:723-728 | A message is retryable if and only if one of 429, rate limit, blockhash or expired occurs at some position of it, letters compared without case |
| `CloseProtocol.AnswerOutcome` | src/trading/close-manager.ts:562-608 | What each reply leads to: a signature closes with it, success without one fails, an ambiguous reply is looked up, and an error waits for the next attempt exactly when one of the four phrases occurs in it and a retry is left, and fails otherwise |
| `CloseProtocol.OtherOutcomes` | src/trading/close-manager.ts:600-648 | A status check closes exactly when it confirms and fails otherwise; an error before anything was sent is judged like a reply |
| `CloseProtocol.TopOutcome` | src/trading/close-manager.ts:431-452 | The top of an attempt goes on, writing the tombstone, exactly with budget left, the position open and no tombstone of another run; a spent budget times out, the rest fails, and neither touches the tombstones |
| `CloseProtocol.OtherErrorsAreFinal` | src/trading/close-manager.ts:486-492 | After an answer or a decline with none of the four phrases the close has failed, and stays so and sends nothing more over every continuation |
| `CloseProtocol.DoneSendsNothing` | src/trading/close-manager.ts:421-519 | A close with a verdict keeps it and sends nothing more over every continuation |
| `CloseProtocol.PullTakesTheNext` | src/trading/close-manager.ts:338-347 | A free worker pulls the position under the cursor, exactly while positions are left and neither deadline nor abort has come |
| `CloseProtocol.StoppedStartsNothing` | src/trading/close-manager.ts:342-355 | Once its deadline is reached, or it is aborted, a run starts no further close over every continuation |
| `CloseProtocol.AbortFailsAll` | src/trading/close-manager.ts:285-299 | An aborted run reports every position as failed |
| `CloseProtocol.TimeoutFreesTheWorker` | src/trading/close-manager.ts:403-412 | A timeout becomes the result and frees the worker, while the attempt itself goes on |
| `CloseProtocol.AttemptsAreBounded` | src/trading/close-manager.ts:421-519 | Whatever the surroundings do, a close sends at most one swap per attempt, and makes at most two attempts in an emergency and four otherwise |
| `CloseProtocol.AtMostFourAtWork` | src/trading/close-manager.ts:338-347 | Whatever happens, a run never has more than four closes that one of its workers waits for, although the workers share a cursor and nothing counts them |
| `CloseProtocol.DuplicateKeysSellTwice` | src/trading/close-manager.ts:338-347 | The distinct-keys assumption is needed: a snapshot that lists a position twice sells it twice although every other assumption holds |
| `CloseProtocol.StaleTombstonesSellTwice` | src/trading/bot-engine.ts:2022-2029 | The settled-disk assumption is needed: a restart that loads tombstones older than the last attempt sells a position twice although every other assumption holds |
| `CloseProtocol.DishonestRetrySellsTwice` | src/trading/close-manager.ts:723-728 | The retry assumption is needed: one retryable error after a swap that did land sells a position twice although every other assumption holds |
| `CloseProtocol.LateLandingSellsTwice` | src/trading/close-manager.ts:723-728 | And so does a retryable error about a swap that lands only after the retry was sent |
| `CloseProtocol.DishonestSuccessSellsTwice` | src/trading/close-manager.ts:547-556 | The assumption about final signatures is needed: a swap reported as final before it lands frees the tombstone, and a second run sells the position again although every other assumption holds |
| `CloseProtocol.LandKeepsCustody` | src/trading/close-manager.ts:544-600 | The landing of a swap keeps the invariant of the protocol: it is the first of its position since the tombstone was cleared |
| `CloseProtocol.ConfirmKeepsCustody` | src/trading/bot-engine.ts:2140-2145 | Clearing the tombstone for a landed swap leaves nothing of that position in flight |
| `CloseProtocol.ClaimKeepsCustody` | src/trading/bot-engine.ts:1989-2016 | Writing a tombstone that was not refused takes no position from another close |
| `CloseDecisions.ClosePosition` | src/trading/close-manager.ts:421-519 | The retry loop makes between one and maxRetries + 1 attempts, goes on exactly while results are retryable, and its verdict is that of the last one looked at: closed exactly on a sale, with its signature, timed out exactly on a spent budget |
| `CloseDecisions.VerdictReporter.FireVerdict` | src/trading/close-manager.ts:390-402 | The side effects run for the first verdict and for a later confirmed close, never again otherwise |
| `CloseDecisions.CloseGuard.PrepareCloseAttempt` | src/trading/bot-engine.ts:1989-2016 | Refused exactly when another run left a tombstone; otherwise the tombstone becomes this run's |
| `CloseDecisions.CloseGuard.HandlePositionClosed` | src/trading/bot-engine.ts:2084-2145 | Only a confirmed close changes anything: it removes the tombstone of its position, flattens the executor's entry for it and no other, if the executor and the entry are still there, and broadcasts it as flat |
| `CloseDecisions.Aggregate` | src/trading/close-manager.ts:836-883 | The counting loop computes the filters by verdict, in order |
| `CloseDecisions.SummaryAddsUp` | src/trading/close-manager.ts:836-883 | Each position is counted under exactly one verdict; failedSymbols are exactly the keys without a closed result, and timedOutSymbols exactly those whose result is a timeout or missing |
| `StrategyEngine.LedgerIdentity` | src/strategy/strategy-engine.ts:616-683 | In every state reached by trading positive quantities and at every price: realized equity plus open profit is initial capital plus cash of all fills plus signed position at that price, less trade fees and per-fill charges |
| `StrategyEngine.EquityIsAlwaysBooked` | src/strategy/strategy-engine.ts:616-683 | In every reachable state, whatever quantities were asked for: equity is initial capital plus the profits of the trades less per-fill charges, which are zero under a commission method or zero legacy commission |
| `StrategyEngine.ZeroQuantityBreaksTheLedger` | src/strategy/strategy-engine.ts:616-731 | A concrete run: a fill of quantity zero opens an empty position, the next order the other way vanishes against it, and the ledger disagrees with the account at every price but that of the fill |
| `StrategyEngine.BarEquityIsTheLedgers` | src/strategy/strategy-engine.ts:1196-1207 | After every bar the reported equity is the cash book's value at the close |
| `CashLedger.OpenKeepsBalance` | src/strategy/strategy-engine.ts:733-785 | Opening or averaging in keeps average cost and cash book in balance |
| `CashLedger.CloseKeepsBalance` | src/strategy/strategy-engine.ts:787-905 | Closing, clipped to the open quantity, books exactly its profit and its fees on both sides |
| `StrategyEngine.LegacyExitIsChargedTwice` | src/strategy/strategy-engine.ts:847-852 | A fill that closes books one trade and lowers equity by its charge once more; equity grows by exactly the profit of that trade if and only if a commission method is set, the commission is zero, or it is a fixed or per-order one |
| `StrategyEngine.EquityIsPnlExactly` | src/strategy/strategy-engine.ts:616-683 | Equity is the initial capital plus the profits of the trades in every run if and only if a commission method is set or the legacy commission is zero |
| `StrategyEngine.OnePercentRoundTrip` | src/strategy/strategy-engine.ts:616-683 | A concrete run: one unit bought and sold at price one under one percent legacy commission books a loss of 0.01 and costs 0.03 |
| `StrategyEngine.LotsAlwaysAccount` | src/strategy/strategy-engine.ts:740-784 | In every state reached by trading positive quantities, flat, zero quantity and no lots coincide, and otherwise the lots are positive and sum to the quantity |
| `StrategyEngine.FillNeedsPositiveQuantity` | src/strategy/strategy-engine.ts:740-784 | A fill that opens or adds leaves the lots in order if and only if its quantity is positive |
| `Positions.ReduceLotsMeaning` | src/strategy/strategy-engine.ts:904-931 | Reducing, from a named entry spilling over into the oldest or from the oldest alone, takes exactly the quantity out of the lots and leaves them positive |
| `Positions.NamedGoesFirst` | src/strategy/strategy-engine.ts:904-921 | A reduction that names an entry takes from the first lot of that entry as far as it goes, and only what that does not cover from the oldest lots |
| `Positions.OldestGoFirst` | src/strategy/strategy-engine.ts:922-931 | Otherwise the lots are used up from the oldest on: some first ones whole, the next in part, the others not at all |
| `Positions.ReducedAccounted` | src/strategy/strategy-engine.ts:902-952 | After a partial or full close the lots account for what is left, and none are left exactly when the position is flat |
| `Positions.OpenOrAddAccounted` | src/strategy/strategy-engine.ts:733-785 | Opening or adding keeps the lots accounting for the position if and only if the quantity is positive |
| `StrategyEngine.NoOrderIsFilledTwice` | src/strategy/strategy-engine.ts:550-588 | From a fresh engine, under any sequence of operations with any quantities and of rollbacks to states saved earlier in it, no order id is filled twice, none is both pending and filled, and pending ids are distinct |
| `StrategyEngine.TriggerKeepsSound` | src/strategy/strategy-engine.ts:1085-1104 | A triggered stop-limit is either filled once or comes back under a new id; the money stays in balance where quantities are positive |
| `StrategyEngine.FillKeepsSound` | src/strategy/strategy-engine.ts:616-683 | A fill takes one order out of the open ones, whatever it cancels meanwhile, and keeps the money in balance where quantities are positive |
| `StrategyEngine.ExitOnlyReduces` | src/strategy/strategy-engine.ts:356-383 | An exit from an open position trades against it, no more than is held, no more than the named entry holds and no more than was asked |
| `StrategyEngine.HitOrdersReachTheirPrice` | src/strategy/strategy-engine.ts:1040-1071 | A limit or stop order is hit exactly when the bar contains its price or lies wholly past it, and fills inside the bar exactly in the first case |
| `StrategyEngine.GappedFillIsOutside` | src/strategy/strategy-engine.ts:1040-1071 | A concrete bar: a limit order to buy at two fills at two although the bar never leaves one |
| `StrategyEngine.MarketFillsInsideTheBar` | src/strategy/strategy-engine.ts:1001-1015 | In every mode market orders fill, before slippage, inside a valid bar |
| `OrderLaws.MarketOrdersFill` | src/strategy/strategy-engine.ts:1001-1034 | A bar fills every pending market order, in order and before anything else, at the price that the mode takes from the bar (the open, the close, the high, the low or the mean of the four), moved against the order by the slippage: up for a buyer, down for a seller, by a fixed amount or by percents |
| `OrderLaws.NoLookAhead` | src/strategy/strategy-engine.ts:1001-1034 | In mode open the market fills of a bar depend on nothing of it but the open |
| `OrderLaws.ReachedOrdersFill` | src/strategy/strategy-engine.ts:1036-1083 | The pending limit and stop orders that a bar reaches all fill, in order, at the price they name, moved by the slippage |
| `OrderLaws.StopLimitOutcome` | src/strategy/strategy-engine.ts:1085-1104 | A stop-limit waits until the bar reaches its stop; then it fills at its limit if the bar reaches that too, and otherwise waits on as a limit order with a new id |
| `OrderLaws.GroupsAreCancelled` | src/strategy/strategy-engine.ts:1074-1130 | A bar that reaches an order leaves nothing of its group pending but stop-limit orders it converted, and drops no order it does not reach that is in no group |
| `AccountLaws.OpeningFill` | src/strategy/strategy-engine.ts:616-785 | A fill that opens or adds: price with slippage, charge by commission type, direction, quantity, cost, lots and trailing states; nothing else changes |
| `AccountLaws.ClosingFill` | src/strategy/strategy-engine.ts:787-966 | A fill against the position closes no more than is held, books one trade with entry, exit, fees and profit, samples the equity, takes the charge again, and a full close cancels its exit group |
| `AccountLaws.EntryOutcome` | src/strategy/strategy-engine.ts:160-262 | entry places what was asked for when it is admitted, closes an opposite position first, turns a short of a long-only method into a close, and is refused otherwise |
| `AccountLaws.ExitOfPosition` | src/strategy/strategy-engine.ts:360-377 | An exit trades what was asked for, or all, of the position or of the lots of the entry it names, clipped to what is there |
| `AccountLaws.ExitOfPending` | src/strategy/strategy-engine.ts:378-385 | Without a position an exit is for the first market order pending, against its action |
| `AccountLaws.ExitOutcome` | src/strategy/strategy-engine.ts:345-451 | An exit at market fills at once; one with a price or a trail rests, in the group of the position it exits |
| `AccountLaws.CancelOutcome` | src/strategy/strategy-engine.ts:497-519 | cancel takes the order with the id out and leaves the others in order |
| `AccountLaws.RestoreOutcome` | src/strategy/strategy-engine.ts:550-588 | Over any run, restoring brings back everything saved but the order counter and the price, which stay |
| `AccountLaws.BarEnds` | src/strategy/strategy-engine.ts:968-999 | After its fills a bar is marked to market at the close, sampling peak and drawdown, and then checked for liquidation |
| `StrategyEngine.DrawdownCoversEveryFall` | src/strategy/strategy-engine.ts:957-966 | When closing fills are charged on their trade only, the recorded maximum drawdown is at least every fall of the reported equity between two bars of a run that is not rolled back behind the first |
| `StrategyEngine.DrawdownCoversExactly` | src/strategy/strategy-engine.ts:957-966 | In any configuration, rebates included, the drawdown covers every fall in every run if and only if a commission method is set, the legacy commission is zero, or it is a fixed or per-order one |
| `StrategyEngine.SecondChargeFallsFurther` | src/strategy/strategy-engine.ts:847-852 | With a positive charge: a unit that rises and is then sold low falls by its second closing charge more than is recorded |
| `StrategyEngine.SecondRebateFallsFurther` | src/strategy/strategy-engine.ts:847-852 | With a negative charge: the second rebate lifts the reported equity above everything sampled, and a later loss falls from there |
| `StrategyEngine.BarCovers` | src/strategy/strategy-engine.ts:1160-1186 | One bar never lowers peak or drawdown, and leaves the reported equity sampled by both |
| `StrategyEngine.Engine.CloseOrReducePosition` | src/strategy/strategy-engine.ts:787-955 | The close in place: trade, equity, first-in-first-out lots, cancelled group and drawdown |
| `StrategyEngine.Engine.ProcessBar` | src/strategy/strategy-engine.ts:968-999 | updateBar: market fills, trailing stops, pending orders, marking to market and liquidation, in this order |
| `TrailingStop.StopFollowsHistory` | src/strategy/trailing-stop-manager.ts:37-138 | While the average price stays, the activation machine is a function of the price history: the stop is the best price so far less a hundredth for each tick of the offset, never on the losing side of the entry, and the order carries it exactly once it has left the entry; for long and short |
| `TrailingStop.PriceStopFollowsCloses` | src/strategy/trailing-stop-manager.ts:57-138 | An order that trails by price: after any bars its stop is the best of the entry and of the closes less the trail, from the bar on that reached the starting price, and the order carries it exactly once it has left the entry |
| `TrailingStop.NoTrailNoStop` | src/strategy/trailing-stop-manager.ts:37-70 | An order whose trail offset and trail price are both missing or not positive never trails |
| `TrailingStop.StopsFollowHistory` | src/strategy/trailing-stop-manager.ts:27-138 | The same, for both kinds of trail, of every trailing order of a list with distinct ids, updated together over any bars |
| `TrailingStop.StopNeverRetreats` | src/strategy/trailing-stop-manager.ts:128-135 | One more bar never moves the stop back |
| `TrailingStop.UpdatesAreIndependent` | src/strategy/trailing-stop-manager.ts:37-138 | With distinct ids each order is updated from its own state, and no other state changes |
| `TrailingStop.TrailingStopManager.Update` | src/strategy/trailing-stop-manager.ts:27-138 | The loop updates the states in place and returns the orders with their new stops |
| `Decimal.ParseFormat` | src/pnl/decimal.ts:29-75 | parse(format(c, s)) is the shortest exact representation of c / 10^s |
| `Decimal.ParseRender` | src/pnl/decimal.ts:60-75 | Reading back a rendered number gives exactly its coefficient and scale |
| `Decimal.AcceptedMeaning` | src/pnl/decimal.ts:21-40 | A string is accepted if and only if it is an optional sign, then digits, digits with a point and a possibly empty fraction, or a bare fraction |
| `Decimal.SpelledValue` | src/pnl/decimal.ts:29-50 | What each spelling denotes: its whole part plus its fraction over a power of ten, negated by a minus sign alone |
| `Decimal.ParseSpelled` | src/pnl/decimal.ts:29-50 | Coefficient and scale of each spelling: all its digits, and the length of its fraction |
| `Decimal.RefusedExamples` | src/pnl/decimal.ts:21-21 | The empty string, a sign alone, a point alone, two points and an exponent are refused |
| `Decimal.FormatCanonical` | src/pnl/decimal.ts:60-75 | Two printed results are equal strings if and only if they are equal rationals |
| `Decimal.DAddMeaning` | src/pnl/decimal.ts:94-97 | Addition is exact, canonical, and fails exactly on malformed operands |
| `Decimal.DSubMeaning` | src/pnl/decimal.ts:100-103 | Subtraction likewise |
| `Decimal.DMulMeaning` | src/pnl/decimal.ts:109-113 | Multiplication likewise |
| `Decimal.DCompareMeaning` | src/pnl/decimal.ts:157-162 | Comparison succeeds exactly on decimal operands and then is the order of the rationals |
| `Decimal.AdditionLaws` | src/pnl/decimal.ts:94-97 | Commutativity, associativity and the zero law as literal equalities of results, errors included |
| `Decimal.SubtractionLaws` | src/pnl/decimal.ts:100-103 | Subtraction undoes addition as a literal string equality |
| `Decimal.MultiplicationLaws` | src/pnl/decimal.ts:109-113 | Commutativity and associativity as literal equalities |
| `Decimal.Distributivity` | src/pnl/decimal.ts:94-113 | Multiplication distributes over addition as a literal equality |
| `Decimal.DDivRounds` | src/pnl/decimal.ts:125-152 | dDiv is within half a unit of the last requested digit, ties away from zero, if and only if the divisor is positive |
| `Decimal.RoundQuotientMeaning` | src/pnl/decimal.ts:144-151 | For a positive divisor the rounded integer is the one nearest integer, ties away from zero; for a negative one it is always a whole unit or more away |
| `Decimal.DDivErrors` | src/pnl/decimal.ts:125-133 | dDiv succeeds exactly on decimal operands, a nonzero divisor and a non-negative precision |
| `Decimal.DivideDecimal` | src/pnl/decimal.ts:125-152 | The in-place scaling of numerator and denominator computes DDiv |
| `Fees.FeeToQuoteExact` | src/pnl/fees.ts:49-63 | The conversion is exact if and only if the amount has no digits beyond 18 fractional digits of a token |
| `Fees.ShortAmountsFit` | src/pnl/fees.ts:61-62 | In particular when token decimals plus the amount's fractional digits are at most 18 |
| `Fees.FeeToQuoteMeaning` | src/pnl/fees.ts:49-63 | A quote amount is passed through as it is; another mint denotes its amount in tokens, rounded to 18 digits, times its price; a mint without a price is an error; and the conversion yields a decimal exactly for chargeable components |
| `Fees.FeeBreakdownMeaning` | src/pnl/fees.ts:70-80 | The breakdown succeeds exactly when every component is chargeable (a decimal amount and, unless it is in quote units, a decimal price with token decimals), and then spells each kind's total worth canonically for exactly the kinds that occur |
| `Fees.BreakdownOrderIrrelevant` | src/pnl/fees.ts:70-80 | The breakdown, and its failure, do not depend on the order of the components |
| `RealizedPnl.BaseFeeIsTwoSignatures` | src/pnl/fees.ts:124-131 | The modeled base fee is twice the per-signature lamports, canonically, and disappears only at zero |
| `RealizedPnl.BpsFeeMeaning` | src/pnl/fees.ts:94-118 | A basis-point fee is one quote component of value times points over ten thousand, rounded to 18 digits half away from zero, and disappears exactly at zero points |
| `RealizedPnl.ModelFeesMeaning` | src/pnl/fees.ts:94-134 | The modeled fees are the venue, platform, priority and base fees, in this order |
| `RealizedPnl.ModeledFeesAreCharged` | src/pnl/fees.ts:94-134 | Modeled fees never contain the informational slippage memo |
| `RealizedPnl.NetIsGrossMinusSubtracted` | src/pnl/aggregate.ts:71-134 | For both anchors and for missing fills, net is gross minus the sum of the breakdown over subtractedFromNet, as strings; those kinds are the anchor's, and feesTotal spells the sum over all kinds |
| `RealizedPnl.AnchorsDifferByVenueAndPlatform` | src/pnl/aggregate.ts:110-119 | With both fills, the out-amount net less the fills net is exactly venue plus platform fees |
| `RealizedPnl.FillsNetSubtractsAllFees` | src/pnl/aggregate.ts:107-119 | For fills, net is gross minus feesTotal if and only if the slippage memo contributes nothing |
| `RealizedPnl.AggregateOrderIrrelevant` | src/pnl/aggregate.ts:94-134 | Reordering the fee components changes nothing in the result |
| `RealizedPnl.AggregateRealizedPnl` | src/pnl/aggregate.ts:71-134 | The imperative aggregation computes Aggregate, errors included |
| `RealizedPnl.AggregateSucceeds` | src/pnl/aggregate.ts:71-134 | The aggregation succeeds exactly when the fills, if both are given, have decimal prices and quantity and every component is chargeable; it states the flags and counts of the result and its breakdown |
| `RealizedPnl.GrossCanonical` | src/pnl/core.ts:22-31 | Gross is the signed price move times the quantity, or zero without both fills |
| `RealizedPnl.SumKindsMeaning` | src/pnl/core.ts:42-50 | Summing kinds without repeats spells their exact total, whatever the order |
| `CapitalAllocator.SlicesAreOptimal` | src/trading/capital-allocator.ts:69-119 | For distinct ids, no map of whole units with the same sum has a smaller sum of absolute deviations from the exact proportional shares than the map returned |
| `AllocationLaws.ScaledWeightMeaning` | src/trading/capital-allocator.ts:80-83 | The weight of a world is within one half of its pnl in millionths |
| `AllocationLaws.FairByPnl` | src/trading/capital-allocator.ts:80-119 | Where pnl in millionths is whole, the slice of a world that shares its id with no other is strictly within one unit of total * pnl / sum of pnl, and of two such worlds the one with the higher pnl never gets less |
| `AllocationLaws.OptimalByPnl` | src/trading/capital-allocator.ts:80-119 | There and for distinct ids, no slices of whole units that hand out as much are nearer in sum to the shares by pnl |
| `AllocationLaws.AllocatableMeaning` | src/trading/capital-allocator.ts:69-91 | Something is handed out exactly when the total is at least half a unit and some pnl at least half a millionth |
| `AllocationLaws.AwardedComeFirst` | src/trading/capital-allocator.ts:105-115 | An awarded world lost a larger fraction than one that is not, or as much with more weight, or comes earlier |
| `AllocationLaws.ThreeToOne` | src/trading/capital-allocator.ts:69-119 | A concrete call: 100 over pnl 300 and 100 is split into 75 and 25 |
| `CapitalAllocator.AllocationIsOptimal` | src/trading/capital-allocator.ts:93-116 | No integer allocation of the same total has a smaller sum of absolute deviations from the exact proportional shares |
| `CapitalAllocator.AllocationMeaning` | src/trading/capital-allocator.ts:69-119 | The returned map holds exactly the ids of the positively weighted worlds, each with the floor of its last world plus every unit awarded to one of its worlds |
| `CapitalAllocator.SlicesAddUp` | src/trading/capital-allocator.ts:60-66 | The slices sum to the rounded total if and only if a repeated id overwrites no floor but zero, and to the total itself if and only if it is a whole number of units besides |
| `CapitalAllocator.SlicesAddUpForEveryTotal` | src/trading/capital-allocator.ts:60-66 | The slices of given worlds sum to the rounded total, whatever the total, if and only if no two positively weighted worlds have one id |
| `CapitalAllocator.FractionalTotal` | src/trading/capital-allocator.ts:60-66 | A concrete call: of a total of 10.5 in units of one, a single world is given 11 |
| `CapitalAllocator.SlicesAreFair` | src/trading/capital-allocator.ts:93-116 | The slice of a world that shares its id with no other is strictly within one unit of its exact share, and of two such worlds the heavier never gets less |
| `CapitalAllocator.AwardedLostAFraction` | src/trading/capital-allocator.ts:105-115 | Only worlds that lost a fraction are awarded a residual unit |
| `CapitalAllocator.UnitsAddUp` | src/trading/capital-allocator.ts:93-116 | All units are handed out |
| `CapitalAllocator.AwardedMeaning` | src/trading/capital-allocator.ts:107-115 | The awarded worlds are distinct, as many as the residual, and precede all others by remainder, weight and index |
| `CapitalAllocator.AllocateCapital` | src/trading/capital-allocator.ts:69-119 | The imperative allocation: guards, floors, the sorted residual loop, which never runs past its list |
| `FeedReconnect.OneLiveSocket` | src/trading/bybit-websocket.ts:237-331 | Over every order of calls, socket events and timers a category has at most one connecting or open socket, and an open one streams exactly the topics subscribed now |
| `FeedReconnect.ReconnectIsSingleFlight` | src/trading/bybit-websocket.ts:596-634 | At most one reconnect timer per category, none while connecting, no timer at all while stopped, attempts never above the maximum |
| `FeedReconnect.NeverStranded` | src/trading/bybit-websocket.ts:237-331 | A registered category always has a handshake under its timeout, an open socket or one whose close is to come, a pending reconnect, or no attempts left |
| `FeedLaws.AttemptsAreRetries` | src/trading/bybit-websocket.ts:270-274 | Over every event sequence the attempts of a category are the reconnect timers of it that fired since its socket last opened or the spot feed was last closed |
| `FeedLaws.OpenIsFresh` | src/trading/bybit-websocket.ts:270-274 | While the registered socket is open no attempt is counted and no reconnect is pending |
| `FeedLaws.DropsReconnect` | src/trading/bybit-websocket.ts:294-325 | Whenever an open registered socket fails or ends, and reconnects are allowed at all, a reconnect is pending afterwards |
| `FeedLaws.RetryConnects` | src/trading/bybit-websocket.ts:596-634 | A reconnect timer that fires counts one attempt and starts a handshake on a new socket under its timeout, or, if none can be constructed, leaves the next reconnect pending while attempts are left |
| `FeedLaws.TimeoutRetries` | src/trading/bybit-websocket.ts:650-672 | A handshake that times out is aborted, and a reconnect is pending exactly while attempts are left |
| `FeedLaws.ConnectStarts` | src/trading/bybit-websocket.ts:237-331 | connect does nothing while a handshake or an open socket is there, and otherwise starts a handshake on a new socket, counting no attempt and leaving the other feed alone |
| `FeedLaws.OpenSocketsStreamWanted` | src/trading/bybit-websocket.ts:354-388 | Over every event sequence an open socket streams exactly the topics of its category that were subscribed and not unsubscribed since |
| `FeedLaws.SubscribeConnects` | src/trading/bybit-websocket.ts:354-368 | Subscribing to a spot topic starts the spot feed as connect does; subscribing to a linear one starts nothing |
| `FeedLaws.LastSpotTopic` | src/trading/bybit-websocket.ts:373-388 | Giving up the last spot topic closes the spot socket and resets its feed |
| `FeedLaws.DisconnectStops` | src/trading/bybit-websocket.ts:336-348 | disconnect leaves no timer and no connecting or open socket, and keeps the subscriptions |
| `FeedReconnect.TimeoutsAreForTheHandshake` | src/trading/bybit-websocket.ts:650-672 | A connect timeout that can still fire is bound to the registered socket, which is connecting |
| `FeedReconnect.ForgottenEventsChangeNothing` | src/trading/bybit-websocket.ts:270-325 | Events of a replaced or forgotten socket change nothing but that socket |
| `FeedReconnect.ConnectRevives` | src/trading/bybit-websocket.ts:237-331 | With attempts left, connect gives a category a way on if and only if it is not connecting without a socket |
| `FeedReconnect.AliveStaysAlive` | src/trading/bybit-websocket.ts:237-331 | Once it has a way on, only a disconnect, or an unsubscribe for the spot feed, takes it away |
| `FeedReconnect.ConnectAfterDisconnect` | src/trading/bybit-websocket.ts:336-348 | After a disconnect, connect opens a socket if and only if no handshake was under way at the disconnect |
| `FeedReconnect.StuckForGood` | src/trading/bybit-websocket.ts:336-348 | A linear feed disconnected during its handshake never connects again, whatever calls and events follow |
| `FeedReconnect.DisconnectMidHandshake` | src/trading/bybit-websocket.ts:336-348 | That state is reached by connecting and disconnecting |
| `FeedReconnect.NextKeepsInv` | src/trading/bybit-websocket.ts:237-388 | Every call and event keeps the invariant of sockets, timers and handles |
| `FeedReconnect.FeedService.Connect` | src/trading/bybit-websocket.ts:237-331 | connect in place, with or without a throwing constructor |
| `FeedReconnect.FeedService.HandleDown` | src/trading/bybit-websocket.ts:294-325 | The close and error handlers in place |
| `LoadOrder.GetLoadOrder` | src/extensibility/plugin-registry.ts:189-211 | Terminates on every graph, lists no name twice, lists exactly the registered plugins and what they depend on, is topological if and only if the graph is acyclic, and for every k starts with exactly what the first k plugins need |
| `LoadOrder.Traversal.Visit` | src/extensibility/plugin-registry.ts:194-204 | The depth-first closure on the shared visited set and order |
| `PluginRegistry.RegisterKeepsAcyclicExactly` | src/extensibility/plugin-registry.ts:42-75 | From any acyclic registry, in any configuration, a register call leaves an acyclic registry if and only if it fails or no dependency of the plugin is the plugin or reaches it once its old entry is gone |
| `PluginRegistry.CallsStayAcyclicExactly` | src/extensibility/plugin-registry.ts:42-89 | A run of register and unregister calls passes through acyclic registries only if and only if every successful registration in it meets that condition |
| `PluginRegistry.RegistrationIsAcyclicExactly` | src/extensibility/plugin-registry.ts:42-75 | Register calls alone reach only acyclic registries if and only if the configuration validates dependencies and either has no hot swap or room for at most two plugins, or has room for none |
| `DependencyGraph.AddingKeepsAcyclicExactly` | src/extensibility/plugin-registry.ts:167-177 | A new name keeps an acyclic graph acyclic if and only if it neither depends on itself nor on something that reaches it |
| `PluginRegistry.RegisteredInOrder` | src/extensibility/plugin-registry.ts:63-65 | In those configurations insertion order is already topological |
| `PluginRegistry.HotSwapCanCloseACycle` | src/extensibility/plugin-registry.ts:49-52 | With hot swap and room for three, three register calls close a dependency cycle |
| `PluginRegistry.UnvalidatedCanCloseACycle` | src/extensibility/plugin-registry.ts:63-65 | Without validation a plugin can depend on itself |
| `PluginRegistry.Registry.Register` | src/extensibility/plugin-registry.ts:42-75 | register in place with its errors; a failed hot swap has already dropped the old entry |
| `PluginRegistry.RegisterMeaning` | src/extensibility/plugin-registry.ts:42-75 | A registration succeeds exactly when there is room, the name is free or swapped, the version fits and every dependency is registered besides the plugin itself; it adds an inactive entry at the end. A refused one names the first reason in that order, with the first missing dependency, and has dropped the entry it was to swap |
| `PluginRegistry.FirstMissingMeaning` | src/extensibility/plugin-registry.ts:167-177 | Validation passes exactly when every dependency is registered, and otherwise names the first that is not |
| `DataEngine.QueriesAreDirectExactly` | src/data/data-engine.ts:95-125 | Every run over a set of symbol and timeframe names answers getBars like a direct range filter of the stored bars if and only if no two different names are spelled alike as symbol:timeframe, or the store keeps no bars |
| `DataEngine.QueriesAreDirect` | src/data/data-engine.ts:95-125 | Whatever calls came before, getBars answers directly when the names queried are unambiguous |
| `DataEngine.ColonFreeQueriesAreDirect` | src/data/data-engine.ts:95-125 | In particular when no queried timeframe, or no queried symbol, has a colon |
| `DataEngine.CacheKeyMeaning` | src/data/data-engine.ts:30-32 | Cache keys are equal if and only if the ranges are and symbol:timeframe is the same string |
| `DataEngine.CollisionBreaksTheCache` | src/data/data-engine.ts:95-103 | For any two different names spelled alike, a query for one is answered with the bars of the other |
| `DataEngine.ColonBreaksTheCache` | src/data/data-engine.ts:95-103 | For example timeframe B:C of symbol A and timeframe C of symbol A:B |
| `DataEngine.CacheIsBounded` | src/data/data-engine.ts:127-145 | The cache never exceeds its size, or one entry if the size is smaller |
| `DataEngine.StoredBarsIncrease` | src/data/data-engine.ts:66-84 | With time-sorted batches every stored series is strictly increasing, whatever else was called |
| `DataEngine.AddingAgain` | src/data/data-engine.ts:66-84 | Adding a batch again changes nothing if and only if no bar of it is later than the last one stored |
| `DataEngine.AddingTwiceChangesNothing` | src/data/data-engine.ts:34-64 | addBars twice with a time-sorted batch is addBars once: same store, same cache, same outcome, a failed validation included |
| `DataLaws.AnswerMeaning` | src/data/data-engine.ts:108-121 | A direct answer holds exactly the stored bars of the series with start <= timestamp <= end, each once, in their order |
| `DataLaws.AddMeaning` | src/data/data-engine.ts:34-93 | For any batch: addBars is refused exactly on an invalid bar under validation, and then nothing stored or cached changes; otherwise the series becomes the newest of its old bars and the surviving ones of the batch, exactly the cached answers of the series are dropped, and every other series is kept |
| `DataLaws.MergeMeaning` | src/data/data-engine.ts:66-84 | The survivors of a batch are the bars later than the last one stored whose next such bar has another timestamp, in their order, after all the old bars |
| `DataLaws.HitMeaning` | src/data/data-engine.ts:99-103 | A cached query returns the cached bars and marks that entry alone as used now |
| `DataLaws.MissMeaning` | src/data/data-engine.ts:105-145 | An uncached one leaves the store alone and caches its answer, in place of the least recently used entry, the earliest of several, when the cache is full |
| `DataLaws.KeysStayUnique` | src/data/data-engine.ts:127-145 | No two cached entries ever have the same key, whatever is called |
| `DataLaws.ClearMeaning` | src/data/data-engine.ts:194-217 | clear forgets exactly one series, one symbol or everything, with exactly the cached answers for it |
| `DataEngine.ChangeKeepsCoherent` | src/data/data-engine.ts:86-93 | Dropping every answer a change may affect keeps the rest of the cache right |
| `DataEngine.DataEngine.AddBars` | src/data/data-engine.ts:34-64 | addBars in place: an invalid bar stops it after the empty entry was made |
| `DataEngine.DataEngine.GetBars` | src/data/data-engine.ts:95-125 | getBars in place, with its cache update |
| `BarAggregation.AggregationComposes` | src/data/request-system.ts:189-208 | Aggregating by r1 and then by r2 equals aggregating once by r1 * r2, ragged tails included |
| `BarAggregation.TimeframesCompose` | src/data/request-system.ts:189-191 | The same for timeframes that divide evenly |
| `BarAggregation.VolumeConserved` | src/data/request-system.ts:204-204 | Total volume is conserved |
| `DataLaws.AggregatedMeaning` | src/data/request-system.ts:189-208 | There is a k-th output bar exactly when there is a source bar at k times the ratio; it has timestamp and open of the first bar of its chunk and close of the last, the highest high, the lowest low and the total volume |
| `DataLaws.RatioMeaning` | src/data/request-system.ts:190-190 | The ratio is the nearest whole number of source bars to a target bar, a half rounding up |
| `BarAggregation.AggregatedValid` | src/data/bar.ts:101-115 | Aggregating valid bars gives valid bars |
| `BarAggregation.AggregateBars` | src/data/request-system.ts:189-208 | The chunking loop computes Aggregated |
| `Scheduler.MutualExclusion` | src/trading/scheduler.ts:87-119 | Over every interleaving of runExclusive calls at most one section is active, sections start in the order of arrival, and a waiting call implies that the lock is held by one that will release it; so overlapping ticks never submit orders at once |
| `Scheduler.StepKeepsFair` | src/trading/scheduler.ts:87-119 | Every step keeps the queue discipline |
| `Scheduler.Mutex.Release` | src/trading/scheduler.ts:101-108 | release in place: the held lock goes to the first waiter, or is freed |

## Left out

- Network, file, WebSocket, Telegram, wallet and HTTP code and the frontend: the exchange, the disk, the clock and the
  sockets appear only as steps or inputs that the surroundings choose.
- Floating-point rounding and the conversion between numbers and decimal strings: prices, quantities and fees are exact.
- The state machine of the bot, order of stop and drain, and saving of executor state: a close verdict clears its
  tombstone, and whether the flattened position was saved is not part of the model.
- The Pine parser, compiler and runtime, technical indicators, metrics and rendering: not part of this model.
- buildBacktestFeeModel: not part of this model; the fee of a round trip is an arbitrary function.
- Markers, warnings, timestamps, bar indices, trade excursions and profit percentages of the backtest engine: display.
- reset of the backtest engine, after which a run starts over, and restoring the state that another engine saved.
- Position commission of the backtest engine: a display total; what fills are charged is summed over the run instead.
- OCA exclusivity, a bound on entries and long-only as invariants: the source does not keep them. Orders of one group
  that one bar reaches all fill (`OrderLaws.ReachedOrdersFill`), and a stop-limit that the bar converts stays.
- StrategyEngine.LedgerIdentity: does not model NaN, because an average over a total of zero is undefined in the source;
  the model's average is then zero, and the theorems ask for positive quantities.
- StrategyEngine.DrawdownCoversEveryFall: does not say that the recorded drawdown is reached by some fall between bars,
  because the source also samples equity inside a bar, at every close; and it says nothing of a run rolled back behind
  the first bar, because restoreState brings back the drawdown of the saved state.
- StrategyEngine.DrawdownCoversExactly: ranges over bars of any price; that a percent rebate with percent slippage misses
  a fall is shown at a negative price, every other case at positive prices.
- CloseProtocol.VerdictsOfAPosition: does not model error texts, exit prices, events and logs, which carry no decision.
- CloseDecisions.IsRetryableError: lower-cases the letters A to Z only.
- Two pair symbols that name one exchange topic in different categories: a topic determines its category here.
- Message handling, telemetry and the backoff delay of the feed: a timer may fire at any later moment.
- Aliasing of the bar arrays that the query cache hands out: a caller that changes a returned array changes the cache.
- The read-only queries of the bar store and registry, plugin activation and deactivation, interpolation of bars and
  timeframe parsing: they would add easy members only.
- Phase 1 of a tick, pausing and statistics of the scheduler.
- The configuration normaliser, the colour, profiler and pool code, and the executor's own position map.
