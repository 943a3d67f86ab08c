# A verified model of the exchange's core

The repository is a trading exchange in C: a matching engine with a margin futures market and
older spot matchers, market-data services, and the network and Redis client libraries under them.
This project models the parts in which a mistake would lose money, messages or jobs, and proves
what they promise for all inputs, all schedules and all runs.

`dafny verify dfyconfig.toml` checks everything.

## The parts

Most parts come in two layers. A value layer gives each operation as a function on immutable
state, and carries the theorems. An imperative layer has a class with the source's fields, or
methods with the source's loops, and proves that each in-place operation is exactly the function.

- **Balance ledger** (`Ledger`, `LedgerTotals`). Available and frozen money per user and asset,
  with deletion of zero entries and truncation to the asset's precision. Amounts are scaled so
  that one unit is the smallest amount saved.
- **Futures engine** (`Futures*`). One market: two book sides, the order dictionary, the two
  per-user lists, positions, position modes, balances. Opens, closes, cancels, matching and
  isolated liquidation. The invariant has three layers: backing of closing orders and balanced
  open interest (`FuturesBacking`), agreement of the four indexes (`FuturesIndex`), and the margin
  ledger (`FuturesMargin`). `FuturesRun` and `FuturesOps` carry it through every operation,
  `FuturesTheorems` states the results, `FuturesUndo` says what a cancel undoes, `FuturesHistory`
  and `FuturesReplay` reconcile every order and every position with the deal history,
  `FuturesExact` says exactly when the margin ledger is right and `FuturesSweep` what a market order
  can pay; `FuturesStranded`, `FuturesUnpaid`, `FuturesNegative` and `FuturesOwnClose` are runs on
  which the ledger is wrong. `FuturesFairness`, `FuturesAccounts`, `FuturesLiquidation` and
  `FuturesAcceptance` say in prices, numbers and amounts whom an order trades with, what a deal makes
  of everybody's money, when a position is liquidated and which requests are accepted.
  `FuturesEngine` is the engine that changes everything in place. Two flags record what the source
  does not look at: a null position followed (`fault`), a refused thaw or debit of the margin
  of an open (`denied`).
- **Spot engine** (`Spot*`). Amounts are integers on the grid that market creation guarantees;
  limit and market orders, auto-cancelled market makers, cancel-all. `SpotLedger` and `SpotTheorems`
  are about the money, `SpotBook`, `SpotFairness`, `SpotAcceptance` and `SpotHistory` about the order
  of the book, every round of matching, the requests and the deals.
- **Redis protocol** (`Resp*`, `Sds`, `Quoting`). The resumable reader against a recursive grammar
  of RESP2, its independence of how the stream is cut, the command printers it undoes, a printer of
  whole reply trees (`RespTrees`), and the quoted argument lines that the string library prints and
  splits.
- **Depth subscriptions** (`Depth*`). The two-cursor differ and the protocol around it: every
  subscriber's copy equals the record, and who hears what when (`DepthNotices`).
- **Thread pool** (`Jobs`, `JobRounds`, `JobPool`). Interleaved steps of workers, event loop and
  callers over a lock, a condition variable and a pipe.
- **Asynchronous Redis context** (`Async*`). The callback queue with re-entrant callbacks, deferred
  closing and the drain on free. What a callback does is an arbitrary function of its number.
  `AsyncOnce` is about runs, `AsyncEvents` about what each event does.
- **Candles** (`Kline*`). Buckets by second, minute and hour against a fold over the deals, the
  rolling status and the candle lists, their windows (`KlineTimes`), and what is lost where buckets
  have been cleared.
- **Stream writer** (`Stream`). Buffers, the recycling pool and the write queue of a session, as
  objects with identity; what the kernel does is an arbitrary script.

## Findings

Where the code does not meet what one would expect of it, the model keeps the code and the theorem
carries the exact condition.

- The margin ledger can strand money and leave positions unpaid. An open order carries the leverage
  the caller named, while its margin is computed with the leverage of the user's position mode. The
  two differ exactly when the user has no position, has a mode, has orders resting, and names
  another leverage than the mode's (`FuturesOps.LeverageAgrees`). `FuturesStranded.MarginCanStrand`
  is a run of limit orders that ends with frozen money and no order resting;
  `FuturesUnpaid.PositionGoesUnpaid` is a market order of 50 that is accepted on a margin of 5,
  whose debit of 50 the ledger refuses and the engine does not notice. An accepted open leaves a
  right ledger if and only if it passes the guard `FuturesOps.PaysMargin`
  (`FuturesExact.OpenPaysIff`, and over runs `FuturesExact.MarginLedgerBalancesIff`).
- Agreeing leverages are not enough for a market order that sweeps a closing order of its own user:
  the fee of that order is taken between two margin debits and can starve the second
  (`FuturesOwnClose.OwnCloseStarvesMargin`). The guard therefore walks the makers that a market order
  will meet (`FuturesSweep.Affords`); without an own closing order among them, agreeing
  positive leverages suffice (`FuturesOps.AgreeingMarketPays`).
- A negative leverage is accepted from the request parser on. A market order that names one is
  accepted whatever it costs, because its margin is negative; every debit is then refused
  (`FuturesNegative.NegativeLeverageIsNotPaid`), and what is left of the order thaws money that it
  never froze (`FuturesNegative.NegativeLeverageThawsElsewhere`). The guard asks for a positive
  margin, so such an order fails it exactly when there is anything to trade with
  (`FuturesOps.BadLeverageFails`). Book, positions and open interest stay consistent for every
  leverage.
- A closing fill is not charged a loss beyond its margin, nor a fee that is not there: the ledger
  refuses both silently. `FuturesMargin.CloseIsCreditedIff` says exactly when the payout less the fee
  arrives, and `FuturesOwnClose.LossIsNotCharged` is a fill whose loss does not.
- In the spot market a deal loses money beside its fee, less than one saved unit, if and only if the
  fee is not a whole number of units (`SpotTheorems.DealIsExactIff`), because the receiver's
  proceeds are truncated after the fee is taken; `SpotTheorems.OneDealLoses` is such a deal. A
  market in which no deal can lose anything needs money saved with as many decimals as lots, ticks
  and fee rates have together (`SpotLedger.NoDealLosesIff`), more than market creation asks. Stock
  is conserved exactly.
- The book comparator, which futures and spot orders share, reads the kind of operation, and the spot
  functions never set it. Best price first, then the earlier number, is what it gives if and only if
  the unset field does not read as the wrong kind (`SpotBook.BestComesFirstIff`).
- The rolling market status misses the deals of the current second when a minute begins right then,
  and only then (`KlineQueries.StatusCovers`).
- A candle query whose start is clipped to what is kept aligns the clipped start down to the
  interval, behind what is kept. Its first candle lacks the deals of the cleared buckets
  (`KlineCandles.ClippedQueryLosesADeal`); the answer is right if and only if there are none
  (`KlineCandles.QueryIsExpectedIff`). The query by hours counts from the local midnight and finds
  no bucket at all where that is not a full hour, which is right only when there is no deal to show
  (`KlineCandles.HalfHourZoneAnswersNothing`).
- Cutting a string to a range that ends before the string begins keeps its first byte unless the
  range starts behind it (`Sds.RangeIsSlice`); no caller in the client library does this.
- A depth error reply drops the record together with its sessions, which hear nothing more until a
  good request of their own (`DepthFeed.ErrorSilences`); a refused subscription has already dropped
  the old one. `DepthFeed.FollowsIff` says exactly who follows what.
- Shutting the thread pool down leaves queued jobs and undelivered replies where they are: a job
  gets its callbacks if and only if it had them before the release (`Jobs.ReleaseDecides`,
  `Jobs.ReleaseLosesJobs`).

## Model

| member | source | states |
|---|---|---|
| `FuturesTheorems.OpenInterestBalances` | matchengine/src/me_market.c:1587-1768 | in every reachable state long and short open interest, positions plus frozen parts, are equal, self-trades, cancels and liquidations included; no missing position was ever dereferenced |
| `FuturesTheorems.ClosingOrdersAreBacked` | matchengine/src/me_market.c:2351-2369 | in every reachable state each position is non-negative in both parts and not empty, its frozen part is the sum of what is left of its live closing orders, and a resting close always finds its position |
| `FuturesTheorems.MarginLedgerBalances` | matchengine/src/me_market.c:2241-2297 | over runs whose accepted opens all pass the guard PaysMargin, limit and market alike, each user's frozen money is what other markets froze plus left/leverage of that user's resting limit opens, and the ledger never refused to thaw or debit the margin of an open |
| `FuturesExact.MarginLedgerBalancesIff` | matchengine/src/me_market.c:1770-1829 | over every run the margin ledger is right in every state, nothing refused, if and only if every open that the run accepts passes the guard PaysMargin |
| `FuturesExact.OpenPaysIff` | matchengine/src/me_market.c:2216-2309 | from a right ledger, an accepted open, whatever leverage it names, leaves a right ledger after all its matching if and only if it passes the guard: a limit order that its two leverages agree, a market order that a walk over the makers it will meet, payouts and fees of its own closing orders included, finds the margin of each fill positive and there |
| `FuturesExact.DriftBreaksLedger` | matchengine/src/me_market.c:1770-1781 | whatever a limit order with a wrong margin meets in the book, resting, filling partly or filling, the ledger is wrong afterwards: the difference stays frozen or a debit or thaw was refused |
| `FuturesExact.MatchPaysIff` | matchengine/src/me_market.c:1770-1829 | sweeping the book with a market open, the ledger refuses none of the debits if and only if the walk says so beforehand |
| `FuturesOps.AgreeingMarketPays` | matchengine/src/me_market.c:2234-2262 | an accepted market open whose two leverages agree and that sweeps no closing order of its user passes the guard if and only if its leverage is positive or there is nothing to trade with |
| `FuturesOps.BadLeverageFails` | matchengine/src/me_market.c:1770-1781 | a market open with a negative or zero leverage passes the guard only when there is nothing to trade with |
| `FuturesNegative.NegativeLeverageIsNotPaid` | matchengine/src/me_market.c:2216-2309 | a concrete run in which a market order naming leverage -1 is accepted, its debit of -50 is refused, and its user keeps all money and a position of principal -50 |
| `FuturesNegative.NegativeLeverageThawsElsewhere` | matchengine/src/me_market.c:2512-2527 | the same with two lots left over: giving them back thaws 50 that another market had frozen |
| `FuturesOps.SimpleCoverPays` | matchengine/src/me_market.c:1770-1829 | a market open with a positive leverage passes the guard when its user has the margin of all it will trade and the fees of all own closing orders on that side |
| `FuturesSweep.ExchangeMovesAccount` | matchengine/src/me_market.c:1587-1768 | what the walk predicts of a fill, the position traded on and the payout of the user's own closing maker, is what the engine computes |
| `FuturesUnpaid.PositionGoesUnpaid` | matchengine/src/me_market.c:1770-1781 | a concrete run in which an accepted market open of 50 with disagreeing leverages has its debit refused: the user keeps 9.9 and a position whose principal of 50 nobody paid |
| `FuturesOwnClose.OwnCloseStarvesMargin` | matchengine/src/me_market.c:1770-1814 | a concrete run in which the leverages agree and the sweep still has its second debit refused, because the fee of the user's own closing order was taken in between; the guard rejects it |
| `FuturesMargin.CloseIsCreditedIff` | matchengine/src/me_market.c:1790-1829 | a closing fill gains its party the payout less the fee if and only if the payout is no loss and the fee is there to be taken, or both are the same negative number |
| `FuturesOwnClose.LossIsNotCharged` | matchengine/src/me_market.c:1808-1814 | in the same run the closing maker loses on its position; the loss is not charged and the fee is |
| `FuturesOps.LeverageAgreesMeans` | matchengine/src/me_market.c:2234-2262 | the guard, which a caller can evaluate before the call, says exactly when the two leverages that the code uses coincide |
| `FuturesStranded.MarginCanStrand` | matchengine/src/me_market.c:2234-2297 | a concrete run of two opens with different leverage, a sale and a cancel after which no order rests and one unit of a user's money is still frozen |
| `FuturesTheorems.BookIsConsistent` | matchengine/src/me_market.c:91-120 | in every reachable state the four indexes agree, both book sides are in price-time order without duplicate ids, and the best bid is strictly below the best ask |
| `FuturesTheorems.IndexesAgreeOnOrder` | matchengine/src/me_market.c:313-389 | what agreement means for one order: in the dictionary iff in its owner's two lists iff on exactly the book side chosen by its side and operation, with a unique id |
| `FuturesMatching.MatchIsGreedy` | matchengine/src/me_market.c:1950-2121 | the matching loop performs exactly the trades of a greedy matcher on the crossing makers, fills min(asked, crossing) and leaves the untouched makers and the part of the last one |
| `FuturesMatching.TradesArePrefix` | matchengine/src/me_market.c:1950-2121 | greedy trades are a prefix of the book: every maker but the last is used up, each trade is at its maker's price, the volumes add up |
| `FuturesMatching.TradesWithinLimit` | matchengine/src/me_market.c:1998-2043 | no trade of a limit taker is at a price worse than its limit |
| `FuturesMatching.MatchKeepsUncrossed` | matchengine/src/me_market.c:1950-2121 | an uncrossed book is uncrossed after matching, and what is left of a limit taker does not cross |
| `FuturesMatching.PutKeepsUncrossed` | matchengine/src/me_market.c:313-389 | resting an order that crosses nothing keeps the book uncrossed |
| `FuturesPositions.PayoutIsShare` | matchengine/src/me_market.c:1379-1449 | a closing fill pays the principal it releases plus the partial profit of the closed amount |
| `FuturesPositions.PayoutIgnoresSplit` | matchengine/src/me_market.c:1630-1671 | however a close is split into partial fills at one price, the payouts add up to the payout of closing at once |
| `FuturesPositions.CloseKeepsUnit` | matchengine/src/me_market.c:1630-1671 | a partial close keeps the entry price and the principal per unit |
| `FuturesPositions.OpenIsWeightedMean` | matchengine/src/me_market.c:1613-1629 | the entry price after an opening fill is the amount-weighted mean |
| `FuturesHistory.EntryPriceStaysInRange` | matchengine/src/me_market.c:1587-1768 | in every reachable state the entry price of a position lies between the lowest and the highest price of the deals that opened it since its key was last empty, whatever was closed, cancelled or liquidated in between |
| `FuturesHistory.PositionsReplayHistory` | matchengine/src/me_market.c:1587-1861 | in every reachable state a key holds a position exactly when replaying the deal history on it, by average cost, leaves something, and then with the replayed size, entry price and principal: an opening leg puts in amount/leverage less amount times its rate, the taker rate as taker and the maker rate as maker, and a closing leg takes out its share; pattern and leverage are those of the leg that began it |
| `FuturesReplay.FillReplays` | matchengine/src/me_market.c:1831-1861 | one deal changes the position on any key as its two legs say, the taker first, also when both are on one key |
| `FuturesReplay.OpensAreDeals` | matchengine/src/me_market.c:1831-1861 | each opening price that the replay remembers is that of a deal in the history with an opening leg on that key |
| `FuturesPositions.EquityIsPrincipalPlusGain` | matchengine/src/me_market.c:1408-1449 | both branches of the equity computation are principal plus signed gain |
| `FuturesHistory.HistoryReconciles` | matchengine/src/me_market.c:1531-1563 | in every reachable state what each resting order has traded, its turnover, its fees at the taker or maker rate, its traded margin and the profit it has realised are the sums over the deals of the history that name it, on the terms it has |
| `FuturesHistory.HistoryIsNumbered` | matchengine/src/me_market.c:1831-1861 | in every reachable state deals are numbered one after the other, the latest price is that of the last deal, and no two positions share a number |
| `FuturesAccounts.RoundSettles` | matchengine/src/me_market.c:1770-1829 | in every round that the ledger does not refuse, everybody's available money is what the deal says: margins paid by market opens, the worth of the closed amount by the deal history less the fee paid to closing orders, nothing for anybody else |
| `FuturesFairness.BookIsSorted` | matchengine/src/me_market.c:91-120 | in every reachable state asks ascend and bids descend in price, equal prices stand in the order of their numbers, the best bid is below the best ask, and each order is on the side of its direction; said in prices and numbers |
| `FuturesFairness.MatchIsFair` | matchengine/src/me_market.c:1950-2121 | every round of every matching loop trades with the best order of the other side, the earliest at that price, at its price and for as much as both have left, and the loop stops exactly when the taker is done, the side is empty or its limit does not take the best price |
| `FuturesFairness.RestRests` | matchengine/src/me_market.c:2098-2120 | what is left of a limit order rests on the side of its direction, of a market order nothing does, and no other order moves |
| `FuturesLiquidation.LiquidatesIff` | matchengine/src/me_liquidation.c:64-128 | an isolated position is sold off, its whole amount or until nobody buys, exactly when there is a latest price above zero at which principal plus gain times amount, less 0.0001 and 0.0003 times amount, is not above zero; in every other case nothing changes at all |
| `FuturesLiquidation.LiquidationIsMonotonic` | matchengine/src/me_liquidation.c:64-95 | a long that is liquidated at one price is liquidated at every lower positive one, a short at every higher one |
| `FuturesAcceptance.OpenAcceptedIff` | matchengine/src/me_market.c:2216-2309 | exactly which opens are accepted, in terms of price, whole units, available money, pattern, leverage charged, cross equity at the latest price and the margin to freeze, and with which code the others are refused |
| `FuturesAcceptance.RefusedOpenChangesNothing` | matchengine/src/me_market.c:2216-2309 | a refused open leaves books, positions, balances and deals as they are |
| `FuturesAcceptance.CloseAcceptedIff` | matchengine/src/me_market.c:2311-2388 | exactly which closes are accepted and with which code each of the others is refused |
| `FuturesHistory.StepReconciles` | matchengine/src/me_market.c:1831-1861 | one deal changes the totals of its two orders and of no other, and the positions of its two legs and no other, in step with the history |
| `FuturesUndo.CancelUndoesOpen` | matchengine/src/me_market.c:2512-2539 | cancelling an untouched limit open, whatever its leverage, restores book, indexes, positions and the value of every balance entry |
| `FuturesUndo.CancelUndoesClose` | matchengine/src/me_market.c:2512-2539 | cancelling an untouched limit close restores the position, the book, the indexes and every balance |
| `FuturesRun.MatchKeepsGood` | matchengine/src/me_market.c:1950-2121 | a whole matching loop keeps backing, index agreement and the margin ledger, with the taker counted as in flight |
| `FuturesRun.ExecuteKeepsGood` | matchengine/src/me_market.c:1950-2121 | matching and then resting, dropping or giving back the taker keeps the whole invariant |
| `FuturesRun.CancelKeepsGood` | matchengine/src/me_market.c:2512-2539 | cancelling a resting order keeps the whole invariant |
| `FuturesOps.PutOpenKeepsGood` | matchengine/src/me_market.c:2216-2309 | every accepted or rejected open keeps the whole invariant, the margin ledger too if an accepted one passes the guard PaysMargin |
| `FuturesOps.PutCloseKeepsGood` | matchengine/src/me_market.c:2311-2388 | every accepted or rejected close keeps the whole invariant |
| `FuturesOps.LiquidateKeepsGood` | matchengine/src/me_liquidation.c:64-128 | an isolated liquidation keeps the whole invariant |
| `FuturesOps.BlastFitsPosition` | matchengine/src/me_liquidation.c:100-128 | once the closing orders of a side are cancelled nothing is frozen there, so the liquidation order covers the position exactly |
| `FuturesBacking.FillKeepsPositions` | matchengine/src/me_market.c:1831-1861 | a fill keeps both positions sound, the interest balanced, and takes exactly the filled closing amount out of each frozen part |
| `FuturesBacking.StepKeepsBacked` | matchengine/src/me_market.c:1950-2121 | one matching round keeps every closing order backed |
| `FuturesMargin.StepKeepsFunded` | matchengine/src/me_market.c:1770-1814 | one matching round keeps the margin ledger: every thaw and debit succeeds, and a market taker can still pay for what is left to trade |
| `FuturesIndex.PutIndexed` | matchengine/src/me_market.c:313-389 | resting an order keeps the four indexes in agreement |
| `FuturesIndex.FinishIndexed` | matchengine/src/me_market.c:1863-1947 | dropping an order keeps the four indexes in agreement |
| `FuturesEngine.Engine.OrderPut` | matchengine/src/me_market.c:313-389 | in place: the order enters the dictionary, its owner's lists and its book side, or nothing changes when its id is taken |
| `FuturesEngine.Engine.OrderFinish` | matchengine/src/me_market.c:1863-1947 | in place: the order leaves all four indexes |
| `FuturesEngine.Engine.AdjustOrder` | matchengine/src/me_market.c:1531-1563 | amount left, fee and traded totals of one party of a deal |
| `FuturesEngine.Engine.AdjustPosition` | matchengine/src/me_market.c:1587-1768 | in place: the position of one party is created, grown, shrunk or deleted, with payout and profit; size, price, principal and profit that come of it are those of FuturesHistory.PositionsReplayHistory |
| `FuturesEngine.Engine.AdjustBalance` | matchengine/src/me_market.c:1770-1829 | in place: margin thawed and debited on an open, payout credited and fee taken on a close, refusals ignored |
| `FuturesEngine.Engine.ExecuteDeal` | matchengine/src/me_market.c:1831-1861 | in place: a deal changes price, positions, balances and history as the value machine's fill |
| `FuturesEngine.Engine.ExecuteOrder` | matchengine/src/me_market.c:1950-2121 | in place: the matching loop followed by resting, dropping or giving back the taker |
| `FuturesEngine.Engine.CancelOrder` | matchengine/src/me_market.c:2512-2539 | in place: what the order holds is given back, and it leaves the indexes; a refused thaw leaves it resting |
| `FuturesEngine.Engine.SelectMode` | matchengine/src/me_market.c:2234-2262 | in place: the position mode is created, changed while the user is idle, or kept; the two leverages that follow |
| `FuturesEngine.Engine.CheckMargin` | matchengine/src/me_market.c:2180-2213 | the affordability test, cross positions included; what it amounts to is in FuturesAcceptance.OpenAcceptedIff |
| `FuturesEngine.Engine.PutOrderOpen` | matchengine/src/me_market.c:2216-2309 | in place: an open with each rejection branch |
| `FuturesEngine.Engine.PutOrderClose` | matchengine/src/me_market.c:2311-2388 | in place: a close with each rejection branch |
| `FuturesEngine.Engine.IsolatedLiquidation` | matchengine/src/me_liquidation.c:64-128 | in place: closing orders cancelled newest first, the rest frozen and sold at market; when that happens is FuturesLiquidation.LiquidatesIff |
| `Ledger.AddMeans` | matchengine/src/me_balance.c:262-286 | exactly when an addition succeeds, what it makes of the entry, and that no other entry changes |
| `Ledger.SubMeans` | matchengine/src/me_balance.c:288-307 | exactly when a subtraction succeeds, what it makes of the entry, and that no other entry changes |
| `Ledger.MoveMeans` | matchengine/src/me_balance.c:309-359 | exactly when freezing or thawing succeeds, and what both entries become, truncation included |
| `Ledger.StaysNonNegative` | matchengine/src/me_balance.c:225-359 | no operation makes an entry negative |
| `Ledger.Accounts.Set` | matchengine/src/me_balance.c:225-260 | in place: negative amounts refused, zero deletes the entry, others are rescaled |
| `Ledger.Accounts.AddTo` | matchengine/src/me_balance.c:262-286 | in place: the addition of the ledger function |
| `Ledger.Accounts.SubFrom` | matchengine/src/me_balance.c:288-307 | in place: the subtraction of the ledger function |
| `Ledger.Accounts.FreezeAmount` | matchengine/src/me_balance.c:309-333 | in place: available to frozen, or nothing |
| `Ledger.Accounts.UnfreezeAmount` | matchengine/src/me_balance.c:335-359 | in place: frozen to available, or nothing |
| `LedgerTotals.MoveConserves` | matchengine/src/me_balance.c:309-359 | freezing and thawing whole amounts keeps the total of every asset |
| `SpotTheorems.SpotLedgerBalances` | matchengine/src/me_market.c:231-311 | in every reachable state each user's frozen stock and money is what was frozen before plus what that user's resting asks and bids hold; an ask holds what is left, a bid price times left; no ledger call was refused |
| `SpotTheorems.SpotConserves` | matchengine/src/me_market.c:599-1281 | over every run total stock falls by exactly the bid fees, total money by the ask fees and less than one save unit per deal |
| `SpotTheorems.FittingMarketConserves` | matchengine/src/me_market.c:599-1281 | where money fees are whole numbers of save units, total money falls by exactly the ask fees over every run |
| `SpotTheorems.DealIsExactIff` | matchengine/src/me_market.c:599-738 | in every reachable state a deal takes exactly its fee out of circulation if and only if that fee is a whole number of save units |
| `SpotLedger.NoDealLosesIff` | matchengine/src/me_market.c:490-500 | no price, amount and fee rate of a market can lose money if and only if money is saved with at least as many decimals as lots, ticks and fee rates have together, which market creation does not ask |
| `SpotTheorems.OneDealLoses` | matchengine/src/me_market.c:599-738 | a concrete market that creation accepts and a run of one deal in which the buyer pays one unit, the seller gets nothing and the fee is a tenth |
| `SpotTheorems.CancelAllThawsAll` | matchengine/src/me_market.c:2541-2564 | cancel-all empties the book, gives back everything the market had frozen, and leaves everybody with as much of every asset as before |
| `SpotTheorems.MarketBuyKeepsBudget` | matchengine/src/me_market.c:1161-1206 | a market buy spends exactly what its rest lost, never more than its amount, and stops with asks left only when the rest does not buy one lot at the best ask |
| `SpotBook.BookIsSorted` | matchengine/src/me_market.c:91-120 | in every reachable state asks ascend and bids descend in price, equal prices stand in the order of their numbers, every bid is below every ask, and no number is given twice; said in prices and numbers |
| `SpotBook.BestComesFirstIff` | matchengine/src/me_market.c:91-120 | the comparator puts the best price and then the earlier number first if and only if the kind of operation, which spot orders leave unset, reads as 1 for an ask and not as 2 for a bid |
| `SpotFairness.MatchIsFair` | matchengine/src/me_market.c:599-1281 | every round of every matching loop meets the best order of the other side, the earliest at that price; a market maker sweeps orders that give way to it, whose users get back what they held, and any other order is traded with at its price, for as much as both have left or as a market buy can pay; the deal names both with their rates, fees are rate times lots or money, and each balance entry of everybody moves by exactly that |
| `SpotHistory.OrdersReconcile` | matchengine/src/me_market.c:599-1281 | in every reachable state each resting order has traded the lots, turned over the money and paid the fees of the deals that name it and has the rest of its amount left; deals are numbered one after the other and name two different orders |
| `SpotAcceptance.LimitAcceptedIff` | matchengine/src/me_market.c:881-910 | a limit order is accepted if and only if its user has the lots, or their price at the limit, and the amount is not too small; the two refusals with their codes change nothing |
| `SpotAcceptance.MarketAcceptedIff` | matchengine/src/me_market.c:2390-2450 | a market order is accepted if and only if its user has what it names, somebody is on the other side and it is not too small, as money against the best price; the three refusals with their codes change nothing |
| `SpotAcceptance.LimitOrderTrades` | matchengine/src/me_market.c:881-993 | in whatever reachable state, an accepted limit order gets the next number, trades fairly to the end, and what is left of it rests, holding its lots or their price out of the available balance of its user |
| `SpotAcceptance.MarketOrderTrades` | matchengine/src/me_market.c:2390-2510 | in whatever reachable state, an accepted market order gets the next number, trades fairly to the end, and nothing of it rests |
| `SpotLedger.CreatedMarketIsOk` | matchengine/src/me_market.c:486-500 | the precision checks of market creation make lots, and prices times lots, whole numbers at the save precision of their assets, with the powers of ten that follow from the precisions |
| `SpotLedger.PayMeans` | matchengine/src/me_market.c:599-738 | a payer who has what it gives is never refused; the receiver gains the amount less the fee, rounded down once |
| `SpotLedger.DealSettles` | matchengine/src/me_market.c:599-738 | settling one deal refuses nothing, and each asset loses the fee, and less than a unit more if and only if the fee is not whole |
| `SpotLedger.MatchKeeps` | matchengine/src/me_market.c:599-1281 | the matching loop with auto-cancelled makers keeps the spot invariant |
| `SpotLedger.PutKeeps` | matchengine/src/me_market.c:231-311 | resting an order freezes exactly what it holds and keeps the spot invariant |
| `SpotEngine.Engine.OrderPut` | matchengine/src/me_market.c:231-311 | in place: the order rests on its book side, where SpotBook.BookIsSorted says, and freezes stock or money; the dictionary and the per-user lists are left out |
| `SpotEngine.Engine.OrderFinish` | matchengine/src/me_market.c:391-467 | in place: what a dropped order still holds is thawed; the dictionary and the per-user lists are left out |
| `SpotEngine.Engine.AskDeal` | matchengine/src/me_market.c:599-738 | in place: both parties of a deal in which the taker sells |
| `SpotEngine.Engine.BidDeal` | matchengine/src/me_market.c:740-879 | in place: both parties of a deal in which the taker buys |
| `SpotEngine.Engine.AffordableLots` | matchengine/src/me_market.c:1162-1180 | from any guess that is at least the floor, the correction loop ends at the largest lot count the money buys |
| `SpotEngine.Engine.Execute` | matchengine/src/me_market.c:599-1281 | in place: the loop of the four matchers is the matching of the value machine, which SpotFairness.MatchIsFair spells out |
| `SpotEngine.Engine.PutLimitOrder` | matchengine/src/me_market.c:881-993 | in place: a limit order with its rejection branches |
| `SpotEngine.Engine.PutMarketOrder` | matchengine/src/me_market.c:2390-2510 | in place: a market order with its rejection branches |
| `SpotEngine.Engine.CancelAllOrders` | matchengine/src/me_market.c:2541-2564 | in place: every order is dropped and thawed |
| `RespChunks.ChunkIndependence` | depends/hiredis/read.c:445-525 | for every stream and every way of cutting it into feeds, the replies and the final error are those of feeding it whole |
| `RespChunks.DrainSplits` | depends/hiredis/read.c:477-525 | draining, feeding more and draining again is draining everything at once |
| `RespGrammar.DrainParses` | depends/hiredis/read.c:367-414 | the stack machine delivers exactly the replies and the error of the recursive grammar of the protocol; the bytes of that grammar are fixed by RespTrees.ReaderUndoesPrint |
| `RespGrammar.ReadsItem` | depends/hiredis/read.c:190-213 | reading one object at any depth of the stack agrees with the grammar, and hands over to the next task or the root |
| `RespTrees.ReaderUndoesPrint` | depends/hiredis/read.c:367-414 | for every list of reply trees, status 43, error 45, integer 58 with its sign, bulk string 36, nil 36 45 49, array 42, at most eight arrays deep and with no line end inside a line, the reader delivers exactly the replies whose bytes are printed and has nothing left over |
| `RespTrees.CutIsWaitedFor` | depends/hiredis/read.c:477-525 | cut off at any byte, the last reply is waited for: the ones before it are delivered, neither it nor an error |
| `RespTrees.OtherByteFails` | depends/hiredis/read.c:367-396 | behind any replies, one that begins with any other byte is an error that names the byte |
| `RespTrees.NinthArrayFails` | depends/hiredis/read.c:302-315 | behind any replies, a ninth array inside eight others is an error |
| `RespTrees.StrayNumberIsMinusOne` | depends/hiredis/read.c:148-173 | a number with any byte in it that is no digit, but for a sign in front, reads as -1 |
| `RespTrees.PlusReads` | depends/hiredis/read.c:148-173 | a number with a plus in front reads as without it |
| `RespFormat.ReaderUndoesFormat` | depends/hiredis/hiredis.c:530-566 | whatever commands are printed one after the other, the reader delivers exactly them and nothing is left over |
| `RespFormat.ParseUndoesFormat` | depends/hiredis/hiredis.c:477-519 | parsing a printed command gives one array of bulk strings equal to its arguments and leaves what follows |
| `RespFormat.NumberOfDecimal` | depends/hiredis/read.c:148-173 | reading a printed length or count gives it back |
| `RespFormat.CountDigits` | depends/hiredis/hiredis.c:193-203 | four digits a round, the count is the length of the decimal print |
| `RespFormat.TotalLength` | depends/hiredis/hiredis.c:483-490 | the computed length is the length of the printed command |
| `RespFormat.FormatCommandArgv` | depends/hiredis/hiredis.c:530-566 | the sized buffer is filled exactly: the position meets the computed length, the terminator follows |
| `RespFormat.FormatSdsCommandArgv` | depends/hiredis/hiredis.c:477-519 | the growing string holds the same command |
| `RespReader.Reader.ReadStream` | depends/hiredis/read.c:445-525 | a client that feeds chunks and drains after each one gets the replies and the error of the stream read in one piece |
| `RespReader.Reader.Feed` | depends/hiredis/read.c:445-475 | in place: the bytes are appended, unless the reader has failed |
| `RespReader.Reader.GetReply` | depends/hiredis/read.c:477-525 | in place: one reply, a wait or a sticky error, unaffected by discarding the consumed kilobyte |
| `RespReader.Reader.TakeAll` | depends/hiredis/read.c:477-525 | taking replies until there is none is draining |
| `RespReader.Reader.MoveToNextTask` | depends/hiredis/read.c:190-213 | in place: finished arrays are closed upwards and the next sibling is set up |
| `RespReader.Reader.ProcessLineItem` | depends/hiredis/read.c:215-247 | in place: integers, status lines and errors |
| `RespReader.Reader.ProcessBulkItem` | depends/hiredis/read.c:249-300 | in place: a bulk string, nil, or a wait that consumes nothing |
| `RespReader.Reader.ProcessMultiBulkItem` | depends/hiredis/read.c:302-365 | in place: nil, empty and nested arrays, and the depth limit |
| `RespReader.Reader.ProcessOneItem` | depends/hiredis/read.c:367-414 | in place: the type byte and its handler, or the protocol error; which byte means what is fixed by RespTrees.ReaderUndoesPrint and OtherByteFails |
| `RespReader.Reader.SeekNewline` | depends/hiredis/read.c:120-144 | the first line end, or none |
| `RespReader.Reader.ReadLongLong` | depends/hiredis/read.c:148-173 | sign and digits up to the line end, -1 on anything else |
| `Sds.RangeIsSlice` | depends/hiredis/sds.c:575-603 | the cut keeps exactly the bytes of the requested range if and only if the range does not end before the string begins while starting at or before it; otherwise the first byte survives |
| `Sds.RangeInPlace` | depends/hiredis/sds.c:575-603 | in place: the buffer is cut to the range and terminated |
| `Sds.RangeDrops` | depends/hiredis/read.c:512-516 | used by the reader, the cut drops the consumed bytes and nothing else |
| `Sds.Ull2Str` | depends/hiredis/sds.c:331-357 | every 64-bit number is printed in decimal, terminated, within the promised 21 bytes |
| `Sds.BackwardsIsDecimal` | depends/hiredis/sds.c:331-357 | the digits written last-first and reversed are the decimal print |
| `Sds.ReverseInPlace` | depends/hiredis/sds.c:346-355 | in place: two pointers reverse the digits and touch nothing behind them |
| `Quoting.SplitUndoesRepr` | depends/hiredis/sds.c:740-923 | for every list of byte strings, zero bytes included, and all blank separators, splitting the printed line gives the list back |
| `Quoting.SplitUndoesJoin` | depends/hiredis/sds.c:740-923 | the same for arguments joined by single spaces |
| `Quoting.ReprScans` | depends/hiredis/sds.c:815-923 | a quoted argument before a blank or the end is scanned as exactly one token |
| `Quoting.EscapeScans` | depends/hiredis/sds.c:740-763 | every escaped byte is scanned back to itself whatever follows, hex digits included |
| `QuotingForms.SplitReadsForms` | depends/hiredis/sds.c:815-923 | whatever arguments are written as bare words, in single or in double quotes, with blanks between them, splitting the line gives them back; said in bytes |
| `QuotingForms.ReprIsDouble` | depends/hiredis/sds.c:740-763 | the printed form byte by byte: quote and backslash escaped, five controls as letters, printable bytes as they are, all others as two lower-case hexadecimal digits |
| `QuotingForms.OpenQuoteFails` | depends/hiredis/sds.c:861-880 | behind any arguments, a quote of either kind that is not closed makes the whole line NULL |
| `QuotingForms.ClosedTooEarlyFails` | depends/hiredis/sds.c:856-876 | so does any byte but a blank or the end behind a closing quote |
| `Quoting.CatRepr` | depends/hiredis/sds.c:740-763 | the loop appends the quoted form |
| `Quoting.GetToken` | depends/hiredis/sds.c:824-897 | the token loop with its quote flags agrees with the recursive scanner, errors included |
| `Quoting.SplitArgs` | depends/hiredis/sds.c:815-923 | the outer loop agrees with the recursive splitter, NULL on bad quoting |
| `DepthFeed.ReplicaHoldsLast` | accessws/src/aw_depth.c:226-259 | after any sequence of subscribes, replies, errors and ticks a subscribed session holds exactly the last depth on record |
| `DepthFeed.RecordIsNewest` | accessws/src/aw_depth.c:226-259 | the record is the newest proper reply even when nothing was sent, and an unchanged reply sends nothing |
| `Depth.DiffUpdates` | accessws/src/aw_depth.c:91-192 | applying the diff to the old list and keeping the best limit levels gives the new list; there is no diff exactly when nothing changed |
| `Depth.DiffGives` | accessws/src/aw_depth.c:91-192 | before truncation, the diff leaves the new list followed only by old levels beyond a full new list |
| `Depth.DiffOnlyChanges` | accessws/src/aw_depth.c:91-192 | every entry of a diff is a new or changed level, or removes one that is gone |
| `DepthFeed.ChangeMeans` | accessws/src/aw_depth.c:194-206 | over both sides: no diff iff equal, otherwise the change message takes a client from the old depth to the new one |
| `DepthFeed.RunIsGood` | accessws/src/aw_depth.c:261-312 | each session follows at most one record, knows its limit and is in step with it, over every run |
| `DepthFeed.FollowsIff` | accessws/src/aw_depth.c:261-285 | in every run a session follows a key if and only if it asked for it with a good request and has since neither sent another request, good or refused, nor left, and no error reply came for that key |
| `DepthFeed.SilentUntilAsked` | accessws/src/aw_depth.c:208-224 | a session that follows nothing hears nothing more, whatever happens, until a good request of its own |
| `DepthFeed.ErrorSilences` | accessws/src/aw_depth.c:282-285 | after an error reply every session of the record hears nothing more until a good request of its own, whatever follows |
| `DepthNotices.ReplyMeans` | accessws/src/aw_depth.c:226-259 | a reply that repeats the depth on record changes nothing; any other becomes the record and each follower of its key, and nobody else, hears exactly one notice: the whole depth if it is the first or 60 seconds have passed since the last whole one, and otherwise the change |
| `DepthNotices.CleanWasSent` | accessws/src/aw_depth.c:226-259 | in every run, the time on record is that of a reply whose whole depth went to all that followed the key then |
| `DepthNotices.SubscribeMeans` | accessws/src/aw_server.c:285-307 | a good request is answered with its limit and then the depth on record if there is one; nobody else hears anything, and the session follows that key only |
| `DepthNotices.OthersMean` | accessws/src/aw_depth.c:261-355 | refused requests, departures, error replies, malformed replies and ticks: what each does to which record, and that nobody hears anything of it |
| `Depth.Walk` | accessws/src/aw_depth.c:107-154 | the two-cursor loop emits the diff up to the exhaustion of one list |
| `Depth.GetListDiff` | accessws/src/aw_depth.c:91-192 | the three loops compute the recursive diff; nothing when a list is missing or the diff is empty |
| `DepthServer.Server.OnMarketDepthReply` | accessws/src/aw_depth.c:226-259 | in place: clean broadcast first and every minute, otherwise the diff, nothing when unchanged |
| `DepthServer.Server.OnBackendRecvPkg` | accessws/src/aw_depth.c:261-312 | in place: an error reply drops the record, a malformed one changes nothing |
| `DepthServer.Server.OnTimerTick` | accessws/src/aw_depth.c:319-355 | in place: exactly the records without sessions are dropped, one request for each of the others |
| `DepthServer.Server.BroadcastUpdate` | accessws/src/aw_depth.c:208-224 | in place: each session of the record gets the notice once, in any iteration order |
| `DepthServer.Server.DepthUnsubscribe` | accessws/src/aw_depth.c:462-473 | in place: the session leaves every record |
| `DepthServer.Server.OnMethodDepthSubscribe` | accessws/src/aw_server.c:285-307 | in place: the old subscription goes first even if the new one is refused; then the last depth is sent clean |
| `Jobs.EachJobIsOnce` | network/src/nw_job.c:18-99 | in every interleaving each added job is in exactly one of queue, worker, replies, callbacks or done, so its callbacks run at most once |
| `Jobs.EveryJobGetsDone` | network/src/nw_job.c:18-99 | left to itself before shutdown the pool takes a bounded number of steps in any order and stops only when every added job is finished exactly once |
| `Jobs.NoWakeupIsLost` | network/src/nw_job.c:18-99 | before shutdown a queued job means a worker that is not asleep, and a queued reply means a pipe byte or an event loop yet to pop it |
| `Jobs.StartsInOrder` | network/src/nw_job.c:26-45 | workers take jobs in the order they were added |
| `Jobs.OneWorkerIsFifo` | network/src/nw_job.c:18-99 | with one thread, jobs finish in the order they were added |
| `Jobs.ReleaseDecides` | network/src/nw_job.c:206-229 | whatever happens after release, a job gets its callbacks if and only if it had them before; what is queued stays queued |
| `Jobs.ReleaseLosesJobs` | network/src/nw_job.c:206-229 | a concrete run: one job done by its thread and announced, one still queued; after release neither ever gets its callbacks, whatever follows |
| `Jobs.JoiningEnds` | network/src/nw_job.c:206-229 | after release the pool takes a bounded number of steps of its own, and when it can take none every thread has left |
| `Jobs.ShutdownDrains` | network/src/nw_job.c:25-37 | in any state after shutdown no thread sleeps, one that looks at the queue leaves without taking a job, and each that is left can take a step |
| `JobRounds.TurnDelivers` | network/src/nw_job.c:67-99 | a turn of the event loop that nobody disturbs reads one byte at a time until the pipe is empty, then delivers all replies in order and ends idle |
| `JobRounds.LoopIsDetermined` | network/src/nw_job.c:67-99 | the event loop has one step to take, and none only while it is idle on an empty pipe or joins the threads |
| `JobRounds.CanAlwaysAdd` | network/src/nw_job.c:178-204 | in every state, shutdown included, a job can be added; it goes last, and apart from sleeping workers that wake up, at least one if any sleeps, nothing else changes |
| `JobRounds.PipeIsBounded` | network/src/nw_job.c:48-62 | in every interleaving the pipe holds at most as many bytes as it has room for |
| `Jobs.StepKeepsPlaces` | network/src/nw_job.c:18-99 | no step creates, loses or doubles a job |
| `Jobs.StepKeepsSignals` | network/src/nw_job.c:26-32 | a worker sleeps only while enough others are on their way to the queue |
| `JobPool.Shared.NwJobAdd` | network/src/nw_job.c:178-204 | in place: the add step, before or after shutdown, with the counters in agreement with the lists |
| `JobPool.Shared.TakeRequest` | network/src/nw_job.c:25-45 | in place: wait, leave or take the head |
| `JobPool.Shared.PushReply` | network/src/nw_job.c:48-62 | in place: append the reply, write a byte unless the pipe is full |
| `JobPool.Shared.DrainPipe` | network/src/nw_job.c:69-76 | the read loop is a possible sequence of read steps that empties the pipe |
| `JobPool.Shared.PopReply` | network/src/nw_job.c:78-92 | in place: pop the head or leave the callback |
| `JobPool.Shared.RunCallbacks` | network/src/nw_job.c:94-98 | in place: the popped job is finished and cleaned up, and the loop goes on |
| `JobPool.Shared.NwJobRelease` | network/src/nw_job.c:206-215 | in place: the flag is set once and every sleeper is woken |
| `AsyncOnce.EachCallbackOnce` | depends/hiredis/async.c:411-489 | for every run and every behaviour of the callbacks no assertion fails, callbacks are consumed in issue order at most once, each with its own reply, with NULL only when freed, and then all of them |
| `AsyncOnce.CleanCloseAnswersAll` | depends/hiredis/async.c:331-362 | a disconnect without error or explicit free answers every accepted command with its own reply |
| `AsyncOnce.FreeDrains` | depends/hiredis/async.c:275-317 | freeing consumes everything pending with NULL, in order, and ends |
| `Async.ClosingRejects` | depends/hiredis/async.c:583-592 | while the context is closing a callback cannot queue another, which is why the drain ends |
| `AsyncOnce.ProcessIsSane` | depends/hiredis/async.c:411-489 | the reply loop ends open and drained or freed in order; a disconnecting context with nothing pending is always closed |
| `AsyncEvents.CommandMeans` | depends/hiredis/async.c:583-648 | between events a command is queued last with its bytes to be sent, or is refused and changes nothing, exactly if a disconnect has been asked for |
| `AsyncEvents.DisconnectMeans` | depends/hiredis/async.c:331-362 | a disconnect frees the context at once exactly if nothing is pending, and otherwise only stops it from accepting commands |
| `AsyncEvents.InsideMeans` | depends/hiredis/async.c:319-362 | from within a callback a disconnect or a free is only noted, and a command goes where it would go outside |
| `AsyncEvents.FreeMeans` | depends/hiredis/async.c:275-328 | a free from outside, or an error on the connection, calls all that is pending with NULL in order and nothing else; which of the two it was is remembered |
| `AsyncEvents.CallbackMeans` | depends/hiredis/async.c:265-272 | after a callback the context is to be freed, or disconnected, exactly if that had been asked for before or the callback asked; the commands it issued until then are queued in order and those behind are refused |
| `AsyncEvents.ConsumeMeans` | depends/hiredis/async.c:265-272 | a consumed command leaves the queue and enters the log with its reply or NULL; its function runs if it has one, and nothing else does |
| `AsyncEvents.ReadMeans` | depends/hiredis/async.c:411-489 | a batch of replies is delivered in order, one to each command that waits, until a callback has asked to free the context, a reply comes that nobody waits for, or the bytes behind make no reply; those called after that get NULL; delivered in full, it frees the context exactly if a disconnect was asked for, all is sent and nobody waits |
| `AsyncEvents.WritableMeans` | depends/hiredis/async.c:537-562 | sent bytes leave the output buffer and nothing else happens |
| `AsyncEvents.OpenIsIdle` | depends/hiredis/async.c:411-489 | between two events of any run a context is freed or in the state that the lemmas on events start from |
| `AsyncEngine.AsyncContext.ProcessCallbacks` | depends/hiredis/async.c:411-489 | in place: the reply loop with its three ways out |
| `AsyncEngine.AsyncContext.HandleRead` | depends/hiredis/async.c:516-535 | in place: bytes read and processed, or a failed read that closes the context |
| `AsyncEngine.AsyncContext.FreeContext` | depends/hiredis/async.c:275-317 | in place: the drain loop, callbacks re-entering the context |
| `AsyncEngine.AsyncContext.DisconnectContext` | depends/hiredis/async.c:331-349 | in place: clean or failed disconnect |
| `AsyncEngine.AsyncContext.RequestFree` | depends/hiredis/async.c:323-328 | in place: immediate, or deferred while a callback runs |
| `AsyncEngine.AsyncContext.RequestDisconnect` | depends/hiredis/async.c:357-362 | in place: immediate only when nothing is pending and no callback runs, as AsyncEvents.DisconnectMeans and InsideMeans spell out |
| `AsyncEngine.AsyncContext.AsyncCommand` | depends/hiredis/async.c:583-648 | in place: accepted behind all earlier commands, or refused while closing |
| `AsyncEngine.AsyncContext.Run` | depends/hiredis/async.c:265-272 | in place: the flag is up during the callback and down after it |
| `Kline.MergeRangeIsFold` | marketprice/src/mp_message.c:1026-1049 | over aligned buckets, merging is folding the deals of the window, for deals in time order within what is kept |
| `Kline.FoldMeans` | marketprice/src/mp_kline.c:9-48 | open and close are the first and last price, high and low are attained bounds, low <= open, close <= high |
| `Kline.FoldTotals` | marketprice/src/mp_kline.c:25-37 | volume and turnover are the sums over the deals |
| `Kline.FoldJoins` | marketprice/src/mp_kline.c:39-48 | merging the candles of two stretches is the candle of both |
| `Kline.StoreIsAccurate` | marketprice/src/mp_message.c:427-493 | each update keeps every bucket the fold of its own deals |
| `Kline.ClearIsAccurate` | marketprice/src/mp_message.c:761-786 | clearing old buckets loses nothing from the bound on |
| `Kline.KlineInfo.UpdateWith` | marketprice/src/mp_kline.c:25-37 | in place: one deal; the candle keeps its shape |
| `Kline.KlineInfo.MergeWith` | marketprice/src/mp_kline.c:39-48 | in place: one candle merged in; the result keeps its shape |
| `KlineQueries.WindowMeans` | marketprice/src/mp_message.c:1024-1037 | the second loop starts where the first ends, and the window ends at now exactly when a minute begins at now |
| `KlineQueries.StatusCovers` | marketprice/src/mp_message.c:1018-1062 | the status is the candle of all deals of the period up to and including the current second, all zeros if there are none, if and only if no minute begins right now or the current second has no deal |
| `KlineCandles.CandlesAreExpected` | marketprice/src/mp_message.c:1145-1185 | from the first window that begins where buckets are kept, each candle is the fold of its own window; an empty window repeats the price of the last deal before it and is left out when there is none |
| `KlineCandles.QueryIsExpectedIff` | marketprice/src/mp_message.c:1145-1229 | a whole query by seconds or minutes, with its clipped and aligned start and its look-back, gives each window the candle of its own deals if and only if no deal of the first window lies in a bucket that has been cleared; always so when the first window begins where buckets are kept. The price before a first window is looked for as far back as the code does, down to the bound |
| `KlineCandles.HourQueryIsExpectedIff` | marketprice/src/mp_message.c:1231-1277 | the same for the query by hours, whose windows are counted from the start of the local day |
| `KlineTimes.QueryTimes` | marketprice/src/mp_message.c:1145-1229 | the candles of a query by seconds or minutes stand on whole intervals since the epoch, one after the other without a gap, none ending before the start asked for or the oldest second that is kept, up to the last that begins by the end |
| `KlineTimes.HourQueryTimes` | marketprice/src/mp_message.c:1231-1277 | those of a query by hours stand on whole intervals since the start of the local day, likewise |
| `KlineTimes.DealHasCandle` | marketprice/src/mp_message.c:1145-1229 | every deal whose bucket is kept, from the start asked for or the oldest second kept to the end, lies in the window of one of the candles |
| `KlineCandles.ClippedQueryLosesADeal` | marketprice/src/mp_message.c:1152-1176 | a concrete query for all that is kept whose first candle lacks a deal of its window |
| `KlineCandles.HalfHourZoneAnswersNothing` | marketprice/src/mp_message.c:1242-1262 | where the local day does not start on a full hour the query by hours answers with nothing, which is right if and only if no deal lies in its windows or its look-back |
| `KlineCandles.MergeMisses` | marketprice/src/mp_message.c:1157-1169 | merging a window is the fold of its deals exactly when none lies in a missing bucket, and has strictly less volume otherwise |
| `KlineCandles.LastBucketCloses` | marketprice/src/mp_message.c:1006-1016 | looking back finds the price of the last deal before the start |
| `KlineMarket.MarketInfo.MarketUpdate` | marketprice/src/mp_message.c:427-479 | in place: second, minute and hour buckets stay accurate |
| `KlineMarket.MarketInfo.ClearKline` | marketprice/src/mp_message.c:774-786 | in place: clearing keeps the buckets accurate from the new bounds on |
| `KlineMarket.MarketInfo.GetMarketStatus` | marketprice/src/mp_message.c:1018-1062 | the two accumulation loops |
| `KlineMarket.MarketInfo.GetMarketKline` | marketprice/src/mp_message.c:1145-1229 | in place: the queries by seconds and minutes with their aligned start |
| `KlineMarket.MarketInfo.GetMarketKlineHour` | marketprice/src/mp_message.c:1231-1277 | in place: the query by hours with its start counted from the local day |
| `KlineMarket.MarketInfo.Collect` | marketprice/src/mp_message.c:1156-1185 | the candle loop with its carried close |
| `Stream.NwSes.Send` | network/src/nw_ses.c:414-450 | in place: behind a queue everything is queued; on an empty queue what goes out is what the kernel says it takes before the first answer that blocks or fails, the rest is queued unless that was a failure, which closes the session; without a limit on buffers nothing else closes it |
| `Stream.NwSes.OnCanWrite` | network/src/nw_ses.c:252-288 | in place: buffers go out whole up to the first that the kernel does not take whole, of which goes what it takes; the rest stays queued if the kernel blocked there and the session is closed if it failed; emptied buffers go to the pool, and the wire stays a prefix of what was sent |
| `Stream.FlushMeans` | network/src/nw_ses.c:252-288 | which buffers go out, how many bytes and whether the session survives, as sums over the answers of the kernel to each buffer |
| `Stream.TakenMeans` | network/src/nw_ses.c:53-71 | what the kernel takes of some bytes is the sum of its answers before the first that blocks or fails, interruptions not counting, and only a failure met with bytes still to write is one |
| `Stream.SendBeside` | network/src/nw_ses.c:414-450 | in place: for any two sessions on one pool no buffer is in both queues, and sending on one leaves the queue and the unread bytes of the other as they are |
| `Stream.OnCanWriteBeside` | network/src/nw_ses.c:252-288 | in place: the same for writing out, whose emptied buffers go to the shared pool |
| `Stream.NwSes.WriteStream` | network/src/nw_ses.c:53-71 | the loop over short writes and interruptions sends as much as the answers before the first that blocks or fails add up to, and reports a failure exactly if that one failed with bytes still to write |
| `Stream.NwSes.ListWrite` | network/src/nw_buf.c:128-157 | in place: all data queued, or as much as the limit on buffers lets in; buffers come from the queue, the pool or the allocator only |
| `Stream.NwSes.ListShift` | network/src/nw_buf.c:181-192 | in place: the head leaves the queue and goes to the pool; no buffer is in both |
| `Stream.NwSes.OnError` | network/src/nw_ses.c:531-550 | in place: the session is closed and every buffer of its queue is given back |
| `Stream.NwBufPool.Alloc` | network/src/nw_buf.c:64-84 | in place: the buffer freed last, emptied, or a new one |
| `Stream.NwBufPool.Free` | network/src/nw_buf.c:86-103 | in place: kept behind the others, in an array that doubles, unless 65536 are free already |
| `Stream.NwBuf.Write` | network/src/nw_buf.c:25-32 | in place: as many bytes as fit |
| `Stream.NwBuf.Shift` | network/src/nw_buf.c:34-43 | in place: the unread bytes are kept and the room in front of them is regained |
| `Stream.UnreadSplits` | network/src/nw_buf.c:128-157 | the unread bytes of a longer queue are those of its parts in order |

## Left out

Futures:

- Plan, take-profit and stop-loss orders, and the planner that triggers them: they freeze nothing when placed and follow other rules on removal, so the invariants do not speak of them.
- Cross liquidation and the outer liquidation loop; isolated liquidation is one step of the machine.
- The server command that changes a position mode outside of an open order.
- Conservation of total money: profits are not zero-sum, and a negative payout is silently refused by the ledger (`FuturesMargin.CloseIsCreditedIff`).
- Decimal precision and rounding of the futures arithmetic: it is exact over the reals. The exact ledger is an idealisation of the money asset's precision.
- A user's positions in other markets: their number and profit are parameters of an open.
- Infinite amounts. A margin over leverage zero is infinite in the source: the margin check refuses it, and so does every ledger call, as in the model. Only an order that names leverage zero while its margin is computed with another one gets further; from its first fill on, the frozen amount, traded margin and principal of the model are placeholders for infinities.
- FuturesTheorems.MarginLedgerBalances: holds for runs whose accepted opens pass the guard, because without it the ledger is provably wrong.
- Orders and positions are records found by id, not shared heap objects; the skip lists are sorted sequences. Book sides and lists are fields that the engine reassigns.
- Order, deal and position messages, histories and timestamps. The list of deals is kept.

Spot:

- Cancelling a single spot order, which unfreezes money even for asks; dropping and cancel-all are modelled.
- SpotEngine.Engine.OrderPut: the order dictionary and the per-user lists of the spot market are not modelled; their agreement with the book is proved for futures.
- SpotEngine.Engine.OrderFinish: likewise, and without the order history it writes.
- SpotBook.BookIsSorted: for spot orders whose unset kind of operation reads as that of an opening order, as in the model.
- Argument checks of the server before the engine is called: positive amounts and prices, fee rates from zero to less than one, are assumptions of the theorems (`SpotTheorems.Proper`).
- Stock and money of a market are taken to be different assets.
- The rounding of the affordable lot count is any guess at least the floor.

Redis protocol and strings:

- Overflow of the reader's number parser; numbers are unbounded.
- Reply objects built by user-supplied functions and their freeing: an array's elements are attached when it is complete.
- Printers called without argument lengths, a null target, or format strings.
- Out-of-memory paths throughout, and growing, trimming and joining of strings.
- The locale of the character classes: the C locale is meant.

Depth:

- Level strings that do not parse as decimals: prices and amounts are numbers.
- DepthFeed.ReplicaHoldsLast: assumes that each result has both sides sorted, positive and within the requested limit, as the matching engine sends them.
- The queue of outstanding requests: any reply for any key may arrive at any time.

Thread pool:

- The lock itself: each region under it is one step. Worker initialisation and release callbacks, and the freeing of the record after the threads are joined.
- A release from within a callback of the pool: the pool is released while the event loop is idle.
- The order of threads woken by a signal is the scheduler's choice; at least one is woken.

Asynchronous context:

- Subscribe and monitor mode, the connect and disconnect callbacks, and the event library hooks.
- AsyncOnce.EachCallbackOnce: assumes that the server sends no more replies than there are commands, except for errors.
- The output buffer is a count of commands not yet sent.

Candles:

- The day, week and month buckets of local time, the list of recent deals, flushing to Redis and reloading.
- KlineMarket.MarketInfo.MarketUpdate: without the day bucket, the update marks and the list of recent deals.
- KlineMarket.MarketInfo.GetMarketKlineHour: where the local day begins is a parameter.
- KlineCandles.QueryIsExpectedIff: for deals of positive amount in time order, and what is kept reaching back to the bound of the query.
- Kline.MergeRangeIsFold: for deals that arrive in time order and within what is kept.
- Buckets are values in a map; the accumulators of the queries are objects.

Stream writer:

- Datagram and packet sockets, the read path, and sending of descriptors.
- A write that takes zero bytes, which a stream socket does not do for a non-empty request.
- Buffers are sequences of the bytes written so far rather than raw memory; allocation does not fail.

Not modelled at all: snapshots, operation logs and SQL, configuration, the HTTP and websocket front ends, other pollers, Kafka and Redis input, the generic hash table, and scripts.
