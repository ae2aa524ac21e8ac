# Verification of the trading engine's stateful core

A Dafny model of seven stateful parts of the trading engine, with proofs of what they
keep over whole runs. Money and quantities are exact reals, the clock is an argument,
and whatever a component reads from outside (prices, venue answers, files, handlers,
the outcome of an awaited call) is a parameter.

Objects that the source updates in place are classes. Each method is proved to follow a
function on an abstract state, and the laws are proved about that function: over every
reachable state, every run and every interleaving of steps. The results of each
component are also stated on its inputs alone: on the events, trades, requests, remote
orders, subscriptions or prices that went in, without the functions that process them.

| file | part of the engine |
|---|---|
| `Portfolio.dfy`, `LedgerLaws.dfy`, `LedgerMarks.dfy`, `LedgerDust.dfy`, `LedgerOrder.dfy`, `LedgerSplit.dfy`, `LedgerCells.dfy` | the position ledger: conservation of money, the dust bound, permutation, splitting and merging of fills |
| `Reconcile.dfy`, `ReconcileTotals.dfy` | replaying fetched trades into the ledger |
| `SlidingWindow.dfy`, `RiskRails.dfy`, `RiskMeaning.dfy`, `RiskLaws.dfy`, `VenueBreaker.dfy` | the risk rails: windows, breakers, symbol locks, pending orders |
| `Exposure.dfy` | risk check and ledger together: exposure stays within its caps |
| `OrderApi.dfy`, `OrderReplies.dfy` | the two order endpoints as interleaved steps around the await on the router |
| `EventBus.dfy`, `EventCounts.dfy` | queue, dispatcher, slots, tasks and the draining stop |
| `OmsReconcile.dfy`, `OmsMeaning.dfy` | the order store and its reconciliation with the venues |
| `Allocator.dfy` | the capital allocator over many cycles |
| `AutoProbe.dfy`, `MaCross.dfy`, `LotGrid.dfy` | round-robin probing, the moving-average crossover, lot and tick flooring |
| `Basics.dfy` | options, symbols, sums, filters and a stable sort |

`dafny verify dfyconfig.toml` checks the project.

Where the code and its own tests or documentation disagree, the model follows the code:
`tests/test_engine_portfolio.py` expects buying to reduce cash by the notional, while
`apply_fill` moves cash only by fees and realised profit; the docstring of
`reconcile_since_snapshot` claims idempotence, which `engine/reconcile.py` alone does not give.

Requirements that turned out false of the code are decided by an if-and-only-if lemma, and
come with an input on which the code does not meet them:

| requirement | decided exactly by | fails on |
|---|---|---|
| the venue window is the full history since its start | `RefinesHistoryIff` | `WidenedWindowForgets` |
| the symbol cap sees what is held | `SymbolSeenIff` | `LowerCaseBreaksCap` |
| a second order on a symbol is kept out | `SubmittedIff`, `RestoresPendingIff` | `BareSymbolPassesLock`, `BareSymbolRun` |
| a key is executed once within its TTL | `SubmittedIff`, `DeduplicatedIff` | `SharedKeyRun`, `FailedBookkeepingRun`, `BareSymbolRun` |
| an anonymous lock keeps everyone out | `UnknownTakesOver` | the same lemma: a strategy named "unknown" |
| a second reconciliation pass is idle | `FixpointIff` | `ClosedStatusReimports` |
| open orders match the venue after a pass | `AllMatchedIff` | `DottedSymbolMisfiles` |
| a pass completes | `CompletesIff` | `NullPriceEndsPass` |
| a stop delivers what was queued | `StopDeliversIff` | `SecondStopLoses` |
| splitting a fill keeps the quantity | `SplitKeepsQuantityIff` | `HalvesAreLost` |
| a revived allocation is in range | `RevivesIff` | `SmallStepRevivesLow` |
| accepted quotes reach min_qty | `MinimumKeptIff` | `OffGridUndershoots` |
| nothing is ever dropped as dust | `GridExactIff` | `FineGridDrops` |
| a price push answers | `RaisesIff` | `ZeroFastRaises` |

## Model

| member | source | states |
|---|---|---|
| Ledger.Portfolio.constructor | engine/core/portfolio.py:62-68 | A new portfolio is the opening book of its starting balances, and its derived totals agree with them |
| Ledger.Portfolio.Fill | engine/core/portfolio.py:90-126 | A fill changes balances, fees, realised profit, one position and the totals exactly as the abstract fill does, deletes dust, and keeps every derived figure coherent |
| Ledger.Portfolio.Mark | engine/core/portfolio.py:83-88 | A price update re-marks one known position and its totals, and does nothing for an unknown symbol |
| Ledger.Portfolio.Sync | engine/core/portfolio.py:77-81 | A wallet sync merges balances and recomputes the totals |
| Ledger.Portfolio.Enter | engine/core/portfolio.py:91-122 | The fill before clean-up and totals: fee, realised profit and one position, opened if missing |
| Ledger.Portfolio.CleanupPositions | engine/core/portfolio.py:128-130 | Exactly the positions that are dust are deleted |
| Ledger.Portfolio.RecalculateTotals | engine/core/portfolio.py:132-139 | The loop totals equal the sums over all positions, in whatever order they are visited |
| Ledger.Totals | engine/core/portfolio.py:133-134 | Exposure and unrealised profit are order-independent sums over the position map |
| Ledger.Settle | engine/core/portfolio.py:92-122 | The branches for opening, adding, reducing, closing and flipping compute the abstract position and its realised profit |
| Ledger.CoherentStep | engine/core/portfolio.py:77-139 | Every event keeps cash, equity, exposure and unrealised profit equal to what the balances and positions imply, and stores no dust |
| Ledger.DustIsAbsolute | engine/core/portfolio.py:129 | The relative tolerance of the closeness test never matters: a quantity is dust iff it is within 1e-9 of zero |
| LedgerLaws.TradeConserves | engine/core/portfolio.py:105-118 | For every previous position and trade: realised profit plus money spent is the change of cost basis, through open, add, reduce, close and flip |
| LedgerLaws.FillConserves | engine/core/portfolio.py:90-130 | One fill moves marked equity by minus the fee plus quantity times (mark - price), minus the value of the dust it drops |
| LedgerLaws.LedgerLaw | engine/core/portfolio.py:77-139 | Ledger law over every run and every mark: equity = start + deposits - fees + sum of signed quantity * (mark - fill price) - value of dropped dust |
| LedgerLaws.BookEquity | engine/core/portfolio.py:132-138 | The reported equity is the marked equity at the last prices |
| LedgerLaws.EquityLaw | engine/core/portfolio.py:90-138 | Reported equity differs from the exact ledger by precisely the dropped dust, and not at all when nothing non-zero is dropped |
| LedgerLaws.OpeningLaw | engine/core/portfolio.py:62-138 | From a new portfolio: equity = starting USDT + deposits - fees + gains of the fills, when no non-zero dust is dropped |
| LedgerMarks.KeyIsTicker | engine/core/portfolio.py:96-99 | A fill is booked under its upper-cased symbol, with its venue joined on when the symbol names none |
| LedgerMarks.MarkedAtLast | engine/core/portfolio.py:83-122 | In every run each held symbol is marked at the price of the last event on it, be it a fill or a price update |
| LedgerMarks.OpeningMarks | engine/core/portfolio.py:83-122 | From a new portfolio the marks of the book are the last prices of its events |
| LedgerMarks.EquityFromEvents | engine/core/portfolio.py:62-138 | The equity of a new portfolio from its events alone: starting USDT + deposits - fees + signed quantity * (last price of the symbol - fill price) of every fill, when no fill nets its symbol to dust |
| LedgerMarks.EquityAtLastPrices | engine/core/portfolio.py:62-138 | The same for any history, less the value at the last prices of the dust it dropped |
| LedgerMarks.HeldIsNet | engine/core/portfolio.py:100-130 | A history that never nets a symbol to dust drops nothing, and holds each symbol in the net quantity of its fills and no other |
| LedgerMarks.FiguresMean | engine/core/portfolio.py:132-139 | Cash is the USDT balance, equity is cash plus unrealised profit, and unrealised profit and exposure are sums of quantity * (last - average) and of |quantity| * |last| |
| LedgerMarks.ExposureFromEvents | engine/core/portfolio.py:132-139 | Exposure from the events alone: the size of each net quantity at its last price |
| LedgerMarks.SyncMeans | engine/core/portfolio.py:77-81 | A synchronisation takes over every balance of the wallet, keeps the others and moves no position |
| LedgerMarks.FillLabels | engine/core/portfolio.py:99-122 | A position takes symbol, venue and market from the fill that opened it, spot where that names none, and keeps them through later fills |
| LedgerMarks.StepLabels | engine/core/portfolio.py:77-130 | No event changes the labels of a position that stays open |
| LedgerMarks.LabelledByKey | engine/core/portfolio.py:99-122 | In every run each position carries its own key as its symbol, and a market |
| LedgerDust.AverageBetween | engine/core/portfolio.py:112-118 | The average of an open position lies between the previous average and the fill price |
| LedgerDust.AveragesStay | engine/core/portfolio.py:112-122 | Over every run, an open position's average stays between the lowest and highest fill prices of its symbol |
| LedgerDust.DriftBound | engine/core/portfolio.py:112-130 | With prices and marks in [0, top], N deletions move equity by at most N * 1e-9 * top |
| LedgerDust.EquityWithinDust | engine/core/portfolio.py:62-138 | Reported equity of a new portfolio is within that bound of the exact ledger |
| LedgerDust.SymbolLaw | engine/core/portfolio.py:102-130 | Per symbol: held quantity = net traded - dropped, and realised profit = trade cash flow + cost basis still held + basis dropped |
| LedgerDust.SymbolFill | engine/core/portfolio.py:100-130 | One fill changes the quantity and basis of its own symbol by exactly the trade, and of no other |
| LedgerOrder.Reordered | engine/core/portfolio.py:102-130 | Any permutation of a history changes marked equity and quantities only by what each order drops as dust |
| LedgerOrder.OrderIrrelevant | engine/core/portfolio.py:83-138 | Two orders of the same fills, finally marked alike, give the same quantities, fees, equity and total profit |
| LedgerOrder.SameHoldings | engine/core/portfolio.py:102-130 | Permuted histories that drop nothing hold the same symbols in the same quantities |
| LedgerOrder.MarkingRun | engine/core/portfolio.py:83-88 | Price updates leave marked equity, cash, fees, realised profit and quantities alone, and end at the last price given |
| LedgerOrder.CashLaw | engine/core/portfolio.py:94-110 | USDT moves only by deposits, fees and realised profit |
| LedgerSplit.SplitTrade | engine/core/portfolio.py:102-118 | A trade in two same-side pieces at one price: same average and same realised profit, even across a close or flip |
| LedgerSplit.SplitFillExactIff | engine/core/portfolio.py:90-130 | A fill and the same fill in two pieces leave books that agree in every figure, provided the middle state is not non-zero dust; with the tags they are equal iff the position ends closed, was not closed in between, or already had the tags of the fill |
| LedgerSplit.SplitKeepsQuantityIff | engine/core/portfolio.py:90-130 | Splitting keeps the quantity iff the first piece drops nothing or everything ends as dust |
| LedgerSplit.HalvesAreLost | engine/core/portfolio.py:128-130 | A buy of 2e-9 is held whole, and lost when it comes in two halves |
| LedgerSplit.OrderMatters | engine/core/portfolio.py:105-118 | Concrete histories in which average price and realised profit do depend on the order |
| LedgerCells.ReplayIsCells | engine/core/portfolio.py:90-130 | The book after any fills is made of independent per-symbol cells, whose realised profits and fees add up |
| LedgerCells.Interleaving | engine/core/portfolio.py:90-130 | Two fill sequences with the same per-symbol subsequences leave the same book |
| LedgerCells.ReplayIsRun | engine/core/portfolio.py:90-126 | Replaying fills is running them as ledger events, so the ledger laws apply |
| Reconcile.ReconcileSince | engine/reconcile.py:75-130 | Collecting, stably sorting by time and applying leaves the replay of the sorted trades; failed fetches and incomplete trades are skipped |
| Reconcile.MergeIndependence | engine/reconcile.py:75-131 | The stable merge leaves exactly the book of replaying each symbol's sorted trades one symbol after the other |
| Reconcile.SymbolOrderIrrelevant | engine/reconcile.py:75-91 | The order in which symbols are fetched does not change the book |
| Reconcile.CollectedIsConcat | engine/reconcile.py:76-90 | What is collected is the concatenation of the fetches, a failed one counting as empty |
| Reconcile.ReconciledBook | engine/reconcile.py:75-131 | The book the method leaves is that of replaying each symbol in turn, and the same for the fetches in any order |
| Reconcile.OwnTradesAreDisjoint | engine/reconcile.py:95-120 | Fetches that return only trades of their own qualified symbol never share a ledger key, also with one base on several venues |
| Reconcile.OwnBasesAreDisjoint | engine/reconcile.py:95-120 | Fetches whose trades carry their own symbol, for distinct bases, never share a ledger key, whatever the venues |
| Reconcile.FillMeans | engine/reconcile.py:95-120 | Which trades become fills, and what each field of the fill is taken from |
| Reconcile.FeeMeans | engine/reconcile.py:103-114 | The fee is the first of the two quote amounts that is not zero, else a commission paid in dollars, else nothing |
| Reconcile.ReplayedInTime | engine/reconcile.py:91 | The trades fetched are replayed in the order of their times, and those of one time in the order they were fetched |
| ReconcileTotals.ReconciledTotals | engine/reconcile.py:75-131 | From the fetched trades alone: the fees of a reconciled new portfolio are theirs, and each symbol is held in the net quantity of its trades, when none of them nets it to dust |
| StableSort.FilterSort | engine/reconcile.py:91 | Sorting by time is stable: it commutes with picking out any symbol's trades |
| StableSort.SortSorts | engine/reconcile.py:91 | The result is ascending and a permutation of the input |
| SlidingWindow.OrderRateLimiter.Allow | engine/risk.py:68-76 | The in-place popping loop keeps and decides what the abstract limiter does |
| SlidingWindow.PruneIsFilter | engine/risk.py:71-72 | On a chronological deque, popping from the front keeps exactly the entries of the window |
| SlidingWindow.LimiterRefinesHistory | engine/risk.py:68-76 | The pruned deque decides exactly as counting all earlier acceptances in [now - 60, now] |
| SlidingWindow.WindowBound | engine/risk.py:59-76 | No closed 60-second interval of any run holds more than max_per_min acceptances |
| RiskRails.RiskRails.constructor | engine/risk.py:87-103 | A new object has no history, no locks and nothing pending, and a negative lock TTL counts as zero |
| RiskRails.RiskRails.Check | engine/risk.py:147-550 | Every branch, in order, gives the abstract decision and the abstract next state |
| RiskRails.RiskRails.Exposures | engine/risk.py:445-473 | One pass over the snapshot computes the symbol, total and venue sums |
| RiskRails.RiskRails.RefreshSnapshot | engine/risk.py:634-693 | Peak, drawdown, latch and deadline after a snapshot, and the breach it reports |
| RiskRails.RiskRails.Record | engine/risk.py:796-807 | The window and the flag after a result; an empty window leaves the flag as it was |
| RiskRails.CountFailures | engine/risk.py:805 | The loop counts the failures of the window |
| RiskRails.RiskRails.Acquire | engine/risk.py:552-584 | Grant, renewal, expiry and refusal of a symbol lock |
| RiskRails.RiskRails.Release | engine/risk.py:586-595 | Removes the lock of the upper-cased base and nothing else |
| RiskRails.RiskRails.Register | engine/risk.py:118-121 | Adds to the pending notional of one symbol |
| RiskRails.RiskRails.Clear | engine/risk.py:123-128 | Subtracts it again, and removes the entry at or below 1e-9 |
| RiskLaws.AcceptanceGuarantees | engine/risk.py:147-550 | When an order is accepted, no switch, breaker, pending order, allowlist, notional limit, equity floor, drawdown limit, rate limit or foreign lock stood against it |
| RiskLaws.AcceptedIff | engine/risk.py:147-550 | An order is accepted iff gate, rules, snapshot, limiter and lock each let it through on the state before the check |
| RiskMeaning.DecisionMeans | engine/risk.py:147-550 | A check accepts or names the first thing, in the order of its branches, that stands against the order; each of the 25 reasons is spelled out on the request, the prices, the snapshot and the limits |
| RiskMeaning.AcceptedMeans | engine/risk.py:147-550 | An order is accepted iff not one of the 25 reasons stands against it |
| RiskMeaning.AcceptedIsPriced | engine/risk.py:395-408 | An order by quantity is accepted only if its qualified symbol has a positive price, or has none and its base has one in USD |
| RiskMeaning.AcceptedMarket | engine/risk.py:374-525 | Accepted on margin or options: the market is enabled, and margin level, liability and leverage with the order are within their limits |
| RiskMeaning.CheckKeeps | engine/risk.py:147-550 | What no check touches; and a disabling flag file sticks iff the check gets as far as looking at it |
| RiskMeaning.CheckBreaker | engine/risk.py:527-530 | Latch, deadline, peak and last equity after a check: its snapshot counts iff gate and rules let the order through |
| RiskMeaning.CheckLocks | engine/risk.py:539-584 | An accepted order takes or renews the lock of its upper-cased base for one TTL; a refused one touches no lock |
| RiskMeaning.RefreshMeans | engine/risk.py:634-693 | A snapshot latches the breaker iff it is below the floor or short of the peak by the limit, and otherwise lets it lapse at its deadline |
| RiskMeaning.TrippedMeans | engine/risk.py:796-807 | After a result the venue breaker is on iff the failures kept reach the limit, in percent of the results kept |
| RiskMeaning.GrantedIff | engine/risk.py:552-584 | A lock is granted unless a holder of another name, or an anonymous one, has not expired |
| RiskMeaning.ReleaseFrees | engine/risk.py:586-595 | A release frees its upper-cased base for everyone and leaves every other key as it was |
| RiskMeaning.RegisterThenClear | engine/risk.py:118-128 | Clearing what was registered restores the pending amount, or removes it when next to nothing is left |
| RiskLaws.LockOut | engine/risk.py:606-693 | After a floor or drawdown breach at t, every check before t + cooldown is refused, whatever snapshots, checks, switches and reloads come between |
| RiskLaws.StaysLatched | engine/risk.py:847-867 | A latched breaker stays latched through every run that ends before its deadline |
| RiskLaws.CheckWhenLatched | engine/risk.py:847-861 | A check while the breaker is latched is refused and changes nothing |
| RiskLaws.DeadlineMonotone | engine/risk.py:661-663 | No operation moves the breaker deadline back |
| RiskLaws.PeakTracksHistory | engine/risk.py:642-645 | The stored peak is the running peak of the equities seen, on every run |
| RiskLaws.PeakIsMaximum | engine/risk.py:644-645 | Once a positive equity was seen, the running peak is the maximum of all that was seen |
| RiskLaws.DrawdownOverRun | engine/risk.py:642-650 | After any run that has seen a positive equity, a snapshot is judged by its shortfall from the maximum seen: zero iff at the maximum, at most 100 iff not negative |
| RiskLaws.LeaseIsExclusive | engine/risk.py:552-584 | Within its lease the holder keeps the lock; each of its own grants renews the lease |
| RiskLaws.LockExclusivity | engine/risk.py:552-595 | From a grant to a named strategy until release or expiry, every check accepted on that symbol is that strategy's |
| RiskLaws.AnonymousBlocks | engine/risk.py:567-583 | An anonymous holder blocks every strategy on the symbol, itself included, except one named "unknown" |
| RiskLaws.UnknownTakesOver | engine/risk.py:570-583 | Against an anonymous holder the lock is granted iff the caller names itself "unknown" |
| RiskLaws.RateOverRun | engine/risk.py:532-538 | No closed minute of any run of the rails holds more than the limit of accepted live orders |
| RiskLaws.RateMeans | engine/risk.py:532-538 | In every run the limiter lets a live check through iff it let fewer than its limit through in the 60 seconds before |
| RiskLaws.LimiterOverRun | engine/risk.py:532-538 | The rails' limiter is the limiter of the checks that reach it, at their own clock readings |
| VenueBreaker.WindowIsHighWater | engine/risk.py:796-809 | On every run, reloads included, the deque is the history since the last negative window, cut at the latest window start, and the flag its error rate at the last record |
| VenueBreaker.RefinesHistoryIff | engine/risk.py:796-809 | The deque is the full history restricted to the window at the last record iff no result of that window was pruned by an earlier record |
| VenueBreaker.WidenedWindowForgets | engine/risk.py:801-807 | A reload that widens the window makes flag and full history disagree: a concrete run |
| Exposure.ExposuresAreNet | engine/risk.py:445-470 | The sums the check computes from the portfolio snapshot are the net values of the symbol, venue and whole book at the marks |
| Exposure.AcceptedWithinCaps | engine/risk.py:464-485 | Acceptance means exposure plus the order is within the symbol, total and venue caps |
| Exposure.FillMovesNet | engine/core/portfolio.py:90-130 | A fill at the mark adds its signed value to the groups of its key and to no other |
| Exposure.SafeRun | engine/risk.py:409-485 | Filling any part of accepted orders at fixed marks keeps every symbol, every venue and the total within its cap in every reachable book, for orders that spell the base in upper case |
| Exposure.FlatIsSafe | engine/core/portfolio.py:62-68 | A flat book is within all non-negative caps |
| Exposure.LowerCaseSeesNothing | engine/risk.py:452-462 | An order whose base is not upper-case is checked as if nothing were held in its symbol |
| Exposure.SymbolSeenIff | engine/risk.py:452-462 | The check sees what the book holds in a symbol iff the order spells the base in upper case or the book is flat in it |
| Exposure.LowerCaseBreaksCap | engine/risk.py:452-470 | From a flat book two lower-case orders of the size of the cap are both accepted and filled: the symbol ends at twice its cap |
| OrderApi.OrderService.Submit | engine/app.py:1940-1975 | The step before the await: cached answer, refusal, or a registered order in flight |
| OrderApi.OrderService.Resume | engine/app.py:1984-2089 | The step after it: the answer is cached iff router and bookkeeping succeeded, and pending is cleared in any case |
| OrderApi.OrderService.Get | engine/idempotency.py:35-50 | A row is returned iff it is younger than the time to live |
| OrderApi.OrderService.Cleanup | engine/idempotency.py:66-74 | Exactly the expired rows are deleted |
| OrderApi.MutualExclusion | engine/app.py:1940-2089 | Under every interleaving of qualified requests there is at most one order in flight per symbol, and the pending map is exactly the orders in flight |
| OrderApi.CheckAndPending | engine/risk.py:227-233 | An accepted check found nothing pending on its symbol, and no check touches the pending map |
| OrderApi.RestoresPendingIff | engine/app.py:1972-2089 | A request that comes and goes alone leaves the pending map empty iff its symbol names a venue |
| OrderApi.PendingDecides | engine/risk.py:227-233 | Where everything else allows an order, it is accepted iff its exact spelling is not pending |
| OrderApi.SubmittedIff | engine/app.py:1940-1975 | An unanswered request that nothing else stops is submitted iff no order in flight has its symbol as spelled |
| OrderApi.BareSymbolPassesLock | engine/app.py:1972-1981 | A bare symbol joins an order in flight on the same symbol, qualified: two orders are in flight on it |
| OrderApi.BareSymbolPassesGate | engine/risk.py:227-233 | The gate refuses the qualified spelling of a pending symbol and lets the bare one pass |
| OrderApi.BareSymbolRun | engine/app.py:1972-2089 | A run in which a bare order clears another order's pending entry: two orders on one symbol and key are in flight and both are executed |
| OrderApi.OneOrderPerBase | engine/risk.py:552-584 | With a positive lock TTL a submitted order excludes every later request on its upper-cased base, however spelled, until release or expiry |
| OrderApi.AtMostOncePerTtl | engine/app.py:1940-2073 | Two executions of one idempotency key are a full TTL apart, under every interleaving |
| OrderApi.DeduplicatedIff | engine/idempotency.py:35-64 | After a flight under its key ends, a request is answered for one TTL if everything succeeded, and otherwise iff it was answered before |
| OrderReplies.CachedIff | engine/app.py:1938-1944 | After a flight under a key succeeds at t, and while no other succeeds under it, a request with the key gets the answer of that flight and changes nothing iff it comes before t + TTL; later it is not answered from the cache |
| OrderReplies.RetryGetsFirst | engine/app.py:1938-1944 | A retry of a request that was submitted and succeeded is answered with the order of the first one |
| OrderReplies.ReplyMeans | engine/app.py:1942-1976 | A request with no live answer is refused with the first reason that stands against it, and otherwise submitted, in flight and pending for its notional |
| OrderReplies.NotionalMeans | engine/app.py:1972-1975 | An order is pending for its quote, else for its units, else for 1 |
| OrderReplies.FinishMeans | engine/app.py:2060-2090 | The end of a flight: when its answer is kept, when an execution is logged, and what is left pending on its qualified symbol and on others |
| OrderReplies.CleanupMeans | engine/idempotency.py:66-76 | A cleanup deletes exactly the rows whose time is over, so no later request can tell |
| OrderApi.SharedKeyPasses | engine/app.py:1940-1975 | A second symbol under the key of an order in flight joins it: neither cache nor pending lock stops it |
| OrderApi.SharedKeyRun | engine/app.py:1940-2073 | A run in which one key for two symbols is executed twice within its TTL |
| OrderApi.FailedBookkeepingRun | engine/app.py:2064-2086 | A run in which bookkeeping raises after the router executed, and the retry is executed again within the TTL |
| EventBus.EventBus.Start | engine/core/event_bus.py:82-93 | A started bus is running and empty, with all slots free |
| EventBus.EventBus.Publish | engine/core/event_bus.py:143-179 | A non-urgent publish is dropped unless the bus runs |
| EventBus.EventBus.Put | engine/core/event_bus.py:176-178 | An event joins the end of the queue and counts as published |
| EventBus.EventBus.Get | engine/core/event_bus.py:203 | The worker takes the front of the queue |
| EventBus.EventBus.CreateTask | engine/core/event_bus.py:206-212 | Dispatch takes a slot and starts a tracked task |
| EventBus.EventBus.BeginDeliver | engine/core/event_bus.py:229-242 | Delivery fixes the handler list of the topic at its start |
| EventBus.EventBus.EndDeliver | engine/core/event_bus.py:221-227 | delivered + failed grows by the handler count, by one per handler, and the slot is given back |
| EventBus.Tally | engine/core/event_bus.py:244-252 | The loop over results counts those that raised and those that did not |
| EventBus.EventBus.AddHandler | engine/core/event_bus.py:123-130 | A handler is appended to its topic |
| EventBus.EventBus.RemoveHandler | engine/core/event_bus.py:132-141 | The first occurrence is removed, an empty topic is deleted, an unknown handler is ignored |
| EventBus.EventBus.WorkerTurn | engine/core/event_bus.py:192-200 | The worker leaves iff the bus was stopped and the queue is empty or gone |
| EventBus.EventBus.Stop | engine/core/event_bus.py:95-99 | A call of stop ends publishing before it sleeps |
| EventBus.EventBus.TakeWorker | engine/core/event_bus.py:101-105 | After the sleep the call takes the worker, or finds that another call took it and does not wait for it |
| EventBus.EventBus.WorkerJoined | engine/core/event_bus.py:105-114 | When the worker has left, the call goes on to the tasks active then |
| EventBus.EventBus.StopReturns | engine/core/event_bus.py:111-117 | When those tasks are done the call discards the queue and returns |
| EventBus.AlwaysConserved | engine/core/event_bus.py:143-227 | In every reachable state: enqueued = dispatched + held + queued in order, each dispatched event is active or finished and not both, free permits + slots = 100 |
| EventBus.EventsAreCounted | engine/core/event_bus.py:189-227 | Hence the counts add up, and dispatch is in queue order, once each |
| EventCounts.HandlersAreCounted | engine/core/event_bus.py:228-266 | In every reachable state delivered + failed is the number of handlers subscribed to each event's topic when its delivery began, summed over the deliveries that ended, urgent ones included; failed is the number that raised |
| EventCounts.HandlersAreSubscribed | engine/core/event_bus.py:123-141 | The handlers of a topic are those the run subscribed to it: appended by each subscription, the first occurrence dropped by each cancellation |
| EventCounts.PublishedMeans | engine/core/event_bus.py:143-181 | Published are the events enqueued and the urgent ones delivered, but for those whose publisher got an error because a handler failed and the topic had lost its last one |
| EventBus.StopDelivers | engine/core/event_bus.py:95-117 | Every event enqueued when stop is called has been delivered when the call that waited for the worker returns, unless another call closed the bus before the worker left |
| EventBus.StopDeliversIff | engine/core/event_bus.py:95-117 | In any case they are all delivered at that return iff the worker left none of them in the queue |
| EventBus.AlwaysGathers | engine/core/event_bus.py:105-114 | In every reachable state a call that waited for the worker waits for every unfinished task |
| EventBus.SingleStopDelivers | engine/core/event_bus.py:95-117 | A stop that no other stop joins delivers everything enqueued at its call, whatever else happens in between |
| EventBus.AloneIsUncut | engine/core/event_bus.py:95-117 | A stop that no other stop joins always waits for the worker and is never cut off |
| EventBus.SecondStopLoses | engine/core/event_bus.py:95-117 | A run in which a second stop closes the bus early, both calls return, and a queued event is never dispatched |
| OmsReconcile.OMSStore.ListOpen | engine/core/oms_store.py:15-20 | Lists every order with an open status, once each |
| OmsReconcile.OMSStore.Upsert | engine/core/oms_store.py:22-24 | Stores a record under its id |
| OmsReconcile.OMSStore.Close | engine/core/oms_store.py:26-29 | Overwrites the status of a known order and nothing else |
| OmsReconcile.OMSStore.CloseMissing | engine/core/reconcile_daemon.py:76-100 | The nested loops fill exactly the venue's open orders that match no remote order, unless a symbol without a dot stops them part of the way |
| OmsReconcile.OMSStore.ImportUnknown | engine/core/reconcile_daemon.py:102-176 | The loop imports the unknown remote orders, skips those whose import raises a caught error, and ends at the first that raises any other |
| OmsReconcile.OMSStore.Reconcile | engine/core/reconcile_daemon.py:54-122 | A pass completes iff no listing fails with an uncaught error, no unknown remote order raises one, and open symbols have a dot if any venue answers; then it is the abstract pass, otherwise it ends where the first of these happens, with what was done before |
| OmsReconcile.NullPriceEndsPass | engine/core/reconcile_daemon.py:125-176 | On an empty store one unknown remote order with a null price ends the pass; without a price it completes |
| OmsReconcile.StoreStaysQualified | engine/core/reconcile_daemon.py:135 | In a store that only passes write to, every open symbol has a dot |
| OmsReconcile.SecondPassCompletes | engine/core/reconcile_daemon.py:54-122 | When a pass completes, so does the next one over the same answers |
| OmsReconcile.WellFormedCompletes | engine/core/reconcile_daemon.py:54-176 | Over well-formed answers a pass completes iff no listing fails with an uncaught error |
| OmsReconcile.Match | engine/core/reconcile_daemon.py:82-96 | A local order matches by venue id, or by base symbol and side |
| OmsReconcile.KnownIds | engine/core/reconcile_daemon.py:103-107 | Collects the venue ids of the snapshot's orders on the venue |
| OmsReconcile.PassKeeps | engine/core/reconcile_daemon.py:76-100 | What a pass does to an order that was there: filled when open, answered for and unmatched; otherwise untouched |
| OmsReconcile.PassAdds | engine/core/reconcile_daemon.py:109-160 | What a pass adds: exactly the unknown importable remote orders, as the described records |
| OmsMeaning.ImportedIff | engine/core/reconcile_daemon.py:103-112 | A pass imports a remote order iff no open order of its venue carries its id and every field of it reads |
| OmsMeaning.ImportedRecord | engine/core/reconcile_daemon.py:130-158 | What the record of an imported order contains, one clause for each field, on the remote order itself |
| OmsMeaning.NothingElse | engine/core/reconcile_daemon.py:109-160 | Every record that a pass leaves was there before or was imported for a remote order |
| OmsMeaning.ImportableIff | engine/core/reconcile_daemon.py:130-158 | Exactly the orders with a symbol, texts that can be upper-cased and numbers are importable |
| OmsMeaning.FirstFailureDecides | engine/core/reconcile_daemon.py:130-158 | An import goes as far as its first field that does not read, in the order the fields are read |
| OmsMeaning.ClosedIff | engine/core/reconcile_daemon.py:70-101 | An order the store had turns FILLED iff it was open, its venue answered and no remote order there has its id or its symbol and side; nothing else about it ever changes |
| OmsMeaning.CompletesIff | engine/core/reconcile_daemon.py:53-125 | A pass completes iff no listing fails with an uncaught error and, where a venue answers, open symbols have a dot and no untracked remote order has an escaping field as its first unreadable one |
| OmsReconcile.TouchedIff | engine/core/reconcile_daemon.py:76-100 | No order is lost; an order is changed iff it was open, its venue answered and nothing there matches, and then only to FILLED |
| OmsReconcile.Agreement | engine/core/reconcile_daemon.py:102-160 | After a pass a remote order has an open local record of its venue iff one was open before or an import with its id lands there as open |
| OmsReconcile.AllMatchedIff | engine/core/reconcile_daemon.py:76-160 | After a pass every open local order of an answering venue matches a remote order there iff no import from elsewhere was misfiled under it |
| OmsReconcile.DottedSymbolMisfiles | engine/core/reconcile_daemon.py:102-135 | A remote order with a dotted symbol is filed under another venue of the pass, where nothing matches it: a concrete pass |
| OmsReconcile.FixpointIff | engine/core/reconcile_daemon.py:54-160 | A second pass over the same answers changes nothing iff every importable remote order was tracked or lands as open, and nothing was misfiled |
| OmsReconcile.WellFormedPass | engine/core/reconcile_daemon.py:54-160 | With dot-free names, parsable amounts and open statuses: full agreement, nothing unmatched, and an idle second pass |
| OmsReconcile.ClosedStatusReimports | engine/core/reconcile_daemon.py:109-156 | A listed order without an open status is imported again by every pass: a concrete run |
| Allocator.WealthManager.constructor | ops/allocator.py:31-45 | Starts from the allocations of the file, if it could be read |
| Allocator.WealthManager.Allocate | ops/allocator.py:56-132 | The three loops compute the abstract cycle; without a solvent strategy nothing is saved |
| Allocator.WealthManager.Triage | ops/allocator.py:67-86 | Bankrupt strategies are zeroed, solvent ones scored in order |
| Allocator.WealthManager.Damp | ops/allocator.py:108-128 | Each target moves its own allocation by one damped step; new strategies start at the target |
| Allocator.TargetDollars | ops/allocator.py:92-106 | The loop builds the softmax targets by strategy id |
| Allocator.TargetsWithinPool | ops/allocator.py:92-106 | The targets sum to at most the pool plus one minimum per strategy |
| Allocator.TargetsRespectScores | ops/allocator.py:92-106 | A higher score never gets a lower target |
| Allocator.ScoreMeans | ops/telemetry_metrics.py:46-80 | A score is zero above 15 % drawdown, and otherwise the drawdown (plus 1e-6) times it is profit times win rate |
| Allocator.TargetMeans | ops/allocator.py:92-106 | A target is the strategy's softmax share of the pool where that is between 100 and 5000 dollars, below it 100 and above it 5000 |
| Allocator.CycleSteps | ops/allocator.py:92-128 | A solvent strategy takes one damped step to its softmax target |
| Allocator.CycleOthers | ops/allocator.py:73-77 | A bankrupt strategy holds nothing; an unlisted one keeps what it had |
| Allocator.CycleMeans | ops/allocator.py:108-128 | A strategy that lost at most a fifth goes to its target if that is within a tenth of the pool, and otherwise a tenth of the pool towards it; a new one starts at its target |
| Allocator.CycleScores | ops/allocator.py:72-90 | A cycle records the score of each solvent strategy and zero for each bankrupt one |
| Allocator.CycleSaves | ops/allocator.py:46-54 | A cycle with a solvent strategy saves exactly what it leaves, one without saves nothing |
| Allocator.MovesAtMost | ops/allocator.py:122-127 | No allocation moves by more than a tenth of the pool in a cycle |
| Allocator.RevivesIff | ops/allocator.py:122-126 | A killed strategy is back in range after one step iff a step is at least the minimum |
| Allocator.SmallStepRevivesLow | ops/allocator.py:122-126 | With a pool of 500 a killed strategy comes back below the minimum |
| Allocator.StepStaysInRange | ops/allocator.py:122-126 | From within the range a damped step stays within it |
| Allocator.AlwaysBanded | ops/allocator.py:105-127 | Over every run, allocations are zero or within [100, 5000], when a step is at least the minimum |
| Allocator.AlwaysInRange | ops/allocator.py:105-127 | For any pool, a strategy that starts in range or new and is never bankrupt stays within [100, 5000] |
| Allocator.OrderKept | ops/allocator.py:92-128 | While two scores keep their order, so do the two allocations |
| Allocator.Convergence | ops/allocator.py:108-128 | With constant scores the gap to the target after n cycles is exactly max(0, gap - n * step) |
| AutoProbe.CircuitBreaker.RecordError | ops/auto_probe.py:98-106 | The popping loop, the trip and the clearing of the deque |
| AutoProbe.TripsIff | ops/auto_probe.py:98-106 | An error trips the breaker iff the errors of the window since the last trip reach the threshold; only then does the deadline move |
| AutoProbe.AutoProber.ProbeRound | ops/auto_probe.py:294-352 | A round skips on breaker, cooldown or rate limit, or records a probe at its start time |
| AutoProbe.SortHead | ops/auto_probe.py:405-409 | The first of the stably sorted symbols is the first one with the least last-probe time |
| AutoProbe.PickRound | ops/auto_probe.py:404-409 | The pick loop takes that many of the sorted symbols |
| AutoProbe.PicksAreLeastRecent | ops/auto_probe.py:402-409 | For any limit, no symbol left out was probed before one that was picked |
| AutoProbe.OnePick | ops/auto_probe.py:404-409 | With the default limit of one, the pick is the head of the sorted symbols |
| AutoProbe.RoundRobin | ops/auto_probe.py:404-409 | Whatever rounds are skipped, the j-th recorded probe goes to symbol j modulo n |
| AutoProbe.ConsecutiveArePermutation | ops/auto_probe.py:404-409 | Any n consecutive recorded probes of n symbols are a permutation of the symbols |
| AutoProbe.ProbesSpaced | ops/auto_probe.py:300-302 | Two probes of one symbol are at least the cooldown apart |
| AutoProbe.NoProbeWhileOpen | ops/auto_probe.py:296-298 | From any point of a run on, no round checked before the breaker's deadline probes |
| AutoProbe.ProbeRate | ops/auto_probe.py:117-132 | No closed minute of any run holds more recorded probes than the limit |
| AutoProbe.ProbedIff | ops/auto_probe.py:280-345 | A round probes the next symbol in turn iff the breaker is over its deadline, that symbol's last probe is a cooldown ago and the last minute holds fewer probes than the limit, all from the history of the run |
| AutoProbe.BreakerOfRun | ops/auto_probe.py:336-340 | The breaker of a run has been told exactly the ends of its failed probes |
| MaCross.MACross.Create | engine/strategy.py:271-276 | Spans are refused iff the fast one is not shorter |
| MaCross.MACross.Push | engine/strategy.py:278-292 | For any spans the constructor lets through: the window after the push, and the signal or the exception |
| MaCross.Shorten | engine/strategy.py:281-283 | The capping loop leaves the last prices |
| MaCross.RaisesIff | engine/strategy.py:278-292 | A push raises iff the slow span is not positive, or the fast one is zero and the window is full |
| MaCross.ZeroFastRaises | engine/strategy.py:286 | With spans 0 and 1 the first push divides by zero |
| MaCross.ValidSpansAnswer | engine/strategy.py:284-292 | With 1 <= fast < slow a push never raises and answers with the signal of the window |
| MaCross.WindowIsLast | engine/strategy.py:279-283 | Each window is exactly the last `slow` prices of its symbol, however symbols interleave |
| MaCross.SilentUntilFull | engine/strategy.py:284-292 | No signal before `slow` prices; then the signal of the last `slow` prices |
| MaCross.OutputMeans | engine/strategy.py:278-292 | From the stream alone: no signal before `slow` prices of the symbol, then the side on which the scaled sum of its last `fast` lies of that of its last `slow` |
| MaCross.RisingBuys | engine/strategy.py:286-290 | A strictly rising full window is a buy |
| MaCross.FallingSells | engine/strategy.py:286-292 | A strictly falling full window is a sell |
| MaCross.SignalAffine | engine/strategy.py:286-292 | A positive scale and any shift keep a window's signal, a negative scale reverses it |
| MaCross.StreamAffine | engine/strategy.py:278-292 | Over any stream of ticks, rescaling and shifting all prices changes no signal |
| LotGrid.LotExact | engine/core/binance.py:1183-1190 | An accepted order is a whole number of steps, at least one, with qty * px <= quote < (qty + step) * px |
| LotGrid.LargestAffordable | engine/core/binance.py:1183-1185 | The floored quantity is the largest multiple of the step that the quote can pay for |
| LotGrid.AcceptsIff | engine/core/binance.py:1186-1190 | A quote is accepted iff it reaches the required amount; the quantity test never decides |
| LotGrid.QuoteMeans | engine/core/binance.py:1173-1190 | A quote must reach the price of the minimum quantity or of one step, whichever is more; the refusal names that amount and the quote |
| LotGrid.MinimumKeptIff | engine/core/binance.py:1177-1190 | Accepted orders reach min_qty for every quote iff min_qty is at most one step or on the grid |
| LotGrid.OffGridUndershoots | engine/core/binance.py:1177-1190 | At exactly the required quote an off-grid minimum is undershot |
| LotGrid.TickExact | engine/core/binance.py:1268-1272 | The price sent is the highest tick at or below a non-negative limit, and zero for a negative one |
| LotGrid.GridRun | engine/core/portfolio.py:128-130 | Histories on grids coarser than 1e-9 never drop a non-zero quantity |
| LotGrid.GridLedgerLaw | engine/core/portfolio.py:90-138 | On such grids the ledger law holds with no condition on dust |
| LotGrid.GridExactIff | engine/core/portfolio.py:128-130 | A grid keeps every history free of drops iff its step exceeds 1e-9 |
| LotGrid.FineGridDrops | engine/core/portfolio.py:128-130 | On a grid no coarser than 1e-9, buying one step from flat books drops it |
| Symbols.SplitJoined | engine/core/reconcile_daemon.py:135 | Joining a dot-free symbol and venue with a dot is undone by splitting |

## Left out

- Floating point: rounding, infinities, NaN and `:.8f` formatting. All arithmetic is over exact reals, so the dust bound speaks of deletion, not of rounding.
- Text: `upper`, `lower` and the dot split are modelled for ASCII letters only, which covers tickers and venue names.
- Input and output: HTTP, WebSocket, Redis, SQLite, files, gauges and logging. The idempotency table is a map from keys to rows, and its read and write failures are not modelled.
- Ledger.Portfolio.Fill: positions are values in a map, so a caller that keeps a reference to a position or to the starting-balance dictionary and changes it is not captured; the unused `rpl`, the `ts` stamp and the update callback are left out.
- LedgerOrder.OrderIrrelevant: for two orders that drop no non-zero dust; `Reordered` gives the exact difference when they do.
- Reconcile.ReconcileSince: the snapshot's start time and the stored fills are not part of this model, so idempotence is not stated; numbers are already parsed, and a payload that fails to parse is not represented; a fee given as a non-empty text for zero is not distinguished from an absent one.
- RiskRails.RiskRails.Check: parameter overrides, the allocation file, the flag file and quarantine are inputs of a check. The per-order override of max_orders_per_min never reaches the limiter in the source, and does not here. Threads that run two methods at once between their locks are not modelled: each operation is one step.
- Exposure.SafeRun: marks and caps are fixed; accepted orders spell the base in upper case, any other spelling of the venue is priced alike, their snapshots are the portfolio's own, checks are not concurrent, and their fills drop no non-zero dust.
- OrderApi.MutualExclusion: for venue-qualified symbols; `SubmittedIff` decides every single request, and `BareSymbolRun` shows the exclusion lost once a bare symbol is used. Cancelled requests, the portfolio fill after the await (see the ledger) and the other users of the risk check, which do not register pending orders, are not steps here.
- OrderApi.AtMostOncePerTtl: symbols are qualified, requests that share a key name one symbol and the bookkeeping after the router does not raise; each of the three is needed, by `BareSymbolRun`, `SharedKeyRun` and `FailedBookkeepingRun`.
- EventBus.StopDelivers: a start after or during a stop, a worker that ends on a RuntimeError, a caller that is cancelled, and an event lost by a timeout that races with the queue are not modelled; urgent events are counted but not tracked to their end; the lookup that fails in the warning of a task changes nothing more, and shows only where an urgent publisher awaits it. Steps are taken in any order, so the losing run does not say how long a sleep of the source leaves the worker idle.
- OmsReconcile.OMSStore.Reconcile: which closes precede an index error depends on the order of the dictionary, and the contract only says that those done are due. The elements of an answer are dictionaries with an order id; other answers count as a failed listing, as does one that has to be awaited. An unknown venue name, which ends a pass quietly, is not modelled. Records are values: the snapshot's copies share only fields a pass never changes.
- OmsReconcile.FixpointIff: speaks of passes that complete, as do `Agreement` and `AllMatchedIff`; venues are listed once and new identifiers never repeat, as for the registry's dictionary and random identifiers.
- Allocator.TargetsWithinPool: the exponential is any positive increasing function; underflow of its float version to zero is not modelled. That the damped allocations themselves sum to at most the pool is not stated, because damping does not preserve it.
- Allocator.CycleSteps: strategy ids are distinct within a cycle; the methods themselves also handle repeated ids.
- AutoProbe.RoundRobin: one pick per round, which is the default, distinct symbols and a clock that increases from round to round. More than one pick per round runs probes concurrently; of those only the picking is modelled. Errors that end the program are left out.
- LotGrid.LotExact: for a positive price (or the fallback of 1 for a missing one) and a positive step. The options branch, which may exceed the quote, is left out.
- `RiskRails.equity_breaker_open` reads a field that is never assigned and is left out, as are the bracket formulas, the signal queue, the governance and alert daemons and the rest of `engine/app.py` and `engine/strategy.py`: wiring, or easy bounds.
