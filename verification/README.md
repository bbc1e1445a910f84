# A verified model of the paper-trading ledger

The repository is a paper-trading service. Orders are placed against wallets and positions in a
ledger, a matcher of one leader process per market fills them from a live order book, and every
fill, trigger and cancellation is one database transaction. This project models that ledger, the
arithmetic under it and the concurrency machinery around it in Dafny, and proves what they promise.

## What is modelled

**Arithmetic.** Money is an integer number of units of 10^-80, the finest grain the exact-money
domain accepts. `ExactMoney` has that domain and the working precision that computes in it;
`Fees` the fee model with its four rounding modes; `Execution` the walk of an order over a book;
`Portfolio` cost basis, realised profit and the average kept in ten places, `PortfolioProfit` how
far rounding takes the profit from the exact one; `Reservation` what an
order or an OCO pair reserves; `Settlement` how a fill is taken out of a balance and its reservation;
`LimitBuy` the whole life of a limit buy, its reservation resized after every batch; `OrderLife`,
`LimitBuyLedger` and `LimitSellLedger` the lives of limit orders inside the ledger; `MarketBuy` a market buy from its reservation to
its execution.

**The ledger.** `LedgerModel` has the tables as a value and each transaction as a function from the
tables before to the tables after, or to the error that rolls it back: placement, OCO placement,
fill, trigger, cancellation, the epoch upsert of an election and the end of a session.
`LedgerInvariants` states the invariant, which implies that the ledger's own consistency query
counts nothing. `LedgerSteps` proves it for each transaction, `LedgerRuns` for every run, with
conservation, fencing, finality of terminal orders and idempotent replay; `LedgerComposition` what
even incoherent placements keep; `LedgerMismatch` exactly which OCO placements are safe;
`LedgerOco` the arbitration of OCO groups; `LedgerRelease` that no reservation outlives its order;
`AverageLedger` the stored average cost over any run.
`LedgerStore` is the ledger as it is written: a class whose methods update tables row by row and
roll back on an error, each proved equal to its specification.

**The matcher.** `Engine` is the in-memory matcher; `Tenure` runs it beside the ledger, with matches,
persistence outcomes, cancellations and notifications interleaved in any order, and shows that the
matcher's passes are runs of these steps. `TenureOco` carries the arbitration of OCO groups over to
tenures, `TenureMirror` says what the engine shows of an order that is over, `TenureLoss` is the run in
which a lost commit oversells an order. `Oco` has the core's resolution of a pair, and the executor
that arbitrates triggers, interleaved at every await of its promise chain. `Leases` has the processes
that compete for a market's advisory lock and its fencing token, and the registry that acquires a
bundle; `Fencing` puts these processes and the ledger together.

**Concurrency.** `LockOrder` is the lock-order guard of one transaction and the system of any number
of guarded transactions waiting for one another; `LockKeys` the keys it orders; `GateLocks` the
reader/writer gates; `UnitOfWork` the retry rule and the client that resubmits.

**Budgets and the backtest.** `RateLimit` and `Reporter` are the message budget and the bounded queue
on top of it, `ReporterOrder` the order in which events leave it. `ExchangeModel`,
`ExchangeInvariants`, `ExchangePrices`, `ExchangeReports`, `ExchangeNegative` and `SimulatedExchange`
are the simulated exchange of a backtest: its specification, what every replay keeps, at which prices
it trades, what it reports, when it goes negative, and the object itself.

## Where the code does less than its comments

These are proved as exact conditions or with a concrete run, not assumed away.

- The placement service does not compare an OCO leg's market with the request's, in which it holds
  the pair's exposure (`apps/paper-api/src/modules/orders/order-placement-service.ts:238-328`). A pair
  is safe exactly when both legs trade that market; every other pair has a run, constructed in
  `LedgerMismatch`, after which the consistency query reports a balance.
- The matcher treats every failed persistence but ORDER_TERMINAL as "nothing was committed"
  (`apps/paper-api/src/engine/paper-engine.ts:418-421`). When only the result of a commit is lost,
  engine and ledger stop agreeing exactly when the fill was partial and not empty; the run in which the
  ledger then records three shares sold under an order for two is constructed.
- The OCO executor, likewise, executes a group once more for every execution whose result was lost.
- A process whose session has ended on the server goes on believing it holds its lease until its
  client notices. Its lease is current exactly while no later acquisition has committed; the run in
  which two processes hold one market is constructed, and fencing is proved over such runs.
- The guard lets a row and a claim of one place through in either order. Transactions deadlock
  exactly when two of them do so in opposite directions.
- The upsert of sale proceeds refuses every negative amount, whatever the wallet holds. Which rates,
  rounding modes and units never charge more than the proceeds is an exact condition in `Fees`.
- A simulated wallet going negative is not ruled out by construction
  (`apps/strategy-runner/src/backtest/simulated-exchange.ts:85-89`): an opened wallet of half a won, a
  buy and a sale on one tick and a tax rounded up to a won reach the check. No replay reaches it
  exactly when no sale is charged more than it earns, which the condition in `Fees` ensures.
- Gates are deadlock-free under sorted acquisition exactly when the comparison that sorts tells any
  two different scopes apart. The code sorts by `localeCompare`, a collation, which need not
  (`apps/paper-api/src/safety/gate-locks.ts:46`).
- The reservation of a market buy pays for every execution exactly when the matcher is given a
  deviation of at most 500 basis points; it is given 10,000, at which a concrete book overspends it.
- Reservations are computed in twenty significant digits: a limit buy's is its exposure exactly when
  that has no more (its quantity and notional having no more).
- Zero-padded sequence keys order as numbers up to ten to the twentieth and no further.

## Assumptions

The fence check of a fill or a trigger and its writes are one atomic step, as if the epoch row were
read under the same lock; the code takes none. Transactions are serialisable steps; a refused one
changes nothing. One leader's tenure starts with engine and ledger in agreement, and no fill of its
market by anyone else commits meanwhile: none can while its token is current. The clock of the rate limiter does not go back. Diagnostics do not throw.

## Model

| member | source | states |
|---|---|---|
| `ExactMoney.WorkingPrecisionSuffices` | packages/trading-core/src/decimal.ts:8-47 | with 2p working digits the sum, difference and product of two values of a p-digit domain are computed exactly |
| `ExactMoney.ConfiguredPrecisionSuffices` | packages/trading-core/src/decimal.ts:8-47 | the configured 161 digits compute every sum, difference and product of two accepted values exactly, so a domain check of the result judges the true result |
| `ExactMoney.FewerDigitsLose` | packages/trading-core/src/decimal.ts:8-21 | 2p digits are needed: with fewer there are two accepted values whose sum is rounded |
| `ExactMoney.RoundingKeepsExactly` | packages/trading-core/src/decimal.ts:8-21 | an engine of p significant digits leaves a value unrounded exactly when it has at most p of them |
| `Fees.RoundDivBounds` | packages/trading-core/src/fee-model.ts:236-239 | each rounding mode moves the value by at most half a unit, or by less than one in its own direction |
| `Fees.RoundDivExactly` | packages/trading-core/src/fee-model.ts:236-239 | each rounding mode gives the one number its rule allows, ties at the half included: up, or to the even number |
| `Fees.RoundDivMonotone` | packages/trading-core/src/fee-model.ts:236-239 | rounding never reverses an order |
| `Fees.CalculateIsFeeOn` | packages/trading-core/src/fee-model.ts:207-241 | when no domain check refuses, the model returns the exact rate on the notional, rounded once |
| `Fees.FeeExactly` | packages/trading-core/src/fee-model.ts:207-241 | an accepted fee is a whole number of rounding units: the commission on the notional, and the tax on a sale's, rounded once in the schedule's mode |
| `Fees.HalfUpFeeBound` | packages/trading-core/src/fee-model.ts:222-241 | a HALF_UP fee is within half a rounding unit of the exact fee |
| `Fees.FeeMonotone` | packages/trading-core/src/fee-model.ts:222-241 | a larger notional never costs a smaller fee |
| `Fees.FeeWithinNotionalExactly` | packages/trading-core/src/fee-model.ts:207-241 | no fee exceeds what it is charged on exactly when, by rounding mode: rate at most 100% (down), rate zero (up), twice the rate of a unit less one grid step below the unit (half up), or not past it (half even) |
| `Execution.CalculateExecution` | packages/trading-core/src/execution.ts:392-580 | the book walk, as the loop it is, computes the recursive specification, every error included |
| `Execution.AdmittedExactly` | packages/trading-core/src/execution.ts:246-391 | exactly which input reaches the walk: a readable order against a two-sided book of readable levels, each strictly better than the next, the sides apart; and only cancellations are left exactly where a side is missing or the sides of a readable book meet |
| `Execution.WithinProtectionIsProtected` | packages/trading-core/src/execution.ts:217-240 | the protection test holds exactly when the price deviates from the reference by at most the permitted share of it |
| `Execution.ExecutionConserves` | packages/trading-core/src/execution.ts:443-580 | filled and unfilled make up what was wanted; the fills sum to the filled quantity, the gross amount and the fees; every fill is inside the limit with the fee of its own notional |
| `Execution.WalkIsGreedy` | packages/trading-core/src/execution.ts:464-520 | a walk takes the greedy amounts of the admissible prefix of the book, one fill a level, and stops on protection exactly when quantity is left there |
| `Execution.ExecutionMaximal` | packages/trading-core/src/execution.ts:464-560 | an execution fills all it wants or the whole admissible prefix, which for a limit order is every level inside the limit; when each terminal reason is given |
| `Execution.TakesExactly` | packages/trading-core/src/execution.ts:464-520 | in the prices of the book: a buy takes asks and a sale bids, from the best on, as long as they are at its limit or better and, for an order that may not rest, stray from the reference by no more than the permitted share; it takes all it wants or all of these |
| `Execution.ExecutionOptimal` | packages/trading-core/src/execution.ts:353-374 | among all ways to take the filled quantity from the admissible levels, the walk is cheapest for a buy and dearest for a sale |
| `Execution.GreedyOptimal` | packages/trading-core/src/execution.ts:464-520 | on a best-first book no allocation of a quantity is better than the greedy one |
| `Execution.SlippageIsSignedDistance` | packages/trading-core/src/execution.ts:535-580 | slippage is the signed distance of the gross amount from the reference value, what the side lost |
| `Portfolio.DivideAndRoundError` | packages/trading-core/src/portfolio-math.ts:129-134 | a 161-digit division rounded again to ten places is off by at most half a unit plus the place the division drops |
| `Portfolio.CarriesWorkingPrecision` | packages/trading-core/src/decimal.ts:8-47 | the quotient of that division is carried to 161 significant digits, at whatever place that ends |
| `Portfolio.FillConserves` | packages/trading-core/src/portfolio-math.ts:174-263 | for one fill cash flow, cost basis and realised profit balance exactly, and the position stays well formed |
| `PortfolioProfit.SaleTakesItsShare` | packages/trading-core/src/portfolio-math.ts:218-263 | a sale of q out of Q shares takes q/Q of the cost, within the two roundings of the division and capped at all of it, a liquidation all of it, and realises its proceeds less that |
| `PortfolioProfit.ProfitDrift` | packages/trading-core/src/portfolio-math.ts:218-263 | over any fills the realised profit is within one step error per partial sale of the sales' proceeds less their exact weighted cost, and the cost kept off by the same amount |
| `Portfolio.FillsConserve` | packages/trading-core/src/portfolio-math.ts:174-263 | over any fills, net cash flow plus cost minus realised profit never changes |
| `Portfolio.LiquidatedPnlIsCash` | packages/trading-core/src/portfolio-math.ts:174-263 | a position opened from nothing and sold off has realised exactly its net cash flow |
| `Portfolio.AverageIsUnitCost` | packages/trading-core/src/portfolio-math.ts:265-270 | a stored average is the cost of one unit within the two roundings, zero of nothing that cost nothing, and refused for nothing that cost something or a negative quantity or cost |
| `Portfolio.AverageDrift` | apps/paper-api/src/runtime/fill-settlement.ts:366-424 | after any run with n buys and any sales, from an average of ten places, the stored average is within n half-units (and the division's carried place) of the exact weighted average; a buy that fills nothing costs nothing |
| `AverageLedger.StepMoves` | apps/paper-api/src/runtime/fill-settlement.ts:366-424 | every transaction moves a position by what it filled of it: a buy is one purchase of the whole batch, a sale takes its quantity, nothing else moves it |
| `AverageLedger.LedgerAverageDrift` | apps/paper-api/src/runtime/fill-settlement.ts:366-424 | over any run of the ledger a position is what the purchases and sales of the run make of it, and its stored average stays within one step error per purchase of the exact weighted average |
| `Settlement.ReleaseUndoesReserve` | packages/trading-core/src/reservation.ts:216-300 | a release is the inverse of a reserve: it succeeds exactly where a reserve led, and leads back |
| `Settlement.SettledInDomain` | apps/paper-api/src/runtime/fill-settlement.ts:56-119 | whatever a settlement writes, what it hands back included, is inside the exact-money domain |
| `Settlement.PlanSettlement` | apps/paper-api/src/runtime/fill-settlement.ts:56-119 | the step-by-step settlement computes its one-expression specification, refusals included |
| `Settlement.SettlementKeeps` | apps/paper-api/src/runtime/fill-settlement.ts:68-118 | a settlement keeps total = available + reserved, takes exactly the consumed amount, and moves the balance's reserve by what it moves the reservation |
| `Settlement.RefusedExactlyOnShortage` | apps/paper-api/src/runtime/fill-settlement.ts:68-118 | from a backed reservation a settlement inside the exact domain is refused exactly when the fill needs more than the reservation and the available balance together |
| `Settlement.ResizedToExposure` | apps/paper-api/src/runtime/fill-settlement.ts:95-106 | after a resizing fill the reservation holds no more than the remaining exposure, and exactly it when it covered both |
| `Settlement.BatchingIsImmaterial` | apps/paper-api/src/runtime/fill-settlement.ts:56-119 | however fills are batched and the reservation resized, a finished run leaves the balance one settlement of the sum would |
| `Reservation.PlannedExactly` | packages/trading-core/src/reservation.ts:302-465 | a plan exists exactly for an order whose prices fit its kind and whose filled quantity fits its status, and reserves what is left of it at its limit, or 5% above its reference, with the estimated fee |
| `Reservation.PairReservesItsDearerLeg` | packages/trading-core/src/reservation.ts:467-531 | a waiting pair reserves once, what its dearer leg alone would, roundings to twenty digits included |
| `Reservation.PairCoversTheRemainder` | packages/trading-core/src/reservation.ts:467-531 | a buying pair's plan covers the group's remainder on every live leg and is the cost of one of them, each computed in twenty digits as the code does |
| `Reservation.PairExecutesOnOneSide` | packages/trading-core/src/reservation.ts:467-531 | where a pair gets a plan at most one leg has filled anything; both legs' fills and what a sale still holds make up the shared quantity, exactly when what is left has at most twenty digits |
| `Reservation.ProtectionCovers` | packages/trading-core/src/reservation.ts:414-451 | a market buy's reservation pays for any fills within 5% of the reference and up to the estimated fee, numbers of at most twenty digits |
| `MarketBuy.CoveredExactly` | apps/paper-api/src/engine/match-orders.ts:25-36 | the reservation of a market buy pays for every execution the matcher admits, from any book at any fee schedule with fees within the estimate, exactly when the deviation given is at most 500 basis points |
| `MarketBuy.MatcherOverspends` | apps/paper-api/src/engine/match-orders.ts:25-36 | at the matcher's own deviation of 10,000 a concrete book fills the order for half again as much as it reserved |
| `LimitBuy.PlannedReservationIsExposure` | packages/trading-core/src/reservation.ts:414-437 | with the model's fee as the estimate a limit buy reserves its exposure at the limit exactly when that has at most twenty digits |
| `LimitBuy.ExecutionGivesLimitFills` | packages/trading-core/src/execution.ts:464-535 | every execution of a limit buy gives fills at the limit or better with the model's fees |
| `LimitBuy.BatchKeepsBound` | apps/paper-api/src/runtime/fill-settlement.ts:68-118 | settling and resizing one batch keeps the potential within half a fee unit per level consumed |
| `LimitBuy.DrawnAtMostHalfUnitPerLevel` | apps/paper-api/src/runtime/fill-settlement.ts:209-236 | over the whole life of a limit buy, any batches and any movement of its wallet in between, at most (K+1)/2 fee units are drawn beyond the reservation, K the levels consumed |
| `LimitBuyLedger.FillIsBatch` | apps/paper-api/src/runtime/fill-settlement.ts:246-303 | a fill transaction of a limit buy that commits settles one batch of that life, and leaves the order and its reservation as the batch does |
| `OrderLife.OthersLeave` | apps/paper-api/src/runtime/fill-persistence.ts:56-140 | every transaction but a fill or a trigger of it leaves a live order and its reservation as they were, or ends the order |
| `LimitBuyLedger.LedgerDrawsAtMostHalfUnitPerLevel` | apps/paper-api/src/runtime/fill-settlement.ts:209-236 | so over any run of the ledger the fills of a limit buy draw at most (K+1)/2 fee units beyond its reservation |
| `OrderLife.FillResizes` | apps/paper-api/src/runtime/fill-settlement.ts:208-239 | a committed fill that does not end a limit order leaves it no more reserved than the rest can still cost: for a sale the shares left, for a buy their notional at the limit and the fee on that, and nothing when nothing is left, whatever status the writer gave it |
| `LimitSellLedger.FillSells` | apps/paper-api/src/runtime/fill-settlement.ts:205-235 | a committed fill of a limit sale leaves available alone and the reservation at what is still to be sold, or ends the order |
| `LimitSellLedger.ReservesWhatIsLeft` | apps/paper-api/src/runtime/fill-settlement.ts:205-235 | over any run of the ledger a live limit sale has reserved exactly the shares it has still to sell, and no fill of it changes what its position has available |
| `LedgerPlacement.PlacementExactly` | apps/paper-api/src/db/unit-of-work.ts:572-807 | a placement under an unused key takes effect exactly when its session is active, what it holds is available in every account it names, and its rows fit |
| `LedgerPlacement.PlacementWrites` | apps/paper-api/src/db/unit-of-work.ts:572-807 | it writes its completed request, its order unfilled, what it holds moved from available to reserved, and the reservation of that, and nothing else |
| `LedgerPlacement.PairExactly` | apps/paper-api/src/db/unit-of-work.ts:390-552 | a pair under an unused key takes effect exactly when its session is active, its hold available and its ids free, and then writes both legs, the group, the hold and its reservation |
| `LedgerInvariants.PlacementKeepsExactlyWhenCoherent` | apps/paper-api/src/db/unit-of-work.ts:624-807 | a committed placement keeps the ledger invariant exactly when everything reserved is recorded, on the account the order takes from |
| `LedgerMismatch.OcoCleanExactly` | apps/paper-api/src/modules/orders/order-placement-service.ts:238-328 | a pair the placement service sends, its amount as planned and rounded, leaves the consistency query empty, from every sound ledger and whatever coherent transactions follow, exactly when both legs trade the market of the request |
| `LedgerMismatch.MismatchRun` | apps/paper-api/src/modules/orders/order-placement-service.ts:238-328 | every other pair has a run that fails it, at a trigger price its amounts fit: accounts opened, an ordinary order on the leg's account, the pair, an election, the leg's trigger |
| `LedgerMismatch.OneShareElsewhere` | apps/paper-api/src/modules/orders/order-placement-service.ts:238-328 | a pair of one share requested in one market with legs in the other is such a pair |
| `LedgerInvariants.SumSplit` | apps/paper-api/src/runtime/ledger-invariants.ts:39-51 | releasing some reservation rows takes exactly their sum out of an account's reserve |
| `LedgerSteps.SettleKeeps` | apps/paper-api/src/runtime/fill-settlement.ts:246-364 | settling a batch keeps the books and changes every total by exactly the batch's flow |
| `AverageLedger.GrowthIsOnePurchase` | apps/paper-api/src/runtime/fill-settlement.ts:366-424 | growing a position by a batch, an empty one included, is one purchase of its holding |
| `LedgerSteps.FillRecords` | apps/paper-api/src/runtime/fill-persistence.ts:67-136 | a committed fill found its order live and its token current, advanced that order and appended its fills, and nothing else |
| `LedgerSteps.FillKeeps` | apps/paper-api/src/runtime/fill-persistence.ts:67-136 | a committed fill keeps the ledger invariant |
| `LedgerSteps.TriggerRecords` | apps/paper-api/src/runtime/trigger-persistence.ts:38-150 | a committed trigger filled a live leg whole under the current token, cancelled its live siblings and resolved the group |
| `LedgerSteps.TriggerKeeps` | apps/paper-api/src/runtime/trigger-persistence.ts:38-150 | a committed trigger keeps the ledger invariant |
| `LedgerSteps.AlwaysReleasable` | apps/paper-api/src/runtime/order-cancellation.ts:119-160 | under the invariant every release of a cancellation is possible |
| `LedgerSteps.CancelKeeps` | apps/paper-api/src/runtime/order-cancellation.ts:57-203 | a committed cancellation keeps the ledger invariant |
| `LedgerSteps.StepKeeps` | apps/paper-api/src/runtime/ledger-invariants.ts:20-72 | every transaction, committed or refused, keeps the invariant, a placement given that it reserves where its order, or both its legs, take from |
| `LedgerRuns.RunKeepsLedger` | apps/paper-api/src/runtime/ledger-invariants.ts:20-72 | after any run of coherent placements, fills, triggers, cancellations, elections and ending sessions the consistency query reports nothing |
| `LedgerComposition.RunKeepsComposition` | apps/paper-api/src/runtime/ledger-invariants.ts:20-38 | after any run at all, incoherent placements included, every balance is composed of its parts and every order is sound |
| `LedgerRuns.TerminalIsFinal` | apps/paper-api/src/runtime/fill-persistence.ts:75-78 | a terminal order never changes again and no fill row of it is ever written |
| `LedgerRuns.RunKeepsFillRows` | apps/paper-api/src/db/migrations/001_ledger.sql:124-140 | over any run every fill row the ledger adds has a positive price and quantity and no negative fee |
| `LedgerRuns.RunKeepsTokens` | apps/paper-api/src/runtime/fill-persistence.ts:79-91 | over any run the tokens of committed fills never decrease, market by market |
| `LedgerRuns.EndedSessionIsReadOnly` | apps/paper-api/src/db/repositories/session-repository.ts:112-125 | once a session has been ended, whatever runs meanwhile, it places nothing, no pair either, and cancels nothing |
| `LedgerRuns.ReplayIsIdempotent` | apps/paper-api/src/db/unit-of-work.ts:633-657 | once a placement committed, whatever runs meanwhile, its key replays the recorded response without effect, is refused for another request, or is refused because its session has ended |
| `LedgerRuns.OcoReplayIsIdempotent` | apps/paper-api/src/db/unit-of-work.ts:416-440 | the same for an OCO placement |
| `LedgerRuns.RunConserves` | apps/paper-api/src/runtime/fill-settlement.ts:246-364 | over any run from any tables every wallet and position total moves by exactly the flow of the fill rows written |
| `LedgerRuns.StepMatchesExactlyWhenAgreed` | apps/paper-api/src/runtime/fill-persistence.ts:92-98 | a committed step keeps filled quantities equal to the sums of their fill rows exactly when its writer's quantity agreed with the row |
| `LedgerRuns.RunMatches` | apps/paper-api/src/runtime/fill-persistence.ts:92-136 | over a run of agreeing writers every order's filled quantity is the sum of its fill rows |
| `LedgerRuns.CancelRefusedExactly` | apps/paper-api/src/runtime/order-cancellation.ts:75-104 | under the invariant a cancellation is refused exactly for an inactive session or an order that is not its own |
| `LedgerRelease.CancellationGivesBack` | apps/paper-api/src/runtime/order-cancellation.ts:105-160 | cancelling a live order of no group moves exactly what its reservation held back to available, marks that row released and the order CANCELLED, and changes nothing else |
| `LedgerRelease.RunStrandsNothing` | apps/paper-api/src/runtime/order-cancellation.ts:105-160 | over any run no reservation outlives its order: what ends it, a last fill, a trigger or a cancellation, has released it |
| `LedgerRuns.ProceedsRefusedExactly` | apps/paper-api/src/runtime/fill-settlement.ts:341-363 | sale proceeds are refused exactly when they are negative, whatever the wallet holds, and never when fees stay within notionals |
| `LedgerOco.StepKeepsGroups` | apps/paper-api/src/runtime/trigger-persistence.ts:67-150 | every transaction keeps each group sound: ACTIVE with all legs waiting, or resolved with every leg filled or cancelled and the hold released |
| `LedgerOco.RunKeepsOneWinner` | apps/paper-api/src/db/migrations/001_ledger.sql:118-122 | over any run at all, and whatever the rows of a group were, no group gets a second winner |
| `LedgerOco.ReleasedAtMostOnce` | apps/paper-api/src/runtime/order-cancellation.ts:124-160 | over any run a reservation row is released at most once and never revived |
| `LedgerOco.OcoArbitration` | apps/paper-api/src/runtime/trigger-persistence.ts:67-150 | over any run from a live group: at most one leg FILLED, every other CANCELLED once resolved, the shared reservation released by exactly one transaction; waiting and untouched before |
| `TenureOco.TenureIsGroupRun` | apps/paper-api/src/modules/orders/order-placement-service.ts:326-345 | the transactions of a tenure never fill a leg, because legs are handed to the engine waiting and the engine never matches a waiting order |
| `TenureOco.TenureArbitration` | apps/paper-api/src/runtime/trigger-persistence.ts:67-150 | so over a whole tenure, lost results included, a live group ends with every leg waiting, or with at most one leg FILLED, the others CANCELLED and its reservation released once |
| `LedgerStore.SumOfFills` | apps/paper-api/src/runtime/fill-settlement.ts:263-282 | the checked reduction over fills, refused exactly when some running total is |
| `LedgerStore.Store.constructor` | apps/paper-api/src/runtime/ledger-invariants.ts:20-72 | an opened ledger with only cash is sound |
| `LedgerStore.Store.CommitTradingMutation` | apps/paper-api/src/db/unit-of-work.ts:572-807 | the placement transaction, written row by row with rollback, has exactly the specified effect and reply; the composition is kept by any placement, the invariant by a coherent one |
| `LedgerStore.Store.CommitOcoPlacement` | apps/paper-api/src/db/unit-of-work.ts:390-552 | the OCO placement transaction, likewise, whatever markets its legs name |
| `LedgerStore.Store.LockReservation` | apps/paper-api/src/runtime/fill-settlement.ts:180-195 | finds the live reservation of an order or of its group |
| `LedgerStore.Store.SettleAccount` | apps/paper-api/src/runtime/fill-settlement.ts:283-303 | settles the paying balance and its reservation row in place |
| `LedgerStore.Store.GrowPosition` | apps/paper-api/src/runtime/fill-settlement.ts:366-424 | accumulates quantity and cost fill by fill and rebuilds the average |
| `LedgerStore.Store.CreditAccount` | apps/paper-api/src/runtime/fill-settlement.ts:341-363 | the upsert of proceeds: a negative amount is refused before the wallet is looked at |
| `LedgerStore.Store.SettleFill` | apps/paper-api/src/runtime/fill-settlement.ts:246-364 | settles a batch in place as specified |
| `LedgerStore.Store.PersistFill` | apps/paper-api/src/runtime/fill-persistence.ts:67-199 | the fill transaction has exactly the specified effect, or rolls back, and keeps the invariant |
| `LedgerStore.Store.PersistTrigger` | apps/paper-api/src/runtime/trigger-persistence.ts:38-239 | the trigger transaction, likewise |
| `LedgerStore.Store.CancelLegs` | apps/paper-api/src/runtime/order-cancellation.ts:105-118 | cancels every live leg, one row at a time |
| `LedgerStore.Store.GiveBackAll` | apps/paper-api/src/runtime/order-cancellation.ts:124-160 | releases the candidate reservations one by one, refused exactly when some account reserves less than it has to give back |
| `LedgerStore.Store.CancelOrder` | apps/paper-api/src/runtime/order-cancellation.ts:57-203 | the cancellation transaction has exactly the specified effect or rolls back; under the invariant never for an impossible release |
| `LedgerStore.Store.AcquireEpoch` | apps/paper-api/src/market-data/leader-lease.ts:186-199 | the epoch upsert raises the market's token by one |
| `LedgerStore.Store.ExpireSession` | apps/paper-api/src/db/repositories/session-repository.ts:112-125 | ends an active session, and nothing else |
| `Engine.MatchIsSound` | apps/paper-api/src/engine/match-orders.ts:24-55 | a match never overfills or takes quantity back, is FILLED exactly when nothing is left, and never lets a market order rest |
| `EngineOrders.StatusExactly` | apps/paper-api/src/engine/match-orders.ts:43-49 | the status a match leaves for every kind of order: FILLED, CANCELLED where what is left may not rest, otherwise OPEN or PARTIALLY_FILLED by what it crossed |
| `EngineOrders.BookChangesExactly` | apps/paper-api/src/engine/paper-engine.ts:349-400 | a book whose fills commit changes an order exactly when it is of the book's symbol, open or partly filled, and the match fills something or changes its status |
| `EngineOrders.TradeTriggersExactly` | apps/paper-api/src/engine/conditional-trigger.ts:15-53 | a trade triggers an order exactly when it waits for its trigger, is of the traded symbol and the price has reached its own, by kind and side |
| `Engine.StatusFollowsThisMatchOnly` | apps/paper-api/src/engine/match-orders.ts:43-49 | the status of a limit match says only what this match crossed: a partially filled order that crosses nothing is OPEN again |
| `Engine.PaperEngine.RememberEnvelope` | apps/paper-api/src/engine/paper-engine.ts:318-333 | an envelope is taken exactly when it is newer than the last one taken |
| `Engine.TakenExactly` | apps/paper-api/src/engine/paper-engine.ts:318-333 | of any stream the next envelope is taken exactly when its epoch is newer than the last taken one's, or its token within that epoch, or its version within that token |
| `Engine.PaperEngine.MatchBook` | apps/paper-api/src/engine/paper-engine.ts:334-430 | the matching loop, in place, computes its specification: each order updated, persisted, mirrored when the ledger is terminal, put back when persistence fails |
| `Engine.PassTouchesOnly` | apps/paper-api/src/engine/paper-engine.ts:349-358 | a pass changes only matchable orders of its symbol that it was given, and no conditional order |
| `Engine.PaperEngine.CancelOrder` | apps/paper-api/src/engine/paper-engine.ts:259-279 | cancels in the order map only |
| `Engine.PaperEngine.RestoreOrder` | apps/paper-api/src/engine/paper-engine.ts:302-308 | a waiting order of a previous leader is registered to wait, any other kept as its row has it |
| `Engine.RegisteredUntilTriggered` | apps/paper-api/src/engine/paper-engine.ts:291-294 | a conditional order just registered is matched by no book, is left to be evaluated again by a trade whose trigger fails, and triggers once by one that goes through |
| `Engine.BothCrossedExactly` | apps/paper-api/src/engine/conditional-trigger.ts:15-53 | one price crosses both legs of a pair exactly when it lies between thresholds that are inverted or equal |
| `Engine.PaperEngine.OnTrade` | apps/paper-api/src/engine/paper-engine.ts:157-220 | the trigger loop, in place, computes its specification: failed triggers put back, the others still evaluated, failures reported at the end |
| `Engine.TakenAdvance` | apps/paper-api/src/engine/paper-engine.ts:318-333 | of the envelopes taken epochs never decrease, tokens never within an epoch, and versions strictly increase within a token |
| `Tenure.NobodyElseFills` | apps/paper-api/src/runtime/fill-persistence.ts:79-92 | while a leader holds its market's token no fill carrying another token commits there, which is all a tenure asks of everyone else |
| `Tenure.StepAgrees` | apps/paper-api/src/engine/paper-engine.ts:349-430 | every step of a tenure that loses no partial fill's commit keeps engine and ledger in agreement |
| `Tenure.LostCommitExactly` | apps/paper-api/src/engine/paper-engine.ts:400-421 | losing the result of a committed fill breaks the agreement exactly when the fill was partial and not empty |
| `TenureLoss.LostCommitOverfills` | apps/paper-api/src/engine/paper-engine.ts:400-421 | a run from an agreeing engine and a sound ledger: the commit of a partial fill is lost, the engine fills the order again, and three shares are sold under an order for two |
| `TenureMirror.RefusalMirrors` | apps/paper-api/src/engine/paper-engine.ts:400-417 | a fill refused because the order is over leaves the engine with the status of the row, the whole quantity if it is FILLED and what was filled before otherwise |
| `TenureMirror.CommitMirrors` | apps/paper-api/src/engine/paper-engine.ts:380-400 | after a fill commits engine and row have the same filled quantity and the same status |
| `TenureMirror.CancellationStands` | apps/paper-api/src/engine/paper-engine.ts:259-279 | a cancellation that reaches a live order leaves it CANCELLED with what it had filled, through every later book, trade and transaction |
| `Tenure.FillPassesChecks` | apps/paper-api/src/runtime/fill-persistence.ts:92-136 | a fill the engine persists is within the order's quantity and its rows pass the schema's checks |
| `Tenure.TerminalRefusal` | apps/paper-api/src/runtime/fill-persistence.ts:75-78 | ORDER_TERMINAL is reported only for a terminal row |
| `Tenure.TenureKeepsAgreement` | apps/paper-api/src/engine/paper-engine.ts:349-430 | over any interleaving of matches, triggers, outcomes, cancellations and notifications that loses no partial fill's commit, engine and ledger agree and filled quantities are the sums of their rows |
| `Tenure.EngineQuantityIsItsRows` | apps/paper-api/src/engine/paper-engine.ts:349-430 | an idle engine's filled quantity is the ledger's and the sum of its fill rows, unless the row is terminal |
| `Tenure.TenureIsLedgerRun` | apps/paper-api/src/runtime/order-cancellation.ts:204-214 | every tenure, lost commits included, is a run of the ledger, so conservation, fencing and finality apply to it |
| `Tenure.NoFillAfterTerminal` | apps/paper-api/src/runtime/order-cancellation.ts:105-119 | no fill is written for an order once the ledger holds it terminal, whatever the engine still believes |
| `Tenure.BookPassIsRun` | apps/paper-api/src/engine/paper-engine.ts:334-430 | what a matching pass does to the engine is a run of single steps, whatever others commit while its persistence calls are awaited, lost results included |
| `Tenure.TradePassIsRun` | apps/paper-api/src/engine/paper-engine.ts:157-220 | so is what a trade does to the conditional orders, its failed triggers put back |
| `Tenure.BookPassExists` | apps/paper-api/src/engine/paper-engine.ts:334-430 | for every way its persistence calls may end there is such a pass |
| `Tenure.BookPassKeepsAgreement` | apps/paper-api/src/engine/paper-engine.ts:400-421 | a pass whose persistence calls ran or failed leaves every order's quantity the sum of its fill rows, or its row terminal, wherever the pass stopped |
| `ExchangeInvariants.SettleKeeps` | apps/strategy-runner/src/backtest/simulated-exchange.ts:568-655 | a settlement keeps cash non-negative, the reserve the sum of resting buys, and resting sales within positions |
| `ExchangeInvariants.SubmitKeeps` | apps/strategy-runner/src/backtest/simulated-exchange.ts:240-326 | so does a submission |
| `ExchangeInvariants.MatchKeeps` | apps/strategy-runner/src/backtest/simulated-exchange.ts:219-238 | so does matching a tick against the book, whatever fills on the way |
| `ExchangeInvariants.CancelKeeps` | apps/strategy-runner/src/backtest/simulated-exchange.ts:328-339 | so does a cancellation |
| `ExchangePrices.SubmissionPrices` | apps/strategy-runner/src/backtest/simulated-exchange.ts:240-326 | a market order fills at the ask if it buys and the bid if it sells, the last price without a quote; a limit order fills at its limit exactly when that quote has reached it, and rests with its cost reserved otherwise |
| `ExchangePrices.RejectedExactly` | apps/strategy-runner/src/backtest/simulated-exchange.ts:240-326 | an intent is rejected exactly for another kind, for a sale of more than the position holds beyond the resting sales, or for a buy whose cost and fee exceed the cash |
| `ExchangePrices.CancelsExactly` | apps/strategy-runner/src/backtest/simulated-exchange.ts:328-339 | a cancellation finds its order exactly when one of that id rests, takes that one off the book and gives its reserve back to the cash |
| `ExchangePrices.TickFillsExactly` | apps/strategy-runner/src/backtest/simulated-exchange.ts:219-238 | a tick fills exactly the resting orders of its instrument whose limit its opposite quote has reached, oldest first, each whole at its own limit |
| `ExchangeReports.ReplayIsReported` | apps/strategy-runner/src/backtest/simulated-exchange.ts:568-655 | after any replay the fees paid, the profits realised and the shares held are the sums over its fills, each charged the fee of its own trade |
| `ExchangeInvariants.NegativeOnlyBelowFee` | apps/strategy-runner/src/backtest/simulated-exchange.ts:616-621 | the negative-balance check can only stop a sale whose fee exceeds its proceeds |
| `ExchangeNegative.NegativeExactly` | apps/strategy-runner/src/backtest/simulated-exchange.ts:616-621 | past every other check it fires exactly when a sale's fee exceeds its proceeds and the cash at hand |
| `ExchangeInvariants.ReplayKeeps` | apps/strategy-runner/src/backtest/simulated-exchange.ts:219-339 | over every replay the account stays sound, and the negative-balance check never fires when no sale is charged more than it earns |
| `ExchangeNegative.NeverNegativeExactly` | apps/strategy-runner/src/backtest/simulated-exchange.ts:85-90 | no replay from any sound account under some schedules goes negative exactly when none of them charges a sale more than it earns, by an amount the domain records; schedules that satisfy the fee model's condition do not |
| `ExchangeNegative.NegativeReplay` | apps/strategy-runner/src/backtest/simulated-exchange.ts:616-621 | from an opened wallet of half a won: a share is bought and sold on one tick, a tax rounded up to a won is charged, and the check stops the replay |
| `ExchangeInvariants.ReplayConserves` | apps/strategy-runner/src/backtest/simulated-exchange.ts:568-655 | over every replay cash, reserve and cost less realised profit is conserved exactly, per currency |
| `SimulatedExchange.Simulator.constructor` | apps/strategy-runner/src/backtest/simulated-exchange.ts:191-204 | an opened exchange is sound |
| `SimulatedExchange.Simulator.Submit` | apps/strategy-runner/src/backtest/simulated-exchange.ts:240-326 | submit, in place, computes its specification and keeps the account sound |
| `SimulatedExchange.Simulator.MatchTick` | apps/strategy-runner/src/backtest/simulated-exchange.ts:219-238 | the matching loop computes its specification in submission order |
| `SimulatedExchange.Simulator.Cancel` | apps/strategy-runner/src/backtest/simulated-exchange.ts:328-339 | cancel computes its specification |
| `SimulatedExchange.Simulator.SettleTrade` | apps/strategy-runner/src/backtest/simulated-exchange.ts:568-655 | settling moves position, cash, fees and fills, the cash only once it is known not to be negative |
| `LockKeys.KeyLessTrichotomy` | apps/paper-api/src/db/lock-order.ts:402-405 | the string order of keys is total and strict |
| `LockKeys.CompositeReadsBack` | apps/paper-api/src/db/lock-order.ts:266-270 | a decoder inverts the composite key of every non-empty list of parts |
| `LockKeys.CompositeInjective` | apps/paper-api/src/db/lock-order.ts:258-270 | different natural keys have different lock keys, but for no part at all and one empty part |
| `LockKeys.OrderedExactlyBelowWidth` | apps/paper-api/src/db/lock-order.ts:272-292 | zero-padding to twenty characters orders every pair of sequences below a limit exactly when the limit is at most ten to the twentieth |
| `LockKeys.TooWideMisorders` | apps/paper-api/src/db/lock-order.ts:272-292 | ten to the twentieth sorts below its predecessor |
| `LockKeys.WinnerClaimSortsLast` | apps/paper-api/src/db/lock-order.ts:233-255 | a winner claim sorts after every lower-case uuid key |
| `LockOrder.RankIsPlace` | apps/paper-api/src/db/lock-order.ts:95-104 | a table's rank is its place in the lock order, and a table outside it has none |
| `LockOrder.StrengthsConflictExactly` | apps/paper-api/src/db/lock-order.ts:294-311 | row locks exclude each other when either is for update or both update no key |
| `LockOrder.RowLockExactly` | apps/paper-api/src/db/lock-order.ts:415-445 | a row lock is refused exactly when it strengthens one held or its place lies before the last one, and taken exactly when it is neither held nor refused |
| `LockOrder.ClaimExactly` | apps/paper-api/src/db/lock-order.ts:447-473 | a claim is refused exactly for another index than its table's or a place before the last one |
| `LockOrder.LockOrderGuard.AcquireLock` | apps/paper-api/src/db/lock-order.ts:427-452 | accepts, skips or refuses a row lock as specified, a strengthening refused |
| `LockOrder.LockOrderGuard.ClaimUniqueKey` | apps/paper-api/src/db/lock-order.ts:454-474 | accepts, skips or refuses a claim as specified |
| `LockOrder.AdmitKeepsOrder` | apps/paper-api/src/db/lock-order.ts:396-452 | everything a guard let through is at most its last place, and nothing held is forgotten or strengthened |
| `LockOrder.DeadlockExactlyOnOppositeTie` | apps/paper-api/src/db/lock-order.ts:377-474 | guarded transactions wait in a circle exactly when two have taken a row and a claim of one place in opposite directions |
| `LockOrder.DeadlockFree` | apps/paper-api/src/db/lock-order.ts:377-474 | with row and claim of a place taken in one fixed order, no reachable state of any transactions has a circle of waits |
| `LockOrder.SomeoneCanMove` | apps/paper-api/src/db/lock-order.ts:377-474 | while anyone waits, someone waits only for transactions that are running |
| `LockOrder.OppositeOrdersDeadlock` | apps/paper-api/src/db/lock-order.ts:396-401 | without that fixed order two guards let a deadlock through |
| `GateLocks.Gates.AcquireGate` | apps/paper-api/src/safety/gate-locks.ts:62-75 | lets a request in at once or queues it, as specified |
| `GateLocks.Gates.ReleaseLease` | apps/paper-api/src/safety/gate-locks.ts:76-86 | releases once and drains the gate, as specified |
| `GateLocks.Gates.DrainGate` | apps/paper-api/src/safety/gate-locks.ts:87-100 | lets in the writer at the head, or every reader before the next writer |
| `GateLocks.RunKeeps` | apps/paper-api/src/safety/gate-locks.ts:62-100 | over any interleaving: no writer beside readers, an idle gate has no queue, readers wait only behind a writer, counts equal leases |
| `GateLocks.MutualExclusion` | apps/paper-api/src/safety/gate-locks.ts:62-100 | two leases of one scope are both shared |
| `GateLocks.NobodyOvertakes` | apps/paper-api/src/safety/gate-locks.ts:62-75 | while anyone waits nobody is let in past the queue |
| `GateLocks.ReleaseAdvances` | apps/paper-api/src/safety/gate-locks.ts:76-100 | each release brings every waiter exactly one step closer or lets it in |
| `GateLocks.WaiterKeepsPlace` | apps/paper-api/src/safety/gate-locks.ts:62-100 | nothing else moves a waiter or adds a holder before it |
| `GateLocks.DeadlockFreeExactly` | apps/paper-api/src/safety/gate-locks.ts:39-61 | processes acquiring distinct scopes in the order of a comparison never wait in a circle, over any run, exactly when the comparison ties no two different scopes |
| `GateLocks.CycleIsTied` | apps/paper-api/src/safety/gate-locks.ts:39-61 | whatever the comparison, a circle of waiting processes leads through scopes it holds for equal, two of which differ |
| `GateLocks.RepeatedScopeDeadlocks` | apps/paper-api/src/safety/gate-locks.ts:39-61 | a scope listed twice exclusively waits for itself |
| `RateLimit.RateLimiter.AdmitRequest` | packages/strategy-reporter/src/rate-limit.ts:99-123 | admits, suppresses, drops or defers in place as specified |
| `RateLimit.VerdictExactly` | packages/strategy-reporter/src/rate-limit.ts:86-122 | a repeat within its window is suppressed; any other request is posted exactly when the refilled bucket has a token beyond its floor, an alert waiting and a routine message dropped otherwise; a post carries both counts out |
| `RateLimit.SuppressedExactly` | packages/strategy-reporter/src/rate-limit.ts:86-122 | over any calls a request is suppressed exactly when a message of its key was posted less than a window before |
| `RateLimit.FullAfterQuiet` | packages/strategy-reporter/src/rate-limit.ts:86-122 | after its capacity in refill intervals the bucket is full again |
| `RateLimit.IntervalBudget` | packages/strategy-reporter/src/rate-limit.ts:86-123 | any stretch of time T sees at most capacity + floor(T / refill) + 1 posts |
| `RateLimit.SpendingIsFunded` | packages/strategy-reporter/src/rate-limit.ts:86-96 | tokens spent and left never outrun the tokens at hand and the intervals refilled |
| `RateLimit.ReserveIsKept` | packages/strategy-reporter/src/rate-limit.ts:106-113 | routine posts leave the alert reserve alone; an alert is deferred only when no token is left |
| `RateLimit.PostsOfAKeyApart` | packages/strategy-reporter/src/rate-limit.ts:99-104 | two posts of one key are at least the aggregation window apart |
| `RateLimit.DropsAreCounted` | packages/strategy-reporter/src/rate-limit.ts:106-121 | every drop is in the count some post carried out, or still waits |
| `RateLimit.RepeatsAreCounted` | packages/strategy-reporter/src/rate-limit.ts:99-121 | so is every suppressed repeat, key by key |
| `Reporter.EventReporter.ReportEvent` | packages/strategy-reporter/src/reporter.ts:292-301 | report, in place, as specified, the queue bounded |
| `Reporter.EventReporter.MakeRoom` | packages/strategy-reporter/src/reporter.ts:252-276 | the full-queue policy, in place |
| `Reporter.EventReporter.Drain` | packages/strategy-reporter/src/reporter.ts:209-247 | the drain loop computes its specification for any clock and any delivery outcomes |
| `Reporter.RunKeeps` | packages/strategy-reporter/src/reporter.ts:198-301 | over any interleaving the queue is bounded, every event reported while open is in exactly one count, queued or in flight, and lost alerts are told or to be told |
| `Reporter.EveryEventIsSomewhere` | packages/strategy-reporter/src/reporter.ts:198-301 | the same from the opening of the reporter on: reported equals posted, suppressed, dropped, evicted, blocked and failed together with what is queued and in flight |
| `Reporter.AlertEvictedExactly` | packages/strategy-reporter/src/reporter.ts:252-276 | an alert is evicted exactly when a new alert of an unqueued key meets a queue full of alerts; otherwise no queued alert goes |
| `ReporterOrder.ReportExactly` | packages/strategy-reporter/src/reporter.ts:252-301 | what becomes of every reported event: queued, or whose place it takes, or in which count it ends |
| `ReporterOrder.DrainExactly` | packages/strategy-reporter/src/reporter.ts:209-247 | a turn of the drain does with the head what the limiter says of it and leaves the rest queued |
| `ReporterOrder.DeliveriesCounted` | packages/strategy-reporter/src/reporter.ts:209-247 | over any run every delivery is counted as what it was |
| `ReporterOrder.FirstComeFirstServed` | packages/strategy-reporter/src/reporter.ts:198-301 | what is handed to delivery and what is still queued is what was reported, in that order, with some events taken out |
| `UnitOfWork.Runner.Run` | apps/paper-api/src/db/unit-of-work.ts:246-281 | at most maxRetries + 1 attempts, every earlier one aborted by the database; the last one is returned, thrown or unknown as it ended, never replayed; at most one effect, and none unless it was committed |
| `UnitOfWork.SubmissionEnds` | apps/paper-api/src/db/unit-of-work.ts:246-281 | a submission ends with the first of its attempts that does not deadlock, before its commit or in it, or gives up with the last it is allowed; its answer is what that attempt comes to against everything committed by then, and only that attempt writes |
| `UnitOfWork.AtMostOneEffect` | apps/paper-api/src/db/unit-of-work.ts:633-657 | over any run, whoever submits, at most one placement takes effect under a key, and one exactly if the run put the key on record |
| `UnitOfWork.ResubmissionHasNoEffect` | apps/paper-api/src/db/unit-of-work.ts:633-657 | resubmitting a recorded order or OCO pair takes no effect, however its attempts fare, and replies only the recorded response |
| `UnitOfWork.ReplyIsRecorded` | apps/paper-api/src/db/unit-of-work.ts:246-281 | a reply is only given for a placement that is on record with that response |
| `UnitOfWork.ExactlyOnce` | apps/paper-api/src/db/unit-of-work.ts:246-281 | however often a request is submitted and whatever becomes of each submission, commits lost and applied or lost and not included: at most one placement takes effect, exactly one once anyone is replied to, all replies the same |
| `Leases.AnyMarketCanBeTakenOver` | apps/paper-api/src/market-data/leader-lease.ts:136-246 | no failed, aborted or dead acquisition blocks a market: once the lock holder's session is gone a new process acquires it with a token above every earlier one |
| `Leases.AnyAcquisitionCanEnd` | apps/paper-api/src/market-data/leader-lease.ts:174-327 | whatever has become of an acquisition its process can end it and its lock is then free; a session the server has dropped can be noticed at any time, as a loss if the lease was held, as a failed acquisition if not yet |
| `Leases.RunKeeps` | apps/paper-api/src/market-data/leader-lease.ts:126-327 | over any run of competing processes, their sessions ending before they notice: one live lock holder a market, increasing tokens, every lease carrying its own acquisition's token, current while its session lives |
| `Leases.OneCurrentLease` | apps/paper-api/src/market-data/leader-lease.ts:136-246 | no two leases of a market, held or lost, carry one token |
| `Leases.HeldIsCurrentExactly` | apps/paper-api/src/market-data/leader-lease.ts:311-327 | a lease believed held is current exactly while no later acquisition of its market has committed; while its session lives it is current and the only one |
| `Leases.HeldCanBeStale` | apps/paper-api/src/market-data/leader-lease.ts:108-125 | any held lease can go stale unnoticed: a run after which two processes hold one market, the first with an old token |
| `Fencing.RunKeepsFencing` | apps/paper-api/src/runtime/fill-persistence.ts:79-91 | over any run of leases and transactions the token a fill must carry is the latest lease's, and every fill row carries the token its sender acquired |
| `Fencing.SupersededWritesNothing` | apps/paper-api/src/runtime/fill-persistence.ts:79-91 | once a successor's acquisition has committed a superseded process writes no row again, over any run and whatever it believes |
| `Fencing.LeadersNeverAlternate` | apps/paper-api/src/runtime/fill-persistence.ts:79-91 | the fill rows of a market change hands in one direction: after another process has written one the earlier never writes again |
| `Leases.LeaseRegistry.AcquireAll` | apps/paper-api/src/runtime/lease-registry.ts:131-169 | the markets are acquired in order, or everything acquired is given back, the latest first |
| `Leases.LeaseRegistry.ReleasePartial` | apps/paper-api/src/runtime/lease-registry.ts:171-185 | gives back what was acquired in reverse order |
| `Leases.LeaseRegistry.ReportLosses` | apps/paper-api/src/runtime/lease-registry.ts:187-203 | however many losses are reported, the supervisor hears of one |
| `Oco.ResolvesExactly` | packages/trading-core/src/oco.ts:22-97 | a pair resolves exactly when it is active with two legs, the named one progressed and the other waiting: the named leg wins as it is, the other is cancelled, and no second resolution succeeds |
| `Oco.ResolvedByTheFirst` | packages/trading-core/src/oco.ts:22-97 | over any attempts for any legs a pair is resolved at most once, by the first attempt made when it is active with that leg progressed and the other waiting, and stays as that left it |
| `Oco.OcoExecutor.ArriveTrigger` | apps/paper-api/src/engine/oco-executor.ts:47-53 | a trigger takes the end of its group's chain, in place, as specified |
| `Oco.OcoExecutor.StartTrigger` | apps/paper-api/src/engine/oco-executor.ts:54-81 | once the previous one is done: the checks and the winner |
| `Oco.OcoExecutor.AcquiredParent` | apps/paper-api/src/engine/oco-executor.ts:81-81 | the parent lock is acquired, or the trigger ends without executing |
| `Oco.OcoExecutor.ExecutedTrigger` | apps/paper-api/src/engine/oco-executor.ts:82-90 | when the execution ends: the group resolved by a successful one only |
| `Oco.OcoExecutor.ReleasedReservation` | apps/paper-api/src/engine/oco-executor.ts:90-95 | after its execution the trigger ends with what the release answered |
| `Oco.OcoExecutor.FinishTrigger` | apps/paper-api/src/engine/oco-executor.ts:92-95 | the promise resolves and leaves the chain only if nobody queued behind it |
| `Oco.StepKeepsChain` | apps/paper-api/src/engine/oco-executor.ts:47-95 | every step keeps the promise chain: each trigger waits for the last of its group before it, and the chain's end is its latest unfinished one |
| `Oco.OneAtATime` | apps/paper-api/src/engine/oco-executor.ts:47-95 | at most one trigger of a group is between its status check and its end |
| `Oco.ChainMoves` | apps/paper-api/src/engine/oco-executor.ts:47-95 | the chain never jams: before any waiting trigger one of its group runs or can start |
| `Oco.StepRefinesTrigger` | apps/paper-api/src/engine/oco-executor.ts:54-91 | interleaved at every await, groups and executions change only as uninterrupted triggers would change them |
| `Oco.ResolvedAtMostOnce` | apps/paper-api/src/engine/oco-executor.ts:42-96 | over any interleaving of triggers at their awaits a group is resolved at most once, keeps its winner, and is executed once, and once more only for each execution whose result was lost |
| `Oco.ExecutedOncePerGroup` | apps/paper-api/src/engine/oco-executor.ts:42-96 | from a new executor on: a group has been executed once if resolved, not at all while active, lost results apart, and at most one of its triggers is past its status check |
| `Oco.StartsExactly` | apps/paper-api/src/engine/oco-executor.ts:54-80 | a trigger whose turn has come ends without executing exactly for a closed market, a missing or resolved group or a foreign leg, and otherwise goes on for its own leg or the one recovery chooses |
| `Oco.WinnerIsTheTriggeredLeg` | apps/paper-api/src/engine/oco-executor.ts:62-89 | from a new executor on every execution is of the leg an arrived call of its group was for, or of the leg recovery chose, its sibling the other one, and a resolved group has the winner of one of its executions |
| `Oco.TrueOnlyIfExecuted` | apps/paper-api/src/engine/oco-executor.ts:42-96 | a trigger that answers true has had its own leg, or the one recovery chose, executed |
| `Oco.RunWinners` | apps/paper-api/src/engine/oco-executor.ts:62-81 | over any run whose recovery calls name legs of their groups every resolved group has one of its legs as its winner |

## Left out

- HTTP, sessions, sockets, the user interface, market-data adapters and the Discord transport: inputs and outputs only.
- SQL text, migrations and isolation levels: a transaction is one step; row locks and unique-index waits appear in `LockOrder` only.
- PostgreSQL's queue of lock waiters and the other arbiters of unique indexes: a transaction waits for holders, not for earlier waiters.
- Audit events, outbox rows, account sequences, the creation and revocation of sessions and currency exchange: the ledger steps write only what the consistency query and the theorems read; a session ends by `expireSession`.
- Decimal strings, prototype and accessor checks: values arrive validated; a whole quantity is counted in shares, so a domain check of a quantity is wider than the code's.
- Wallets and positions are one table keyed by their natural keys, and a fill row carries the columns of its order it is always read with.
- The order a fill or a trigger is persisted for is read from its row, not from the engine's copy, so an order missing from the table is refused before its session and its market's token are looked at.
- CHECK constraints of the schema are modelled where they can refuse: fill rows, filled quantities, placed quantities, reservation amounts, the row an upsert proposes and the row it leaves; the others follow from the invariant.
- `LedgerModel.LockReservation` picks any live reservation of an owner; `LedgerStore` keeps that there is at most one.
- The engine's passes are methods over a given list of orders, their persistence outcomes given beside it. In `Tenure.BookPassIsRun` and `Tenure.TradePassIsRun` others' transactions run while an order is awaited; registrations between the awaits are steps of a tenure but not of a pass. Session calendar, gate and latch checks only skip steps and are left out.
- Tenure.StepAgrees: excludes the lost commit of a partial fill, which does break the agreement; `Tenure.LostCommitExactly` has the exact condition, and the run theorems ask for no more than it.
- LedgerSteps.StepKeeps: asks for coherent placements; `LedgerMismatch.OcoCleanExactly` shows that OCO placements need it and `LedgerComposition.RunKeepsComposition` what holds without.
- LedgerMismatch.OcoCleanExactly: takes quantities and cash amounts the exact-money domain has room for; any other pair is placed, but its triggers are refused.
- A pair whose legs trade another market is registered with the engine of the request's market; a tenure registers only orders of its own market.
- MarketBuy.CoveredExactly: takes the same reference price for the reservation and the matcher, and plans whose numbers have at most twenty digits.
- ExchangeNegative.NeverNegativeExactly: its condition is over the sales the fee model accepts; on the schedule alone only one direction holds, because one that fails the condition of `Fees` may never overcharge a sale the exact-money domain has room for.
- LimitBuyLedger.LedgerDrawsAtMostHalfUnitPerLevel: the order's fills are those the engine writes, an execution inside the limit under one schedule with the quantities added up.
- LedgerOco.OcoArbitration: is about runs in which nobody fills a leg, because the fill transaction never resolves a group; `TenureOco.TenureIsGroupRun` proves that of a leader's engine, so only transactions of others are asked to comply.
- LockOrder.DeadlockFree: needs the fixed order of row and claim; `LockOrder.DeadlockExactlyOnOppositeTie` says what happens without it.
- AverageLedger.LedgerAverageDrift: carries, besides half a unit of 10^-10 per buy, a twentieth of a grid unit per buy for the place the 161-digit division drops.
- ExchangeInvariants.ReplayKeeps: a throw ends the replay; what the account looks like after one is not part of the contract.
- Lock keys compare by code point; the code compares UTF-16 units, which agrees on every key it builds.
- The polling loop, metrics and backoff of lease acquisition are steps that may be taken any number of times; the audit row of a release is left out. A lease is one connection's; a process that is elected again is a new connection.
- A disabled reporter, rendering, clamping and masking of payloads.
- Reads that change nothing: portfolio views, statistics, average cost of a view, unrealised profit, loss counts.
