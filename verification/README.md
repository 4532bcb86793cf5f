# Kaupo trading kernel: a Dafny model

Kaupo runs one strategy on historical candles, on live candles with paper money, and on a live exchange.
What it does with money is decided by a small kernel, and this project models that kernel and proves what
its parts promise each other. Money and sizes are exact reals; instants are integers.

- **Paper execution.** `Domain`, `Sums`, `Accounting`, `Ledger`, `PaperVenue`, `RiskManager`, `Engine`,
  `StrayBuy`, `Protections`, `LostSibling`, `PortfolioEngine`, `PerpEngine`, `PerpRun`. Venue, ledger and risk
  manager each keep a view of the same position. The main results say that the views agree at every candle of
  every run, that no money and no position of a spot run is ever negative, and that cash plus cost basis minus
  realized PnL moves only by funding.
- **What the kernel does, told without it.** `FillPrices`, `OrderLog`, `OrdersPlaced`, `Acceptance`, `EntryTimes`,
  `FundingCash`, `BatchRules`, `DailyRail`, `EngineRail`, `PerpRail`, `PortfolioRail`. Prices, slippage, fees, order
  records, entry times, funding, granted sizes and halts, each defined from candles, orders, fills and intents
  alone and proved of every candle, batch or run.
- **Recomputations.** `Metrics` and `Resume`: round trips against the ledger's own PnL, and chained ledgers
  against one replay of all fills.
- **Trading calendar.** `MarketCalendar`, `ZoneBoundary`, `CandleCoverage`, `DailyEquity`. The open-time sweep
  computes the measure of a union of sessions, and its two clients rely on exactly that.
- **Step parity.** `Keys`, `PortfolioSteps`, `UniverseJoiner`: the live joiner with its deadlines against the
  backtest's plain merge.
- **Caches and streams.** `OrderFlow`, `FlowTotals` and `XStocks`: an incrementally refreshed cache against the
  direct query, flow totals against the ticks, and a paged trade stream against the log it pages through.
- **Live protocol.** `ExchangeTrades`, `KrakenVenue`, `LiveOrders`, `LiveProtocol`, `CancelThenPoll`,
  `LiveReconcile`, `LiveBooks`, `StartRules`. Exchange and venue are one state machine whose steps are executions,
  placements, cancels, polls and poll failures in any order; reconciliation after a crash hands over to it.

Objects that update their fields are classes whose methods are tied to functions on values; the theorems are
about those functions. A strategy is any list of intents, an operator any sequence of commands, an exchange any
append-only log.

## Where the code falls short of its own description

- Paging public trades: the client reports "cursor did not advance" when a page boundary splits the last tie
  group of the log, although no page is filled by one timestamp (`XStocks.SplitLastTieFails`,
  `XStocks.TiesStreamFails`). Which logs are safe for pages of at least n trades is
  `XStocks.NeverStuckExactly`.
- A poll that fails after its cancels succeeded lets an executed order be reported expired
  (`CancelThenPoll.FailedPollMisreports`); the next successful poll still delivers its trades, as an
  unattributed order. When the report is right is `CancelThenPoll.ExpiredReportIsRight`.
- Reconciliation looks back one second behind the newest recorded fill. An order whose trades span more than
  that, with the earlier part already recorded, can lose its remainder (`LiveReconcile.PartialWindowLosesSize`;
  exactly when: `LiveReconcile.ReconciledWithinTolerance`). Recording moves the window: when a crash follows a
  flush in the middle of the recovered list, an order with earlier trades that was not yet flushed is out of
  reach for good (`LiveReconcile.PartialRecordLosesAnOrder`; exactly when:
  `LiveReconcile.SecondPassRecoversTheRest`). The drift check is then what stops the run.
- The padded window of local days misses open time where clocks fall back onto or past local midnight, or
  where a closing inside a skipped hour moves forward past midnight
  (`ZoneBoundary.MidnightFallBackLosesTime`; exactly when: `ZoneBoundary.WindowSufficesExactly`).
- A single-pair run can approve a limit buy on another pair, which the venue fills on the run's own candles, and
  the floor is then not what it is for the own pair (`StrayBuy.StrayBuyMovesTheFloor`; exactly when:
  `Engine.FloorExactly`).
- A negative cooldown setting makes the manager refuse its own checkpoint when it writes it
  (`RiskManager.NegativeCooldownRefusesCheckpoint`; exactly when: `RiskManager.CheckpointsExactly`).
- A rolled-back exit arms its own protection again, but not the others whose turn in the sweep came when the exit
  had left nothing tracked, so a position can stay without its second stop
  (`LostSibling.RejectedExitLosesSibling`; exactly when: `Protections.LostExactly`).
- The perp clamp takes a position that is over its cap all the way back inside it, so an order can be larger than
  the intent that asked for it (`BatchRules.BuysFiveForOne`; exactly when: `BatchRules.LargerThanAsked`).
- The repository's README.md, line 108, says that risk state is not carried over a resume. The code restores a
  checkpoint, and the model follows the code.

Not a promise of the code, but worth knowing: a fresh perp run charges no funding that falls into a gap between
candles until a candle has had an event of its own (`PerpEngine.GapHidesTheFirstEvent`; exactly when all is charged:
`PerpEngine.FundingExactly`).

## Model

| member | source | states |
|---|---|---|
| `Engine.EveryRunAgrees` | kaupo/core/engine.py:292-382 | In every spot run, whatever the market, the operator and the strategy do: after each fill loop the ledger and the venue differ on every pair by the opening position exactly, cash and positions are never negative, cash plus cost minus realized PnL never moves, and the ledger only ever rejects buys or protection exits |
| `Engine.StepKeepsInvariant` | kaupo/core/engine.py:292-382 | One candle keeps the run invariant: agreement, solvency, the accounting identity, and pending sells covered by the ledger position |
| `Engine.FillLoop` | kaupo/core/engine.py:292-323 | After the fill loop both queues are empty, venue and ledger agree up to the opening position, and every own sell of the candle was accepted, however many fills were rejected and rolled back |
| `Engine.OwnSellsAccepted` | kaupo/core/engine.py:301-319 | Sells covered by the ledger position are all accepted, whatever happens to the buys between them and the protection exits behind them |
| `Engine.DecisionCovered` | kaupo/core/engine.py:374-382 | The intents risk approves, once submitted, leave the pending sells of each pair within the ledger position and move no tracked position |
| `Engine.CloseOutAccepted` | kaupo/core/engine.py:476-500 | The end-of-run close-out sells the ledger position, is accepted, leaves the pair flat, and keeps venue and ledger in agreement |
| `Engine.FloorOverEveryRun` | kaupo/risk/manager.py:76-88 | In a fresh run whose strategy stays on its pair the daily-loss floor is min(opening cash + realized PnL, equity) at every candle |
| `Engine.FloorExactly` | kaupo/risk/manager.py:76-88 | In any fresh run, stray buys or not, the floor is min(opening cash + realized PnL, equity) at a candle if and only if no stray buy is held at a cost or the equity decides anyway |
| `StrayBuy.StrayBuyMovesTheFloor` | kaupo/risk/manager.py:76-88 | A concrete run with a stray limit buy filled and the own position in profit, whose floor is 50 where opening cash plus realized PnL is 100 and the equity 60 |
| `Engine.FloorIsRealizedOrEquity` | kaupo/risk/manager.py:76-88 | In general the floor is the lower of opening cash plus realized PnL less the cost of stray buys of other pairs, and the equity |
| `Engine.GivebacksDoNotMoveTheFloor` | kaupo/risk/manager.py:76-88 | Between two closes at or above the average entry, without a fill, the floor does not move |
| `Engine.Engine.ProcessCandle` | kaupo/core/engine.py:292-382 | The candle method takes the engine from one state to the next: fills, rollback, risk checks, operator control, approved intents, in that order |
| `Engine.ApplyFills` | kaupo/core/engine.py:301-319 | The loop settles each fill in turn: a rejected one is rolled back in the venue, an accepted sell reaches the risk manager |
| `Engine.Engine.SubmitApproved` | kaupo/core/engine.py:374-382 | Exactly the approved and resized intents are submitted, in order, at the assessed size |
| `OrdersPlaced.DecisionPlacesWhatIsGranted` | kaupo/core/engine.py:352-382 | A candle that is neither halted, paused nor killed leaves waiting exactly one order per granted intent, in order, with the intent's terms and the granted size, and any other leaves the venue as the fill loop did; only a kill that is not halted or paused marks the run killed |
| `OrdersPlaced.PerpDecisionPlacesWhatIsGranted` | kaupo/core/engine.py:352-382 | The same of a perp candle and its batch |
| `EngineRail.RunHaltsExactly` | kaupo/core/engine.py:324-348 | Every spot run from a fresh manager ends halted if and only if at some candle the floor, position at the lower of cost and close after the fills, had lost the day's allowance against the floor its day began with, the day being that of the close |
| `EngineRail.RunShows` | kaupo/core/engine.py:301-348 | What the manager has seen by the end of a run is the result of every sell the ledger accepted, what it added to the realized PnL, and each candle's floor |
| `PaperVenue.OnCandleTracksItsFills` | kaupo/venues/paper.py:191-277 | Over a candle the tracked position of every pair moves by exactly the fills returned for it |
| `PaperVenue.LimitFillsAreFair` | kaupo/venues/paper.py:346-360 | A limit fill never costs more, or sells for less, than its own limit price |
| `PaperVenue.ModesDifferOnlyOnMarketableLimits` | kaupo/venues/paper.py:323-360 | The three fee modes differ only on limits marketable at posting: maker tier, taker tier, or no fill, all at the open |
| `PaperVenue.PaperVenue.CandleStep` | kaupo/venues/paper.py:191-262 | The candle method equals market fills, limit fills, protection sweep and re-arming on the state before it, whose prices `FillPrices` and whose orders `OrderLog` state |
| `PaperVenue.PaperVenue.FillMarketOrders` | kaupo/venues/paper.py:202-208 | The loop over the market queue empties it and fills each order once, at the price `FillPrices.MarketFillsAtOpen` states |
| `PaperVenue.PaperVenue.FillLimitOrders` | kaupo/venues/paper.py:210-241 | The loop over the limit queue fills or expires each order once |
| `PaperVenue.PaperVenue.SweepProtections` | kaupo/venues/paper.py:243-260 | The sweep fires at most what the tracked position still covers and collects the survivors |
| `PaperVenue.FiringSellsWhatIsTracked` | kaupo/venues/paper.py:362-397 | A triggered protection sells the smaller of what it guards and what is tracked, the tracked position never goes below zero, no other pair moves, and the exit remembers the protection it consumed |
| `PaperVenue.ArmedAfterCandle` | kaupo/venues/paper.py:243-260 | Exactly what is armed after a candle: protections that at their turn in the sweep found something tracked and were not triggered, and those of the candle's own entries whose pair no exit sold out |
| `Protections.ArmedAfterEveryCandle` | kaupo/core/engine.py:296-321 | Over every run, exactly what is armed after the fill loop: what the candle left armed unless the ledger rejected its entry, and what a rejected exit had consumed |
| `Protections.LostExactly` | kaupo/venues/paper.py:243-260 | Over every run, an armed protection that the candle does not trigger is lost exactly when its turn came with nothing tracked, whatever the ledger rejects afterwards |
| `LostSibling.RejectedExitLosesSibling` | kaupo/venues/paper.py:243-260 | A concrete run: a rejected buy inflates an exit, the exit is rejected and rolled back, one unit is still held, and the second stop that guarded it is gone |
| `PaperVenue.RollbackRearms` | kaupo/venues/paper.py:162-180 | Rolling back an exit arms the protection it consumed again, behind all that are armed |
| `PaperVenue.VoidRestores` | kaupo/venues/paper.py:162-180 | Exactly what a rollback restores of any state: the fill's position, its order as rejected, no protection of that order, the protection its exit consumed, and nothing else |
| `PaperVenue.PaperVenue.Void` | kaupo/venues/paper.py:162-180 | The method performs that rollback: position, order status, protections of the order dropped, the consumed one armed again |
| `PaperVenue.CloseOutFlattens` | kaupo/venues/paper.py:144-160 | A close-out trades the whole signed size as taker, moves the tracked position by exactly that and no other pair, and leaves no protection on a long position it closed |
| `FillPrices.MarketFillsAtOpen` | kaupo/venues/paper.py:290-321 | Every waiting market order fills at the open worsened by exactly the slippage: a buy never below it, a sell never above it, with the taker fee on what it moved |
| `FillPrices.RoundTripCost` | kaupo/venues/paper.py:290-321 | Buying and selling one size at one open costs exactly twice the slippage on it and both fees |
| `FillPrices.LimitFillsArePriced` | kaupo/venues/paper.py:333-360 | Every touched limit fills in order at its own price or the better open, with the maker fee, or the taker fee when the mode says so and it was marketable |
| `FillPrices.ExitsArePriced` | kaupo/venues/paper.py:362-397 | Every exit answers a protection that the candle triggered: a stop at the lower of stop and open less exactly the slippage as taker, a take-profit at the higher of target and open as maker, a stop first |
| `FillPrices.CloseOutIsPriced` | kaupo/venues/paper.py:144-160 | A close-out trades at the close worsened by exactly the slippage, with the taker fee |
| `OrderLog.EveryOrderEndsOnce` | kaupo/venues/paper.py:191-262 | Over a candle every waiting order ends once: its record carries its fill's price, time and fee, or it is cancelled and reported as expired, and nothing else expires; every exit is a new order with the next number, already filled and on file |
| `OrderLog.OnlyEndedOnesLeave` | kaupo/venues/paper.py:279-285 | Pruning drops exactly the older orders that were filled or cancelled |
| `OrderLog.CloseOutIsOnFile` | kaupo/venues/paper.py:144-160 | A close-out is reported as a new filled market order against the whole signed size |
| `Accounting.AccountingIdentity` | kaupo/ledger/ledger.py:106-238 | For spot and perp, over any sequence of fills, rejected fills, liquidation fills and funding, cash plus the sum of size times average entry minus realized PnL moves only by the funding |
| `Accounting.FlipIsCloseThenOpen` | kaupo/ledger/ledger.py:152-222 | A perp flip is accepted exactly when its closing and opening parts are, with the same cash, position, entry time and realized PnL, the fee split pro rata |
| `Accounting.SpotKeepsIdentity` | kaupo/ledger/ledger.py:106-150 | An accepted spot fill keeps the identity and a long-only ledger |
| `Accounting.PerpKeepsIdentity` | kaupo/ledger/ledger.py:152-222 | An accepted perp fill keeps the identity, forced or not |
| `Acceptance.AcceptedExactly` | kaupo/ledger/ledger.py:106-222 | A list of fills, spot or perp, is accepted if and only if each buy finds its price and fee in the running cash and each spot sell its size in the running position |
| `Acceptance.ReplayAccepts` | kaupo/ledger/ledger.py:106-150 | The replay of a spot history succeeds exactly then |
| `EntryTimes.ReplayEnters` | kaupo/ledger/ledger.py:106-150 | After any fills a spot ledger accepts, a position that is not flat entered at the last fill that found it flat, by running sums of signed sizes, and a flat one has no entry time |
| `EntryTimes.HistoryEnters` | kaupo/ledger/ledger.py:106-222 | The same over any history, spot or perp, rejected and liquidation fills and funding included: at the last accepted fill that found the position flat or took it through zero |
| `Ledger.JournalStaysRunning` | kaupo/ledger/ledger.py:70-76 | Over any history of fills, rejected fills, liquidation fills and funding, with one pair per base, every entry's balance is the running sum of its asset and the sums are the books the history leads to |
| `Ledger.AcceptedFillPosts` | kaupo/ledger/ledger.py:70-76 | The two entries of an accepted fill, spot, perp or forced, carry the journal from one state of the books to the next |
| `Ledger.FundingPosts` | kaupo/ledger/ledger.py:228-231 | A funding entry keeps the journal running and reconciled |
| `Ledger.CarryInPosts` | kaupo/ledger/ledger.py:54-68 | Each carry-in entry keeps the journal running and reconciled with the positions carried so far |
| `Ledger.Ledger.constructor` | kaupo/ledger/ledger.py:42-68 | A fresh or resumed ledger opens with its cash and the open positions carried in, and a journal that reconciles |
| `Ledger.Ledger.ApplyFill` | kaupo/ledger/ledger.py:106-150 | A fill is applied and journalled, or rejected with its reason and nothing changed; an audited journal stays audited |
| `Ledger.Ledger.ApplyFillPerp` | kaupo/ledger/ledger.py:152-222 | A perp fill closes, opens or flips; only an unaffordable unforced buy is rejected; an audited journal stays audited |
| `Ledger.Ledger.ApplyLiquidationFill` | kaupo/ledger/ledger.py:224-226 | A liquidation fill is never rejected, and an audited journal stays audited |
| `Ledger.Ledger.ApplyFunding` | kaupo/ledger/ledger.py:228-231 | Funding moves cash only and keeps the journal reconciled |
| `Ledger.Ledger.Equity` | kaupo/ledger/ledger.py:233-238 | Cash plus the market value of the positions that have a price |
| `RiskManager.SellsWithinPosition` | kaupo/risk/manager.py:194-252 | Over any intent list the approved sells of a pair never exceed its position |
| `RiskManager.BuysWithinCaps` | kaupo/risk/manager.py:216-279 | After any approved buy of positive size the pair exposure at the price used and the gross exposure are within their caps, all earlier approvals counted |
| `RiskManager.CashLeftOver` | kaupo/risk/manager.py:194-279 | Approved buys never cost more than the cash, and n of them leave at least cash times (r / (1 + r))^n for cost rate r |
| `RiskManager.PerpWithinCaps` | kaupo/risk/manager.py:285-344 | Every approval of a perp batch leaves its pair within the position cap at the price used |
| `RiskManager.PerpStep` | kaupo/risk/manager.py:305-344 | A perp approval changes its own pair only, lands inside the room the other pairs leave, and under cooldown lets no position grow |
| `RiskManager.PerpGrossCapped` | kaupo/risk/manager.py:285-344 | A batch of market intents never takes the gross above max(cap, gross before) |
| `RiskManager.FloorBelowBoth` | kaupo/risk/manager.py:76-88 | With any number of pairs the floor is at most cash plus cost, and at most the equity |
| `RiskManager.RestartIsTransparent` | kaupo/risk/manager.py:127-192 | After any history a checkpoint is written exactly when the cooldown is not negative; it then restores, and the restored manager makes every later decision the original would |
| `RiskManager.CheckpointsExactly` | kaupo/risk/manager.py:90-137 | Every history can be checkpointed if and only if the cooldown setting is not negative |
| `RiskManager.NegativeCooldownRefusesCheckpoint` | kaupo/risk/manager.py:90-137 | A concrete history of one loss whose checkpoint is refused when it is written |
| `RiskManager.RiskManager.CandleStep` | kaupo/risk/manager.py:155-178 | The per-candle check rolls the day, counts down the cooldown and halts on the daily loss, on the floor computed from the state |
| `RiskManager.CooldownAfterStreak` | kaupo/risk/manager.py:180-192 | A trade result starts the cooldown exactly when it completes a streak of the configured length, or another with no profit since; break-even trades neither count nor reset |
| `DailyRail.RailAndCooldown` | kaupo/risk/manager.py:155-192 | Over any history of candles and trade results from a fresh manager it is halted if and only if the engine halted it or some candle's floor was at or below its baseline less the allowance, the baseline being the floor of the last candle before its day began, or the first ever; and a cooldown lasts the configured number of candles from the loss that completed a streak |
| `BatchRules.LargestAllowedSize` | kaupo/risk/manager.py:194-279 | Every intent of a spot batch gets the largest size that its request, the caps, the cash with costs and the position leave after the approvals before it; it is refused exactly when no such size is worth the minimum order, a full exit always being, or for a buy under cooldown |
| `BatchRules.NearestAllowedPosition` | kaupo/risk/manager.py:285-344 | Every intent of a perp batch is taken to the position inside the caps nearest to the one it asks for, counted from the approvals before it, or refused exactly when that is not its way, grows under cooldown, or is neither flat nor worth the minimum order |
| `BatchRules.LargerThanAsked` | kaupo/risk/manager.py:325-344 | A granted perp order is larger than its intent exactly when the position was over the cap on the other side and the intent would have left it there |
| `BatchRules.BuysFiveForOne` | kaupo/risk/manager.py:325-344 | A concrete short over its cap whose intent to buy 1 is granted as an order for 5 |
| `RiskManager.RiskManager.AssessIntents` | kaupo/risk/manager.py:194-279 | The batch loop, spot or perp, equals assessing each intent on what the earlier approvals left |
| `PortfolioEngine.EveryPortfolioRunAgrees` | kaupo/core/portfolio_engine.py:330-411 | In every portfolio run, in whatever order the pairs take their turns, each venue and the shared ledger differ on its pair by the opening position exactly, no pair outside the universe is touched, and cash and positions are never negative |
| `PortfolioEngine.TurnKeepsPair` | kaupo/core/portfolio_engine.py:332-357 | One pair's candle moves no other pair's position and keeps its own venue in agreement with the shared ledger |
| `PortfolioEngine.FloorBelowRealizedAndEquity` | kaupo/risk/manager.py:76-88 | At every step of every fresh portfolio run the floor is at most opening cash plus realized PnL, and at most the equity at the last known prices |
| `PortfolioEngine.PortfolioEngine.ProcessStep` | kaupo/core/portfolio_engine.py:330-411 | A universe step: prices, each pair's venue and fills in turn, risk on the whole portfolio, then the approved intents to their venues |
| `PortfolioEngine.PortfolioEngine.TakeTurn` | kaupo/core/portfolio_engine.py:332-357 | One pair's candle on its own venue object, its fills applied to the shared ledger or rolled back, every other venue unchanged |
| `PortfolioEngine.PortfolioEngine.SubmitApproved` | kaupo/core/portfolio_engine.py:403-411 | Each approved intent reaches the venue of its own pair and no other |
| `PortfolioRail.PortfolioRunHaltsExactly` | kaupo/core/portfolio_engine.py:330-411 | Every portfolio run from a fresh manager ends halted if and only if at some step the floor of the whole portfolio at the last known closes had lost the day's allowance against the floor its day began with |
| `PortfolioRail.PricesAreNewestCloses` | kaupo/core/portfolio_engine.py:319-324 | In a run that goes on, the price risk sees of a pair is the close of its newest candle, also when the pair misses steps, and a pair that had none has no price |
| `PortfolioRail.EachVenueGetsItsOwn` | kaupo/core/portfolio_engine.py:373-411 | A step that is neither halted, paused nor killed leaves waiting at each venue exactly one order per granted intent of its own pair, in order; any other leaves the venues as the turns did |
| `PerpEngine.FundingExactly` | kaupo/core/engine.py:422-441 | Over any candles in order, missing ones included, a run never charges more than the events of its span, and exactly these when and only when: once something was charged, no two closes have more than ten events between them; in a fresh run, nothing precedes the first candle with an event of its own, and the same holds from there |
| `PerpEngine.FirstCharge` | kaupo/core/engine.py:422-441 | A fresh run charges nothing before the first candle with an event between its own open and close |
| `PerpEngine.GapHidesTheFirstEvent` | kaupo/core/engine.py:430-431 | A concrete event in a gap before the first charge that is never charged |
| `PerpEngine.ChargesTheInterval` | kaupo/core/engine.py:422-441 | A candle charges exactly the newest ten events since the run was last caught up: since its open, or since the close before it once an event was charged |
| `PerpEngine.LiquidationFlattens` | kaupo/core/engine.py:443-474 | A forced close is always accepted, leaves no position, and turns the position into its market value less the fee |
| `PerpEngine.PerpEngine.ApplyFunding` | kaupo/core/engine.py:422-441 | The loop pays each new event once on the position after the fills, advances even while flat, and its effect on the books is the history of those payments |
| `PerpEngine.PerpEngine.CloseCandle` | kaupo/core/engine.py:324-348 | Funding, then the equity rail: a run whose equity is gone loses its position and its risk manager is halted with a reason |
| `FundingCash.LongsPayShorts` | kaupo/core/engine.py:422-441 | At a positive close and rates of one sign funding moves the magnitude times the close times the sum of the rates, from a long when they are positive and to it when negative, the reverse for a short |
| `FundingCash.OppositesPayEachOther` | kaupo/core/engine.py:422-441 | Two opposite positions pay each other exactly |
| `FundingCash.RunPaysItsFunding` | kaupo/core/engine.py:422-441 | Over a run that charges its whole interval, candle by candle, the funding moved is the sum of those charges |
| `PerpRail.PerpRunHaltsExactly` | kaupo/core/engine.py:324-348 | Every perp run from a fresh manager ends halted if and only if at some candle nothing was left of cash and position at the close, funding included, or the floor had lost the day's allowance |
| `PerpRail.RecordIsTrue` | kaupo/core/engine.py:301-310 | The fill loop accepts exactly the sells and the buys the cash pays for |
| `PerpRail.CloseOutPays` | kaupo/core/engine.py:443-474 | A forced close turns the position into cash at the close and pays the taker rate on its worth, long or short |
| `PerpRun.EveryPerpRunAgrees` | kaupo/core/engine.py:292-382 | Over every perp run, whatever the market, the funding, the operator and the strategy do: venue and signed ledger differ on every pair by the opening position exactly until a liquidation, which leaves no position, and cash plus cost basis minus realized PnL has moved by the funding alone |
| `PerpRun.EveryPerpLoopAgrees` | kaupo/core/engine.py:292-321 | At every candle of a perp run that goes on they agree right after the fill loop, rejected fills included |
| `Metrics.MetricsAgreeWithLedger` | kaupo/backtest/metrics.py:21-59 | On any fills the spot ledger accepts, a pair's round trips add up to what the ledger realized on it, and the open position is (size, size times average entry) |
| `Metrics.SplitHistory` | kaupo/backtest/metrics.py:37-59 | The round trips of a split history are the first part's followed by the second part's seeded with the open position |
| `Metrics.RoundTrips` | kaupo/backtest/metrics.py:37-59 | The loop closes sells against the open lot at average cost with the fee shared by what it closed |
| `Metrics.OpenPosition` | kaupo/backtest/metrics.py:21-34 | The loop leaves the open quantity and its cost, buy fees included |
| `Resume.ChainEqualsOneReplay` | kaupo/core/resume.py:167-176 | Any number of ledgers chained by carry-in accept exactly what one ledger fed all the fills accepts, and end with the same cash, sizes, average entries and entry times |
| `EntryTimes.ChainEnters` | kaupo/core/resume.py:167-176 | A successor ledger remembers when a position it carries was opened, from the fills of every run before it |
| `Resume.LoadedOrderIsSafe` | kaupo/core/resume.py:239-258 | Fills reloaded buys-first within a timestamp never make a sell exceed its position, and unless a buy runs out of cash the final cash and sizes are those of the original order |
| `Resume.SellIsCovered` | kaupo/core/resume.py:239-258 | In the reloaded order every sell is covered by the opening position and the fills before it |
| `Resume.ReplayTotals` | kaupo/core/resume.py:167-176 | A replay moves cash and each size by the totals of its fills and stays long-only |
| `Resume.ChainRows` | kaupo/core/resume.py:195-212 | The walk returns the resume chain, root first, exactly when there is one: a missing parent or a cycle yields none |
| `MarketCalendar.OpenElapsed` | kaupo/market_calendar.py:58-89 | The sweep with one covered-until variable computes the measure of [start, end) inside the union of all sessions, overlapping and touching ones included, with or without candle expansion |
| `MarketCalendar.SweepDay` | kaupo/market_calendar.py:73-88 | The inner loop over a day's sessions keeps the elapsed time equal to the measure of what was scanned |
| `MarketCalendar.OpenMeasureSplits` | kaupo/market_calendar.py:58-89 | Open time is additive over adjacent ranges |
| `MarketCalendar.ExpandedMeasureCountsBuckets` | kaupo/market_calendar.py:78-83 | With aligned bounds, expanded open time is the candle length times the number of UTC buckets that overlap an open session |
| `MarketCalendar.MeasureIsSetSize` | kaupo/market_calendar.py:58-89 | The measure counts each open instant once |
| `MarketCalendar.CandleDue` | kaupo/market_calendar.py:91-96 | A candle is due exactly when two candle lengths of expanded open time have passed since the baseline, less the slack |
| `MarketCalendar.AllDayDueIsTheDeadline` | kaupo/market_calendar.py:91-96 | For an all-day schedule the due rule is the poller's schedule-free deadline |
| `ZoneBoundary.WindowSufficesExactly` | kaupo/market_calendar.py:66-111 | For any one clock change: scanning only the padded window of local days tells every open instant of every range of every valid schedule, expanded or not, if and only if the change stays clear of midnight |
| `ZoneBoundary.MidnightFallBackLosesTime` | kaupo/market_calendar.py:66-73 | A concrete zone whose clocks fall back onto midnight, where the padded window misses open time |
| `CandleCoverage.Cover` | kaupo/data/xstocks_refresh.py:81-128 | Coverage compares the stored timestamps with exactly the buckets that hold open time, with first, last and the ten earliest missing; its expected count times the candle length is the expanded open time; refused exactly for an unordered or unaligned range |
| `CandleCoverage.ExpectedBuckets` | kaupo/data/xstocks_refresh.py:99-110 | The loop collects exactly the buckets with open time |
| `DailyEquity.Sample` | kaupo/backtest/sampling.py:11-70 | The reason code is exactly the first defect of the series; without one there is a valuation at every consecutive UTC midnight, each the last observation closed by then |
| `DailyEquity.Supported` | kaupo/backtest/sampling.py:50-60 | The gap loop accepts exactly when every scheduled instant from the first close to the last boundary lies in an observed candle |
| `DailyEquity.Valuations` | kaupo/backtest/sampling.py:62-70 | The valuation loop produces one value per midnight, each the last one closed at or before it |
| `DailyEquity.NoGapMeansEveryBucket` | kaupo/backtest/sampling.py:50-60 | When the candle divides the day, support means that every bucket with open time was itself observed |
| `DailyEquity.ReturnsExist` | kaupo/backtest/sampling.py:11-70 | Every valuation of an accepted series is finite and positive, at a UTC midnight, and the value of the last observation closed by then |
| `DailyEquity.ValuationsReach` | kaupo/backtest/sampling.py:38-48 | The valuations reach from the first midnight at or after the first close to the last one at or before the end, the last close unless one is given |
| `DailyEquity.DefectsAre` | kaupo/backtest/sampling.py:24-36 | Which defect the points have: a value that is not finite and positive, then a time that does not increase, then one off the candle grid |
| `PortfolioSteps.JoinedSteps` | kaupo/core/portfolio_engine.py:81-99 | The join terminates, and whatever the lists every pair sees exactly its own list; when the lists ascend it is the time-ordered join |
| `PortfolioSteps.JoinIsUnique` | kaupo/core/portfolio_engine.py:81-99 | A time-ordered step sequence is determined by what each pair sees in it |
| `UniverseJoiner.JoinerParity` | kaupo/core/runner.py:411-457 | When each pair's arrivals ascend, emitted steps followed by the pending ones in order equal joined_steps of the arrivals exactly when nothing was dropped |
| `UniverseJoiner.EveryRunKeepsInvariant` | kaupo/core/runner.py:411-457 | In every run of arrivals and emission sweeps step times strictly increase and the accepted candles are exactly those emitted or pending, once each |
| `UniverseJoiner.NewTime` | kaupo/core/runner.py:415-425 | An accepted candle brings a time its pair has not had, emitted or pending |
| `UniverseJoiner.SweepIsPrompt` | kaupo/core/runner.py:446-457 | A sweep emits only steps that are complete or past their deadline, and stops in front of one that is neither |
| `UniverseJoiner.SweepMoves` | kaupo/core/runner.py:446-457 | A sweep only moves steps from the front of the ordered buffer to the output |
| `UniverseJoiner.DeadlineIsFirstArrivalPlusGrace` | kaupo/core/runner.py:424-425 | In every run a buffered step's deadline is its first accepted candle's arrival plus the grace |
| `UniverseJoiner.ArrivalIsFiled` | kaupo/core/runner.py:415-425 | In every run a candle is accepted exactly when nothing at or after its time was sent out and its pair has no candle of that time; output and buffer then hold it and nothing else new, and a refused one changes neither |
| `UniverseJoiner.UniverseCandleJoiner.Emit` | kaupo/core/runner.py:446-457 | The emission loop equals the sweep of the buffers, one clock reading per step considered |
| `UniverseJoiner.ChainPersistUniverse` | kaupo/core/runner.py:464-485 | Every pair sees its warm-up list followed by exactly its newer live candles, strictly ascending across the seam |
| `OrderFlow.CacheIsDirectQuery` | kaupo/core/orderflow.py:224-255 | In every run of updates over a growing table, with no row landing older than the refresh start, the cache equals the newest cap rows at or before the clock after every update, whichever way the clock moves |
| `OrderFlow.RefreshIsExact` | kaupo/core/orderflow.py:233-244 | From an exact cache the refresh equals the direct query if and only if the older rows the query still needs are unchanged |
| `OrderFlow.LateRowIsMissed` | kaupo/core/orderflow.py:233-244 | A concrete row that lands before the refresh window and is missed |
| `OrderFlow.Refresh` | kaupo/core/orderflow.py:233-244 | The cut loop and the merge equal the refreshed cache, for ticks and for book snapshots |
| `OrderFlow.BucketTickFlow` | kaupo/core/orderflow.py:67-104 | The accumulator loop equals grouping the ticks by candle bucket: counts and volumes per side and the largest trade of the newest n closed buckets |
| `OrderFlow.FlowIgnoresOpenBuckets` | kaupo/core/orderflow.py:84-88 | Tick histories that agree on the closed buckets give the same flow |
| `OrderFlow.FlowIsNewestClosed` | kaupo/core/orderflow.py:94-104 | The flow lists the newest n closed buckets in order and skips none after its first |
| `FlowTotals.FlowIsItsTicks` | kaupo/core/orderflow.py:67-104 | Each bucket of the flow counts the buys and sells traded in it and carries its largest trade; together the buckets hold, side by side, exactly the ticks from the first one's start to the last candle boundary at or before the clock |
| `OrderFlow.DbOrderFlowProvider.Update` | kaupo/core/orderflow.py:224-231 | An update refreshes both caches of one pair and no other |
| `XStocks.NeverStuckExactly` | kaupo/data/xstocks.py:297-325 | No page of at least n trades ever gets stuck, however the pages split, if and only if a page of n trades reaches past the trades just before the range and past the tie group of every trade it may stop at |
| `XStocks.TradesBetween` | kaupo/data/xstocks.py:297-325 | The paged stream is always a prefix of the trades in [first, stop) and ends with the error of its walk; it is exactly them, in order and without an error, if and only if no page gets stuck |
| `XStocks.PagingIndependence` | kaupo/data/xstocks.py:297-325 | When every full page is longer than any tie group and the last tie group cannot be split, no page gets stuck, however the pages split |
| `XStocks.SplitLastTieFails` | kaupo/data/xstocks.py:322-323 | A concrete log without a full page of one timestamp on which the walk ends incomplete, with a cursor that did not advance |
| `XStocks.TiesStreamFails` | kaupo/data/xstocks.py:322-323 | On that log the client itself ends with that error |
| `XStocks.HonestPage` | kaupo/data/xstocks.py:302-313 | Of an honest page the client keeps exactly the trades past the ones already read, and reports no error |
| `XStocks.Deduplicate` | kaupo/data/xstocks.py:304-313 | The loop drops what the previous page held, and reports changed and older trades |
| `XStocks.StreamCandles` | kaupo/data/xstocks.py:272-283 | The streamed candles are grouping by bucket: first, highest, lowest and last price and total size; a failing stream never yields the bucket it was filling |
| `XStocks.HistoricalCandles` | kaupo/data/xstocks.py:237-283 | When no page gets stuck the candles group exactly the log's trades between the whole buckets of the range, and an unordered range is refused |
| `ExchangeTrades.AggregateConserves` | kaupo/venues/kraken_live.py:123-142 | One fill from an order's trades keeps their size, fee and notional, and their tier when they agree on it |
| `LiveBooks.AggregateIsItsTrades` | kaupo/venues/kraken_live.py:123-142 | The fill of one order's trades is on their side, stamped with the newest, and moves position and cash by exactly the sum of what they moved, fees included |
| `ExchangeTrades.AgreedMeans` | kaupo/venues/kraken_live.py:111-120 | The agreed tier is the one every trade that reports one shares, Mixed when they differ, none when none reports one |
| `ExchangeTrades.GroupByTxid` | kaupo/venues/kraken_live.py:549-553 | The dictionary holds every order's trades in order, and its insertion order is the order of first trades |
| `LiveProtocol.ExactlyOnce` | kaupo/venues/kraken_live.py:530-547 | For any interleaving of executions, placements, cancels, polls and poll failures no trade is emitted twice, and none the reconciler had read is emitted at all |
| `LiveProtocol.PollCatchesUp` | kaupo/venues/kraken_live.py:530-565 | After a successful poll every trade logged since the hand-over has been emitted, and the fills of every exchange order carry exactly the size it executed since |
| `LiveBooks.PollFollowsMoney` | kaupo/venues/kraken_live.py:530-565 | After a successful poll the fills of every exchange order have moved position and cash by exactly the signed sizes and the money, fees included, that it executed since the hand-over |
| `LiveProtocol.UnreadIsExact` | kaupo/venues/kraken_live.py:537-547 | What a successful poll brings is exactly what was logged and not read before |
| `LiveProtocol.StepKeeps` | kaupo/venues/kraken_live.py:262-270 | Every step of exchange and venue keeps the protocol invariant |
| `LiveProtocol.PollCursor` | kaupo/venues/kraken_live.py:540-546 | Moving the cursor to the newest trade and remembering the ids at its time keeps everything read behind the cursor and nothing else |
| `CancelThenPoll.CancelThenPollIsFinal` | kaupo/venues/kraken_live.py:518-528 | On a candle whose cancel and poll succeed, an order leaving tracking has emitted fills whose sizes sum to everything the exchange ever executes for it, however the run continues, and is reported expired exactly when it executed nothing |
| `CancelThenPoll.ExpiredIsUnfilled` | kaupo/venues/kraken_live.py:610-626 | Whatever the poll answered, an order leaving tracking is reported expired exactly when no trade of it has been emitted |
| `CancelThenPoll.StuckStaysTracked` | kaupo/venues/kraken_live.py:518-528 | An order whose cancel failed stays tracked |
| `CancelThenPoll.ExpiredReportIsRight` | kaupo/venues/kraken_live.py:518-536 | In every run an expired report of an order whose cancel succeeded is right if and only if the poll succeeded, or a trade of it was emitted before, or it executed nothing |
| `CancelThenPoll.FailedPollMisreports` | kaupo/venues/kraken_live.py:530-536 | A concrete run in which the poll after the cancel fails and an executed order is reported expired |
| `KrakenVenue.KrakenVenue.OnCandle` | kaupo/venues/kraken_live.py:262-270 | The candle close: prune, cancel what is tracked, poll, turn new trades into fills, retire what is not stuck |
| `KrakenVenue.KrakenVenue.FillsFromTrades` | kaupo/venues/kraken_live.py:549-565 | The loop turns each order's trades into one fill, stamps the order or adopts an unattributed one |
| `KrakenVenue.KrakenVenue.Finalize` | kaupo/venues/kraken_live.py:610-626 | Stuck and filled orders are left alone, the rest expire, and only stuck ones stay tracked |
| `LiveOrders.TradesAreFiled` | kaupo/venues/kraken_live.py:549-608 | The fills of a poll are written, with price, time, fee and tier, on the order whose txid traded, or reported as a new order with its trades' side and size, and no other order moves |
| `LiveOrders.TrackedOrderEnds` | kaupo/venues/kraken_live.py:262-270 | Over a live candle a tracked order is filled by its trades, else stays as it was while stuck or filled before, else is cancelled and reported as expired |
| `LiveOrders.PlacementIsFiled` | kaupo/venues/kraken_live.py:192-260 | An accepted placement is open, tracked and found by its txid; a refused or declined one is on file as ended and reported |
| `KrakenVenue.KrakenVenue.CancelTracked` | kaupo/venues/kraken_live.py:518-528 | Returns exactly the tracked orders whose cancel failed |
| `KrakenVenue.PruningForgetsOnlyClosed` | kaupo/venues/kraken_live.py:628-641 | What is tracked or still open stays; a trade of a remembered txid is filed under the same order as before and any other becomes an unattributed one; pruning again forgets nothing more |
| `LiveReconcile.BooksFollowTheExchange` | kaupo/core/live_reconcile.py:205-310 | Across a crash, what was recorded, what reconciliation recovered behind the newest recorded fill and what the venue then reports add up to everything the exchange executed, order by order and up to the tolerance, if and only if what the books lacked was in reach of the window; never to more |
| `LiveBooks.PositionFollowsTheExchange` | kaupo/core/live_reconcile.py:205-310 | Across a crash, the position recorded, recovered and reported of an order on one side is that side's sign times its size, so it follows the exchange exactly when size does |
| `LiveBooks.CashFollowsTheExchange` | kaupo/core/live_reconcile.py:205-310 | And cash: with all earlier trades in the window, the books end up off the exchange's money by what the recorded part was off its pro-rata share, and not at all when nothing was recorded |
| `LiveReconcile.CompleteWindowConserves` | kaupo/core/live_reconcile.py:331-365 | When the window holds all trades of an order, recorded plus recovered is the exchange total up to the tolerance |
| `LiveReconcile.ReconciledWithinTolerance` | kaupo/core/live_reconcile.py:331-365 | In general it is within the tolerance if and only if the books already were, or what is older than the window is within it and the rest was recovered |
| `LiveReconcile.PartialWindowLosesSize` | kaupo/core/live_reconcile.py:326-365 | A concrete order that executed over more than the margin and whose remainder is not recovered |
| `LiveReconcile.SecondPassRecoversNothing` | kaupo/core/live_reconcile.py:248-259 | Once all recovered fills are recorded, a second pass, whose window has moved with them, recovers nothing |
| `LiveReconcile.SecondPassRecoversTheRest` | kaupo/core/live_reconcile.py:248-259 | After the first k recovered fills were recorded a second pass recovers exactly the rest if and only if every trade of each remaining order is at or after the newest recorded fill less the margin |
| `LiveReconcile.SecondPassAfterGrowth` | kaupo/core/live_reconcile.py:248-259 | When the exchange executed more in between, the second pass leaves the books of an order within the tolerance of everything it executed by then if and only if what they lacked was in reach of the moved window, and never with more |
| `LiveReconcile.PartialRecordLosesAnOrder` | kaupo/core/live_reconcile.py:248-259 | A concrete flush in the middle of the list after which the other order is never recovered |
| `LiveReconcile.RemainderIsProRata` | kaupo/core/live_reconcile.py:163-180 | A partly recorded order contributes its remainder at the average price, and its fee and the recorded part's make up the exchange's fee |
| `LiveBooks.OwedIsItsShare` | kaupo/core/live_reconcile.py:163-180 | What is recovered of an order moves the share of its money that its size is of the whole |
| `LiveBooks.ReconciledMoney` | kaupo/core/live_reconcile.py:331-365 | Recording the recovered fills adds to each order's books what its own fill moves, and to no other |
| `LiveReconcile.RecoverMissed` | kaupo/core/live_reconcile.py:331-365 | The loop over the sorted orders recovers what each owes the books, once |
| `LiveReconcile.ReconcileHandsOver` | kaupo/core/live_reconcile.py:248-259 | The cursor and the seen ids of a resumed run satisfy what exactly-once delivery needs |
| `LiveReconcile.FreshRunHandsOver` | kaupo/core/live_reconcile.py:260-266 | So do those of a fresh run, whose history stays out of the books |
| `LiveReconcile.DriftSeesTheResumedLedger` | kaupo/core/live_reconcile.py:375-400 | What the drift check compares with the account is the ledger the run resumes with, whenever it accepts the recovered fills |
| `LiveReconcile.ReconcileLive` | kaupo/core/live_reconcile.py:205-310 | The run starts exactly when the balances are known and agree, within dust, with the books after the recovered fills |
| `StartRules.OnlyStraysRefuse` | kaupo/core/live_reconcile.py:284-304 | A chain's own fills, recorded or recovered, never keep a run from starting; what reached the account from elsewhere does exactly when it exceeds 0.000001 of the base, or one unit of the quote where that is checked and the chain has a baseline |
| `StartRules.RefusalNamesTheStrays` | kaupo/core/live_reconcile.py:183-202 | A refusal names exactly what came from elsewhere, base and quote |
| `LiveReconcile.WithMissed` | kaupo/core/live_reconcile.py:382-400 | The carried size is the position plus the recovered fills' signed sizes |
| `LiveReconcile.CarriedCash` | kaupo/core/live_reconcile.py:284-285 | The carried cash is the cash plus the recovered fills' cash movements |

## Left out

- Databases, HTTP and exchange clients, retries, alerts, logging, recorders, the thread bridge, CLI, API and UI: stores are sequences or maps, exchange answers are parameters.
- Floating-point rounding, including the truncation of timestamps to milliseconds: the code mixes floats and Decimal, the model uses reals.
- The time-zone database: a zone is two functions, and `ZoneBoundary` derives what the sweep needs for one clock change at a time.
- Strategy code, indicators, statistics and report rendering.
- Aliasing of order objects: an order is a value in the table of its venue, and the engine's record of it is not modelled.
- Rejection deques, log texts and the history deque of the engines.
- Control probe commands other than kill, switch (the same halt) and pause; warm-up candles, which only fill the history.
- The exception path of the engines' run loop, and the recording of rows around a candle.
- Sell acceptance in a portfolio run: a pair without a candle keeps its orders pending over several decisions, so a sell can be rejected there.
- Step times across the warm-up seam of a portfolio run: only the order within each pair is kept.
- RiskManager.CashLeftOver: does not bound fees over a whole batch, because the code lowers the cash by notional only and the ledger is the backstop.
- RiskManager.BuysWithinCaps: leaves out approvals of size zero, which a minimum order value of zero lets through and which change nothing.
- RiskManager.PerpGrossCapped: covers market intents, because a limit intent is judged at its own price.
- ZoneBoundary.WindowSufficesExactly: takes one clock change at a time; several changes within one window are not combined. A session that starts inside a skipped hour is not modelled, because openings can then come out of order.
- Live placement: clamping to the notional ceiling, lot and tick rounding and exchange minimums are not modelled; a placement is accepted, refused or declined as marketable.
- KrakenVenue.KrakenVenue.OnCandle: leaves out `liquidate` and `cancel_all`, the manual close-out paths.
- LiveProtocol.PollCatchesUp: takes a successful poll to answer with every logged trade at or after the cursor; a page limit of the exchange's trade endpoint is not modelled.
- Exchange order names: a txid is a number, numbered in the sort order of the names it stands for.
- LiveReconcile.SecondPassRecoversTheRest: names the recovered fills themselves, for an exchange log that is the same in both passes; LiveReconcile.SecondPassAfterGrowth covers a log that grew, by size.
- XStocks.TradesBetween: the log is fixed while it is paged; trades that arrive meanwhile are not modelled. They are never before stop, which is at most the present.
- FillPrices.MarketFillsAtOpen: takes slippage from zero up to, not including, one and a positive open.
- LiveBooks.PositionFollowsTheExchange: takes orders whose logged trades have positive size and one side, as an exchange's do.
- Fee currencies, the daily order-flow aggregates and open-interest providers.
- Resume eligibility, strategy identity hashes, supervisor diffing, sweep expansion, settings and the job queue.
