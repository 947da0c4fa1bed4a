# Verified model of the trading bot

This project models the decision-making and money-handling core of a crypto trading bot and proves what it keeps.
The bot scores a market, sizes a trade under risk limits, records a trade plan, executes it on paper or on an exchange
testnet with protective exit orders, later synchronises those exits, and judges its own books. Beside that it backtests
its strategy, compares paper with testnet runs, deduplicates candles in a polling worker, throttles an endpoint, and
publishes documentation whose links it parses, rewrites and checks.

The files follow the program's parts:

- `Options.dfy`, `Numeric.dfy`: optional values; exact arithmetic with Python's half-even `round`.
- `OrderMath.dfy`: tick and step rounding, protection prices, the local exit detector, the quantity's wire format.
- `RiskEngine.dfy`, `FinalGate.dfy`, `RiskRuns.dfy`, `RiskSizing.dfy`: the risk engine and the gate behind it, whole runs
  of opening and closing trades under whatever each request brings and reports, and how more exposure changes the next
  trade.
- `Records.dfy`, `Execution.dfy`, `ExecutionRuns.dfy`, `Reconciler.dfy`, `ExecutionTheorems.dfy`, `TradingSession.dfy`:
  the rows, the exchange's possible answers, each API call as a function on the tables, the invariant of every run, the
  reconciler, the theorems, and the class whose methods do the calls step by step and are proved equal to the functions.
- `ExecutionMeaning.dfy`: what the words and numbers of the exchange's replies come to mean in the tables.
- `GoldenRule.dfy`, `ExitCleanup.dfy`: what whole runs of the API keep of the five-percent rule, and of cleaned-up exits.
- `Pairing.dfy`, `PairingTheory.dfy`: the two nearest-in-time pairing loops and what their matching is worth.
- `MarkdownLinks.dfy`, `LinkScanners.dfy`, `LinkDocuments.dfy`, `LinkAgreement.dfy`, `LinkReplacement.dfy`,
  `LinkSwaps.dfy`, `LinkRereading.dfy`, `LinkRoundTrip.dfy`: the link parser, the rewriting and the checking scanner, whole
  documents with fences, the agreement of the two scanners, and whether a replaced link, a rewritten line and a rewritten
  document read back.
- `Indicators.dfy`, `Backtest.dfy`, `BacktestTheory.dfy`, `BacktestSelection.dfy`, `WalkForward.dfy`,
  `WalkForwardTheory.dfy`, `BacktestMeaning.dfy`: averages and strength index, the simulator and its metrics, time order and
  conservation, parameter selection, the walk-forward run, and what the reported figures mean.
- `Worker.dfy`: the worker's candle deduplication under arbitrary interleaving.
- `RateLimiter.dfy`: the evicting rate limiter.

The exchange is an oracle: every call takes a record of answers (any payload, a failure, or a method the client does not
have), and the theorems hold for all of them. Times, generated client order ids and path resolution are parameters too.
Prices, cash and units are exact reals; every `round(x, n)` of the source is kept.

Where the code falls short of what it or its documentation promises, the code is modelled as it is, a concrete case is
proved, and so is the condition under which the promise holds:

- Step rounding rounds a second time, to a number of decimals derived from the step. That is harmless exactly when the
  step is itself a number with that many decimals (`OrderMath.StepExactIff`), which every power of ten is; 1.5 units at
  step 0.5 are sent as 2, and no step that is not such a number is safe from sending too much
  (`OrderMath.NeverOverspendsExactly`). For prices and ticks it is the same
  (`OrderMath.TickExactIff`). The second rounding moves a level by at most half a unit of the derived decimals, so the
  planned distances hold up to that for every tick (`OrderMath.ProtectionBrackets`). It can lift a long stop above the mark
  (`OrderMath.CoarseTickMisfires`); a tick is safe for all plans, fills and marks exactly when none of finitely many
  multiples is moved by as much as the safety buffer there (`OrderMath.NeverFiresExactly`).
- "Never more than five percent" (README.md, line 11, of the repository) is kept by the service only as far as its callers
  report. Each request brings its own limits and its own list of open positions; nothing compares that list with the plans
  on record, and the worker sends none. Whatever the limits, the plans not yet closed stay below 4.8 percent plus the most
  that a request left unreported (`GoldenRule.PlansStayBelowFivePercent`), so the rule holds in all runs that leave at most
  d unreported if and only if d is at most 0.2 (`GoldenRule.GoldenRuleExactly`), and requests that report nothing take the
  total as high as one likes (`GoldenRule.SilentPlansAddUp`). The risk engine without the gate, asked by requests that
  report everything, keeps the rule if and only if their account limits leave room for the rounding of their reports
  (`RiskRuns.EngineRuleExactly`).
- The engine alone never grants more because of more exposure, but the final gate can turn that around; exactly when is
  `RiskSizing.GateOverturnsExactly`.
- A rewritten link is meant to lead to the published document. It reads back with its new address and old title exactly
  when the new target is balanced and the address one word (`LinkReplacement.ReplacementReadsBack`); an address written in
  angle brackets loses them and breaks at its first white space (`LinkReplacement.AnglesAreLost`).
  Where old and new addresses are written without characters of the link syntax, a whole rewritten document reads back
  (`LinkRoundTrip.DocumentReadsBack`); a bracket in an old address alone can let a neighbouring label swallow the rewritten
  link (`LinkRoundTrip.BracketsComeLoose`).
- A failed placement cleans up after itself, except for a client without algo orders whose plain stop was accepted before
  the take-profit failed (`ExecutionTheorems.FailedPlacementCleansUpExactly`).
- Forgetting old keys in the rate limiter, whose clock is read before its lock is taken, changes no verdict in any run if
  and only if calls are handled at most five seconds out of clock order (`RateLimiter.EvictionInvisibleExactly`).
- The two comparison reports agree in their totals exactly when none of the testnet plans carries one of the events for
  which the shadow report leaves plans out (`PairingTheory.ServicesAgreeExactly`).
- A paper-executed plan is never judged healthy by the reconciler (`ExecutionTheorems.HealthyExactly`).
- The worker's marks can be trusted in every interleaving exactly when no symbol and timeframe is listed twice
  (`Worker.DedupeHoldsExactlyForDistinctKeys`).
- The tolerant comparison of backtest results is a strict order only because the metrics are rounded first
  (`BacktestSelection.ToleranceAloneIsNoOrder`, `BacktestSelection.BetterIsAhead`).

## Model

| member | source | states |
|---|---|---|
| `OrderMath.StepExactIff` | apps/api/app/services/testnet_trading_service.py:269-274 | step rounding equals the plain floor to the step for every quantity if and only if the step is a decimal size |
| `OrderMath.NeverOverspendsExactly` | apps/api/app/services/testnet_trading_service.py:269-274 | no quantity is rounded to more than itself if and only if the step is a decimal size |
| `OrderMath.TickExactIff` | apps/api/app/services/testnet_trading_service.py:301-312 | rounding a price down or up to a tick equals the plain floor or ceiling for every price if and only if the tick is a decimal size |
| `OrderMath.RoundToStepGreatest` | apps/api/app/services/testnet_trading_service.py:269-274 | for decimal steps the result is the greatest multiple of the step that is not above the raw quantity |
| `OrderMath.CoarseStepOverspends` | apps/api/app/services/testnet_trading_service.py:269-274 | with step 0.5 a raw quantity of 1.5 becomes 2 |
| `OrderMath.PowerOfTenIsDecimal` | apps/api/app/services/testnet_trading_service.py:273 | every power of ten from 1e-12 on is a decimal size for the derived precision |
| `OrderMath.ProtectionBrackets` | apps/api/app/services/testnet_trading_service.py:277-312 | for every tick, stop and take-profit keep the larger of planned distance and buffer from fill and mark, and are less than one tick further, up to half a unit of the derived decimals; for decimal-size ticks exactly so and on opposite sides |
| `OrderMath.FreshLevelsDoNotFire` | apps/api/app/services/testnet_trading_service.py:353-366 | the levels derived at a mark price do not trigger the local exit detector at that same mark, long or short, when the tick holds off, as every decimal size does, or else when both distances exceed what the second rounding moves |
| `OrderMath.NeverFiresExactly` | apps/api/app/services/testnet_trading_service.py:277-366 | for a given tick, fresh levels fire for no plan, fill and mark if and only if the tick holds off: each of finitely many multiples is moved by less than the safety buffer at its rounded value |
| `OrderMath.UsableTicksHoldOff` | apps/api/app/services/testnet_trading_service.py:301-312 | every decimal size holds off, and so does no tick at all |
| `OrderMath.AllAreSpared` | apps/api/app/services/testnet_trading_service.py:301-312 | the finitely many multiples stand for all |
| `OrderMath.CoarseTickMisfires` | apps/api/app/services/testnet_trading_service.py:301-312 | with tick 0.05 the second rounding makes the detector fire at once |
| `OrderMath.SerializeReadsBack` | apps/api/app/services/binance_client.py:230-236 | serialising succeeds exactly when twelve decimals leave something, prints without trailing zeros or dot, and reads back as the amount rounded to twelve decimals |
| `OrderMath.SizingSurvivesTheWire` | apps/api/app/services/testnet_trading_service.py:946-962 | on every decimal step the printed quantity denotes the sized one and the loss at the planned stop is at most the approved share of the capital |
| `RiskEngine.CorrelationMultiplier` | apps/api/app/services/risk_engine.py:115-143 | the loop yields the pressure sum capped at one and its multiplier |
| `RiskEngine.Suggest` | apps/api/app/services/risk_engine.py:345-376 | the suggested size, degraded by correlation pressure exactly when the guard is on, the pressure reaches the first band and the size is positive |
| `RiskEngine.Evaluate` | apps/api/app/services/risk_engine.py:305-568 | the whole decision: approval and reason, risk, notional, exposures before and after in all three scopes, cluster, multiplier and the list of events; and when there is none because its figures would not validate; a position of an approved notional loses the granted share of the capital at the stop, up to half a cent |
| `RiskEngine.NotionalRisksTheShare` | apps/api/app/services/risk_engine.py:533-535 | the notional of every approved request loses the granted share of the capital when the price falls from entry to stop, up to half a cent of notional |
| `RiskEngine.AfterAddsRisk` | apps/api/app/services/risk_engine.py:484-568 | in each circle the exposure reported after a trade is the one before and the granted risk, to the fourth decimal; after a rejection it is the one before |
| `RiskEngine.ScoreWeighs` | apps/api/app/services/risk_engine.py:209-224 | in hundredths the score is 40 of technical, 20 of fundamental, 20 of sentiment, 15 of confidence and 5 of liquidity, up to its rounding |
| `RiskEngine.SuggestedNothingExactly` | apps/api/app/services/risk_engine.py:227-303 | under the default policy nothing is suggested exactly for a score below sixty or an unknown regime; everything else is worth between 0.1316 and 1.2075 percent |
| `RiskEngine.PressureWeighs` | apps/api/app/services/risk_engine.py:115-132 | each position adds its share of the account limit, at most all of it, times the correlation of its cluster; one in the trade's own cluster never adds less than one of the same risk elsewhere |
| `RiskEngine.CorrelationIsOrdered` | apps/api/app/services/risk_engine.py:99-112 | correlation is symmetric and strongest within a cluster, and clusters nearer each other are correlated more |
| `RiskEngine.RegimeReadsMarket` | apps/api/app/services/risk_engine.py:70-85 | without a claim each regime is resolved exactly in its part of the market |
| `RiskEngine.ConfidenceFollowsMarket` | apps/api/app/services/risk_engine.py:177-207 | confidence is a percentage; more volatility speaks for high volatility and against all other regimes, more trend for a trend and against a sideways market, and transition is surest half-way |
| `RiskRuns.AnsweredExactly` | apps/api/app/schemas/trading.py:71-85 | a request is answered exactly when what it reports in the trade's cluster is at most a hundred percent; every approval is |
| `RiskEngine.ReasonTells` | apps/api/app/services/risk_engine.py:363-568 | the reason given agrees with the approval and with the events raised |
| `FinalGate.Judge` | apps/api/app/services/final_decision_gate.py:42-194 | the gate's verdict, score, tripped breakers and events; the breakers listed are exactly those that trip |
| `FinalGate.LiquidityCountsOnce` | apps/api/app/services/final_decision_gate.py:42-61 | in the gate's score liquidity weighs a fifth, regime confidence three tenths, and the signals half of what they weigh in the engine's, up to both roundings |
| `FinalGate.ClearedInNumbers` | apps/api/app/services/final_decision_gate.py:56-194 | through the default gate an approved trade is cleared exactly when volatility is below 6, liquidity above 20, confidence above 30, the portfolio below 4.8 and the weighted figures at 65, up to the roundings |
| `FinalGate.DecideTradePlan` | apps/api/app/services/trade_plan_service.py:25-63 | engine and gate together: approved only when both agree, otherwise zero risk and notional; verdict, reason and the events of both; no answer exactly when the engine has none |
| `RiskRuns.BeforeCovers` | apps/api/app/services/risk_engine.py:146-175 | the exposure the engine works with is one hundred, where it is capped, or at most half a unit of the fourth decimal below what the request reports, its own figure counted cut to four decimals; not below it at all when the reported positions have four decimals |
| `RiskRuns.GrantKeepsLimit` | apps/api/app/services/risk_engine.py:352-385 | a granted trade fits the limits of portfolio, symbol and cluster on top of what its request reports, up to that rounding |
| `RiskRuns.GrantBounds` | apps/api/app/services/risk_engine.py:484-535 | applied risk is never negative, positive when approved, and has four decimals when the limits do |
| `RiskRuns.LimitsHoldOverRuns` | apps/api/app/services/risk_engine.py:305-568 | at every state reached by opening approved trades and closing any, each request with its own limits and report, portfolio, every symbol and every cluster stay within any limits that cover those of all requests, plus the most that was left unreported and what rounding takes off a report |
| `RiskRuns.AccountCeiling` | apps/api/app/services/risk_engine.py:352-354 | the same for the total alone under the account ceiling and any bound on the requested account limits |
| `RiskRuns.FaithfulRunsHideNothing` | apps/api/app/services/risk_engine.py:146-175 | when each request reports exactly the open trades, nothing is left unreported in any scope |
| `RiskRuns.FaithfulRunsAreExact` | apps/api/app/services/risk_engine.py:146-175 | if the limits then have four decimals, rounding takes nothing off any report |
| `RiskRuns.OverrunIsReal` | apps/api/app/services/risk_engine.py:352-385 | the bounds are attained: five trades pass the last request's limit by exactly what it left unreported and what rounding took, with or without the gate |
| `RiskRuns.OverrunInEveryScope` | apps/api/app/services/risk_engine.py:352-385 | so do symbol and cluster limits, by what rounding takes |
| `RiskRuns.EngineRuleExactly` | README.md:11 | the engine alone, given full reports and account limits of at most c, keeps the golden rule in all runs if and only if c, or five if less, plus what rounding takes is at most five |
| `RiskRuns.GateHoldsOverRuns` | apps/api/app/services/final_decision_gate.py:94-105 | with the gate in the loop, whatever limits the requests bring, the total stays below the threshold up to what was left unreported and the rounding: half a unit below the first four-decimal figure that reaches it, strictly so when that figure's last unit is even; strictly below the threshold itself for limits with four decimals |
| `RiskRuns.GateCeiling` | apps/api/app/services/trade_plan_service.py:25-63 | through the default gate the total stays below 4.8 plus the most left unreported, over every run and for all limits |
| `RiskRuns.SilentTradesAddUp` | apps/worker/main.py:101-124 | n trades of a request that reports nothing put n times 1.2075 percent at risk, gate or not |
| `RiskSizing.MoreExposureNeverBuysMore` | apps/api/app/services/risk_engine.py:345-535 | appending any position never increases applied risk or notional |
| `RiskSizing.MoreExposuresNeverBuyMore` | apps/api/app/services/risk_engine.py:345-535 | the same for any list of further positions |
| `RiskSizing.SuggestionFollowsMarket` | apps/api/app/services/risk_engine.py:227-303 | a better score never suggests less risk and a more volatile market never more |
| `RiskSizing.ClaimedRegimeCannotLoosen` | apps/api/app/services/risk_engine.py:285-303 | in an observed high-volatility market no claimed regime earns more than the high-volatility one |
| `RiskSizing.GateOverturnsExactly` | apps/api/app/services/trade_plan_service.py:37-48 | with the gate the size grows exactly when the smaller portfolio was stopped as overheated and the larger one clears both judges |
| `RiskSizing.GateOverturnHappens` | apps/api/app/services/trade_plan_service.py:37-48 | a concrete pair of portfolios where it does |
| `Records.AlgoIdsResolveToAlgo` | apps/api/app/services/testnet_trading_service.py:49-75 | every reference built for an algo order is resolved as one again |
| `Records.MergeNeverDowngrades` | apps/api/app/services/testnet_trading_service.py:164-206 | merging a refreshed reply loses nothing known, undoes no progress, keeps a fill, and is idempotent |
| `Records.MergeTakesNews` | apps/api/app/services/testnet_trading_service.py:164-206 | a merged reply is up to date: it takes every positive number the refreshed one brings, and its word where it is further on |
| `Records.FillPriceFromTrades` | apps/api/app/services/testnet_trading_service.py:143-156 | the loop yields total quote over total counted quantity, or the fallback |
| `Records.ExecutedQuantityFromTrades` | apps/api/app/services/testnet_trading_service.py:158-162 | the loop yields the quantity sum, or the fallback |
| `Records.FillPriceIsAnAverage` | apps/api/app/services/testnet_trading_service.py:143-156 | the fill price lies between any bounds on the single fills |
| `Reconciler.Reconcile` | apps/api/app/services/execution_state_machine_service.py:11-104 | the report lists exactly the drifts that are present, and is healthy exactly when there is none; it counts the orders that traded and the open positions, and misses exits exactly for an open position without two different exit orders |
| `ExecutionTheorems.RunsAreConsistent` | apps/api/app/services/testnet_trading_service.py:578-1219 | after every run of create, paper-execute, testnet-execute and sync calls, status, positions, orders and failure events of each plan fit together |
| `ExecutionTheorems.ReconcilerVerdicts` | apps/api/app/services/execution_state_machine_service.py:11-104 | on reachable plans the reconciler never reports a missing position, a closed one under an executed plan, or several open ones; missing protection exactly for executed plans without a stored pair |
| `ExecutionTheorems.HealthyExactly` | apps/api/app/services/execution_state_machine_service.py:11-104 | exactly which reachable plans are judged healthy |
| `ExecutionTheorems.HistoryOnlyGrows` | apps/api/app/services/testnet_trading_service.py:578-1219 | no call deletes or rewrites rows: plans move forward only, events are append-only, closed stays closed |
| `ExecutionTheorems.NewlyExecuted` | apps/api/app/services/testnet_trading_service.py:923-944 | a plan becomes testnet-executed only by its own call, which found its symbol and side free |
| `ExecutionMeaning.ExecutesExactly` | apps/api/app/services/testnet_trading_service.py:896-1046 | an execution goes through exactly for an approved long or short plan on a free market, if it is enabled, the step leaves a quantity and the exchange accepts; a paper one for every approved plan |
| `ExecutionTheorems.OneTestnetExecutionPerMarket` | apps/api/app/services/testnet_trading_service.py:923-944 | at every reachable state at most one live testnet execution per symbol and side |
| `ExecutionTheorems.FailedSyncChangesNothing` | apps/api/app/services/testnet_trading_service.py:742-779 | when any protection refresh fails, no plan, order or position changes; the first failing order decides the outcome and only its warning is logged |
| `ExecutionTheorems.ProtectedCloseExactly` | apps/api/app/services/testnet_trading_service.py:749-794 | a protected plan closes exactly when every refresh succeeded and one order is filled |
| `ExecutionMeaning.ClosesByWords` | apps/api/app/services/testnet_trading_service.py:749-794 | a protected plan closes exactly when every protection order is answered and one answer says filled: the word Filled, of the actual order where there is one, of the plain order or the stored one; or Success for an algo order without an actual one |
| `ExecutionMeaning.QuietWordsCloseNothing` | apps/api/app/services/testnet_trading_service.py:77-90 | answers saying new, part-filled, triggered, cancelled, expired or rejected close nothing and are stored word for word |
| `ExecutionMeaning.CloseIsPutDown` | apps/api/app/services/testnet_trading_service.py:784-845 | the close is put down to the first order whose answer says filled; every other protection order is over afterwards or named by a warning |
| `ExecutionMeaning.LocalExitExactly` | apps/api/app/services/testnet_trading_service.py:607-740 | a plan without protection closes exactly when the mark has crossed a watched level, a close was sent and answered, and the confirmed reply says filled or executed what was held; the stored order is a stop if the stop was crossed, else a take-profit, priced by the reply |
| `ExecutionMeaning.OnlyTheMarkIsLost` | apps/api/app/services/testnet_trading_service.py:641-664 | a sync in its own session keeps all it did, except the fresh mark where an exit is due that the client cannot send |
| `ExecutionTheorems.FilledExitCleansUp` | apps/api/app/services/testnet_trading_service.py:793-845 | position and plan close together, nothing else does, and every other protection order ends terminal or is named by a warning of that call |
| `ExecutionTheorems.FailedPlacementCleansUpExactly` | apps/api/app/services/testnet_trading_service.py:438-522 | after a failed placement every accepted order is cancelled or named, except in exactly one situation |
| `ExecutionTheorems.StoredPairLeavesNoStray` | apps/api/app/services/testnet_trading_service.py:402-576 | when a pair is stored, every other order accepted on the way is cancelled or named |
| `ExecutionTheorems.AcceptedOrdersStayAccountedFor` | apps/api/app/services/testnet_trading_service.py:368-576 | over every run, each protection order accepted during an execution is at the end still stored, was cancelled, or is named by a warning, unless its placement was that one situation |
| `ExecutionTheorems.TriggeredIsClosed` | apps/api/app/services/testnet_trading_service.py:847-894 | the triggered count a batch sync reports is the number of plans it closed, and closed durably |
| `ExitCleanup.FilledExitsStayCleanedUp` | apps/api/app/services/testnet_trading_service.py:742-894 | at every reachable state a plan with a filled exit on record is closed, and each of its protection orders has ended or is named by a warning on record |
| `GoldenRule.PlansStayBelowFivePercent` | apps/api/app/services/trade_plan_service.py:25-113 | at every state reached by API calls the plans not yet closed put less than 4.8 percent at risk plus the most that a proposal left unreported, whatever limits the proposals bring |
| `GoldenRule.GoldenRuleExactly` | README.md:11 | in all runs that leave at most d unreported the plans not yet closed keep to five percent if and only if d is at most 0.2 |
| `GoldenRule.CallsFollowSteps` | apps/api/app/services/trade_plan_service.py:25-113 | proposals made through the API carry the risk, and the shortfall, of the same requests in a run of engine and gate |
| `GoldenRule.SilentPlansAddUp` | apps/worker/main.py:101-124 | n approved proposals that report nothing, as the worker's do, put n times 1.2075 percent at risk |
| `ExecutionTheorems.UnprotectedAfterFailure` | apps/api/app/services/testnet_trading_service.py:337-350 | after a failed placement the levels a sync will watch are the ones derived then |
| `ExecutionTheorems.FreshFailureIsNotClosedAtOnce` | apps/api/app/services/testnet_trading_service.py:607-636 | a sync at the same mark price triggers nothing and leaves every table as it is, under the condition of `OrderMath.FreshLevelsDoNotFire` |
| `ExecutionTheorems.CreatedPlanSizes` | apps/api/app/services/trade_plan_service.py:40-89 | an approved plan has positive risk and a real stop distance, a blocked one is worth nothing |
| `ExecutionTheorems.CreatedPlanNotional` | apps/api/app/services/trade_plan_service.py:40-89 | the notional of an approved plan loses the plan's share of its capital at its stop, up to half a cent of notional |
| `ExecutionTheorems.PaperPositionRisk` | apps/api/app/services/paper_trading_service.py:25-49 | a paper position loses the approved share of the capital at the planned stop, up to half a unit of the sixth decimal of its size |
| `ExecutionTheorems.TestnetOrderRisk` | apps/api/app/services/testnet_trading_service.py:946-1046 | whatever the exchange answers, the stored testnet order loses at most the approved share of the capital at the planned stop, and its text on the wire is its quantity, for every decimal step |
| `ExecutionTheorems.StoredEntryIsSound` | apps/api/app/services/testnet_trading_service.py:1048-1170 | whatever the exchange answers, stored prices are positive, order and position agree, and the entry is empty only for a reply naming neither a fill nor a working order |
| `ExecutionMeaning.ExecutionReadsReply` | apps/api/app/services/testnet_trading_service.py:1048-1170 | without fills the stored price is the reply's average price, else its own price if it speaks of fills, else quote over quantity, and the planned entry exactly when none exists; status, executed quantity, leverage, mark and gain are read off the replies |
| `ExecutionMeaning.ExecutionReadsFills` | apps/api/app/services/testnet_trading_service.py:143-162 | with fills the stored price lies between any two prices all of them were struck between, and their quantities add up to the executed one |
| `ExecutionMeaning.StoredPairGuards` | apps/api/app/services/testnet_trading_service.py:368-576 | the stored stop and take-profit guard fill and mark on their own sides of the market at the planned distances, up to a tick and its second rounding, and carry the words of the replies |
| `ExecutionMeaning.ConfirmationCounts` | apps/api/app/services/testnet_trading_service.py:208-256 | a reply that knows price and quantity and is past waiting is believed as it is; one without an average price takes it from the refreshed reply, unless the order died unfilled |
| `ExecutionMeaning.NumbersResolve` | apps/api/app/services/testnet_trading_service.py:49-75 | an order number is stored so that it is asked and cancelled by that very number, algo numbers as such |
| `TradingSession.Session.CreateTradePlan` | apps/api/app/services/trade_plan_service.py:65-113 | appends the decided plan and, in order, every event of engine and gate, changes nothing else; nothing at all when the request is not answered |
| `TradingSession.Session.ExecuteOnPaper` | apps/api/app/services/paper_trading_service.py:10-57 | the tables and the answer equal the paper-execution function on the old tables |
| `TradingSession.Session.CancelExchangeOrder` | apps/api/app/services/testnet_trading_service.py:92-141 | true exactly when the exchange can be and is asked successfully; otherwise one warning under the caller's event |
| `TradingSession.Session.PlaceProtectionOrders` | apps/api/app/services/testnet_trading_service.py:368-576 | orders, clean-up and events of the algo attempt, the legacy fallback and the failure, as one function of the answers |
| `TradingSession.Session.ConfirmOrder` | apps/api/app/services/testnet_trading_service.py:208-256 | the merged reply, or the original with a warning |
| `TradingSession.Session.TrySend` | apps/api/app/services/testnet_trading_service.py:901-1046 | every refusal in its order with its event, or nothing logged and the order sent |
| `TradingSession.Session.BuildEntry` | apps/api/app/services/testnet_trading_service.py:1048-1170 | entry order, position and warnings from confirmation, fills and position risk |
| `TradingSession.Session.ExecuteOnTestnet` | apps/api/app/services/testnet_trading_service.py:896-1219 | the tables and the answer equal the testnet-execution function on the old tables |
| `TradingSession.Session.RefreshProtection` | apps/api/app/services/testnet_trading_service.py:749-779 | asks about every protection order, stops at the first problem, changes no row |
| `TradingSession.Session.WriteStatuses` | apps/api/app/services/testnet_trading_service.py:781-787 | writes every status back and finds the first filled order |
| `TradingSession.Session.SettleSiblings` | apps/api/app/services/testnet_trading_service.py:807-837 | cancels what is still live and names every order that could not be cancelled |
| `TradingSession.Session.SyncWithProtection` | apps/api/app/services/testnet_trading_service.py:742-845 | the two-phase refresh, equal to its function on the old tables |
| `TradingSession.Session.SyncWithoutProtection` | apps/api/app/services/testnet_trading_service.py:607-740 | the synthetic local exit, equal to its function on the old tables |
| `TradingSession.Session.SyncExitOrders` | apps/api/app/services/testnet_trading_service.py:578-845 | the whole exit sync of one plan, equal to its function on the old tables |
| `TradingSession.Session.SyncInOwnSession` | apps/api/app/api/deps.py:6-11 | a sync whose session closes afterwards: what it did not commit is rolled back |
| `TradingSession.Session.SyncOpenExits` | apps/api/app/services/testnet_trading_service.py:847-894 | the sync of every plan with an open position, in turn, and the exact report: open, checked and triggered counts and the results in order; uncommitted changes of the last calls are dropped |
| `Pairing.FindMatch` | apps/api/app/services/shadow_run_reporting_service.py:38-60 | the first testnet plan at the least time distance among the compatible ones, if any |
| `Pairing.PairPlans` | apps/api/app/services/shadow_run_reporting_service.py:38-85 | counters and difference lists are those of the greedy matching |
| `Pairing.BuildReport` | apps/api/app/services/execution_parity_service.py:23-99 | the same matching, reporting the pairs, their differences and the averages of those |
| `PairingTheory.MatchConserves` | apps/api/app/services/shadow_run_reporting_service.py:38-85 | every plan of either list is in exactly one pair or left over, as often as given |
| `PairingTheory.MatchCounts` | apps/api/app/services/shadow_run_reporting_service.py:38-85 | pairs and leftovers add up to the inputs |
| `PairingTheory.MatchIsSound` | apps/api/app/services/shadow_run_reporting_service.py:38-85 | pairs agree on side, timeframe and day; no leftover fits a leftover; no free testnet plan was nearer to a paired paper plan |
| `PairingTheory.GreedyIsHalfOptimal` | apps/api/app/services/shadow_run_reporting_service.py:38-85 | any set of disjoint compatible pairs is at most twice as large |
| `PairingTheory.HalfIsTight` | apps/api/app/services/shadow_run_reporting_service.py:38-85 | the factor two is reached |
| `PairingTheory.MatchDecomposes` | apps/api/app/services/execution_parity_service.py:34-73 | a mixed matching is, timeframe by timeframe, the matching of that timeframe's own plans |
| `PairingTheory.ReportReadsPairs` | apps/api/app/services/execution_parity_service.py:60-75 | each row of a pair gives the testnet plan's differences in percent of the paper plan's figures |
| `PairingTheory.AverageIsMean` | apps/api/app/services/execution_parity_service.py:86-88 | a reported average is the mean of its differences to four decimals |
| `PairingTheory.TotalsDecompose` | apps/api/app/services/shadow_run_reporting_service.py:148-170 | the totals of a list are the sums of those of its timeframe groups |
| `PairingTheory.ServicesAgreeExactly` | apps/api/app/services/shadow_run_reporting_service.py:121-170 | the per-timeframe totals of one symbol sum to the parity report's totals if and only if no testnet plan is left out for a protection failure or local exit |
| `PairingTheory.ServicesDisagree` | apps/api/app/services/shadow_run_reporting_service.py:121-146 | a pair the parity report compares is an unmatched paper plan in the shadow report |
| `PairingTheory.GroupPlans` | apps/api/app/services/shadow_run_reporting_service.py:148-161 | grouping by symbol and timeframe keeps every plan, in order |
| `PairingTheory.GroupIsOnly` | apps/api/app/services/shadow_run_reporting_service.py:148-161 | a group of one symbol's list is its timeframe's sublist |
| `MarkdownLinks.IsMarkdownEscaped` | scripts/sync_outline_docs.py:369-376 | true exactly for an odd run of backslashes before the cursor |
| `MarkdownLinks.ParseLinkAt` | scripts/sync_outline_docs.py:290-349 | the cursor loops find the link the grammar function defines, or none |
| `MarkdownLinks.ParseExactly` | scripts/sync_outline_docs.py:290-349 | a link is parsed exactly where its printed form stands with a balanced label and target, so parsing and printing undo each other in every context |
| `LinkScanners.ScannersAgree` | scripts/check_markdown_links.py:63-112 | from any position the checker recognises the rewriter's links and then exactly what lies behind the first unclosed backtick run |
| `LinkScanners.RewriterIsPrefix` | scripts/sync_outline_docs.py:399-462 | on every line the rewriter's spans are a prefix of the checker's, equal exactly when nothing lies behind an unclosed run |
| `LinkDocuments.ReplaceSegment` | scripts/sync_outline_docs.py:399-462 | the loop ends and yields the line with text between recognised links verbatim and each link replaced or kept |
| `LinkDocuments.RewriteLocalLinks` | scripts/sync_outline_docs.py:464-489 | fenced lines and fence markers verbatim, every other line rewritten |
| `LinkDocuments.SplitJoins` | scripts/sync_outline_docs.py:464-489 | splitting into lines and joining loses nothing |
| `LinkDocuments.NothingToRewrite` | scripts/sync_outline_docs.py:379-489 | when no recognised link outside a fence is due, the text comes back unchanged |
| `LinkDocuments.CollectLinksFromLine` | scripts/check_markdown_links.py:63-112 | the addresses of the checker's spans, in order, without empty ones and anchors |
| `LinkDocuments.CollectLinksFromText` | scripts/check_markdown_links.py:115-139 | those of every line outside the fences, with its line number |
| `LinkAgreement.TerminatorAddsNothing` | scripts/check_markdown_links.py:115-139 | scanning a line without its terminator finds the same links |
| `LinkAgreement.RewriterSeesNoMore` | scripts/sync_outline_docs.py:464-489 | on every line of every text the rewriter recognises a prefix of what the checker does |
| `LinkAgreement.RewrittenLinksWereChecked` | scripts/sync_outline_docs.py:379-489 | every link that gets rewritten is among those the checker collected for that line |
| `LinkAgreement.FencesOpenAndClose` | scripts/sync_outline_docs.py:465-490 | outside a fence only a line of three marks leads into one; all up to the first line of the same mark, at least as long, is inside, and what follows that line is outside |
| `LinkAgreement.RewrittenLineByLine` | scripts/sync_outline_docs.py:464-492 | the rewritten text is its lines one after the other: those in and around fences as they were, the others with their links shown at their new addresses |
| `LinkReplacement.ReplacementReadsBack` | scripts/sync_outline_docs.py:379-397 | wherever it is put, the replacement of a parsed link is read back with its label, the new address and the old title if and only if the new target is balanced and the address separable from the title |
| `LinkReplacement.SplitsExactly` | scripts/sync_outline_docs.py:269-287 | an address joined with a title splits off again if and only if it is separable: it starts with neither white space nor an angle bracket, and its first unescaped white space is the one in front of the title |
| `LinkReplacement.AnglesAreLost` | scripts/sync_outline_docs.py:379-397 | an unpublished path in angle brackets with white space in it gets an address that is not separable |
| `LinkSwaps.SameSpans` | scripts/sync_outline_docs.py:399-462 | exchanging one plainly written address for another leaves every other link of a line what it is, for both scanners and from any position |
| `LinkRereading.LineReadsBack` | scripts/sync_outline_docs.py:399-462 | on a line whose replaced links have plain addresses, old and new, both scanners read the rewritten line as the same links at the new addresses |
| `LinkRereading.LeadsToPublished` | scripts/sync_outline_docs.py:379-397 | a plainly written link leads to the published address of its file, else to its web view or, for an image, the raw file, and keeps its anchor; without a base it stays |
| `LinkRereading.LineIsDone` | scripts/sync_outline_docs.py:399-462 | if the new addresses lead away from the repository, rewriting that line again changes nothing |
| `LinkRoundTrip.SplitsAfterRewriting` | scripts/sync_outline_docs.py:464-489 | the rewritten text splits into the rewritten lines, with the same terminators |
| `LinkRoundTrip.DocumentReadsBack` | scripts/check_markdown_links.py:115-139 | in a document of such lines every line stays where it is, fenced lines as they were, and on the others rewriter and checker read the same links at the new addresses |
| `LinkRoundTrip.RewritingTwice` | scripts/sync_outline_docs.py:464-489 | a second rewriting of such a document changes nothing when the new addresses lead away |
| `LinkRoundTrip.BracketsComeLoose` | scripts/sync_outline_docs.py:399-462 | a line whose old address holds a bracket: after the rewriting another link swallows the rewritten one |
| `Indicators.EmaSeries` | apps/api/app/services/backtesting_service.py:190-201 | every entry is the average of the values up to it, absent before the period is filled |
| `Indicators.StreamingEma` | apps/api/app/services/indicator_service.py:22-29 | the last entry of the series for every list longer than the period, nothing otherwise |
| `Indicators.RsiSeries` | apps/api/app/services/backtesting_service.py:203-222 | every entry is the index of the values up to it, absent up to the period |
| `Indicators.StreamingRsi` | apps/api/app/services/indicator_service.py:32-50 | the last entry of the series for every list longer than the period, nothing otherwise |
| `Indicators.EmaStaysInRange` | apps/api/app/services/backtesting_service.py:190-201 | the average lies between any bounds on the closes read so far |
| `Indicators.EmaIsWeightedSum` | apps/api/app/services/backtesting_service.py:190-201 | the recurrence equals its defining weighted sum: the first mean faded once per later close, and each later close weighted by its age |
| `Indicators.WeightMatchesMean` | apps/api/app/services/backtesting_service.py:195 | the weight is the one that makes the average age of the data equal that of the plain mean over the period |
| `Indicators.EmaSeriesIsAverage` | apps/api/app/services/backtesting_service.py:190-201 | every reported average is the weighted sum of the closes up to it to six decimals, within any bounds on them |
| `Indicators.RsiReadsHistory` | apps/api/app/services/backtesting_service.py:225-231 | before rounding the index is in [0, 100]; 100 exactly when the history rises somewhere and never falls, 0 exactly in the mirror case |
| `Indicators.RsiIsShareOfGains` | apps/api/app/services/backtesting_service.py:203-231 | every reported index is the six-decimal rounding of the average gain's share in both averages, fifty when both are zero; it is at least fifty exactly when the average gain is at least the average loss, up to the rounding |
| `Indicators.AveragesAreWeightedSums` | apps/api/app/services/backtesting_service.py:209-222 | average gain and loss are the first mean faded once per later move, and each later rise or fall weighted by its age |
| `Indicators.RsiSeriesRange` | apps/api/app/services/backtesting_service.py:203-231 | the rounded index is in [0, 100] |
| `Backtest.MaxDrawdownPct` | apps/api/app/services/backtesting_service.py:426-435 | the one-pass loop yields the rounded running-peak drawdown |
| `Backtest.SimulateFromSignals` | apps/api/app/services/backtesting_service.py:346-400 | the loop over the closes computes the book after every candle, the forced sale and the metrics |
| `Backtest.SimulateStrategy` | apps/api/app/services/backtesting_service.py:288-325 | the signal arrays filled from the three series are the signal predicates, simulated |
| `Backtest.SelectBest` | apps/api/app/services/backtesting_service.py:245-268 | the loop ends with the candidate of the best index and its run |
| `BacktestTheory.RunConservesMoney` | apps/api/app/services/backtesting_service.py:346-400 | a finished run holds no position, ends with initial capital plus the sum of its trades, and its curve never goes below zero and ends at that amount |
| `BacktestTheory.ReturnIsTheTrades` | apps/api/app/services/backtesting_service.py:403-423 | reported return and ending capital depend on the trades alone |
| `BacktestTheory.DrawdownIsTheWorstFall` | apps/api/app/services/backtesting_service.py:426-435 | on non-negative curves the loop's value bounds and attains the fall between any two points in time order, and is in [0, 100] |
| `BacktestTheory.RunDrawdown` | apps/api/app/services/backtesting_service.py:416-435 | the reported drawdown of every run is the rounded worst fall of its curve |
| `BacktestTheory.NoLookAhead` | apps/api/app/services/backtesting_service.py:288-400 | a run on the first k closes gives the same trades and curve as the full run, up to the last point and one forced sale |
| `BacktestTheory.FutureIsIrrelevant` | apps/api/app/services/backtesting_service.py:288-388 | histories that agree on k closes give the same book at k |
| `BacktestTheory.WarmUpNeverTrades` | apps/api/app/services/backtesting_service.py:364-366 | candles before the start leave the book untouched |
| `BacktestTheory.TradesAreRoundTrips` | apps/api/app/services/backtesting_service.py:346-393 | every profit is that of a round trip bought on an entry and sold on an exit signal or at the end; trips do not overlap, no entry signal falls outside them, none sits through an exit signal |
| `BacktestTheory.PointsAreMarkedToMarket` | apps/api/app/services/backtesting_service.py:385-386 | every curve point is the initial capital plus finished trades, bought in at the open trade's entry and marked at the close when a trade is open |
| `BacktestTheory.ProfitFactorReadsTrades` | apps/api/app/services/backtesting_service.py:409-411 | before rounding the profit factor exceeds one exactly when the run earned money; it is absent exactly without a loss |
| `BacktestTheory.WinRateReadsTrades` | apps/api/app/services/backtesting_service.py:409-413 | before rounding the win rate is a percentage, 100 exactly when every trade won and 0 exactly when none did |
| `BacktestMeaning.RatesReadTrades` | apps/api/app/services/backtesting_service.py:403-413 | the reported win rate counts winning trades in a hundred and the profit factor what they earned per unit lost, to six decimals; there is none exactly when nothing was lost |
| `BacktestMeaning.DrawdownInMoney` | apps/api/app/services/backtesting_service.py:416-435 | no later point lies further below an earlier one than the reported drawdown says, and unless it is zero some pair lies that far apart |
| `BacktestMeaning.SignalsAreCrossings` | apps/api/app/services/backtesting_service.py:306-316 | the strategy buys exactly where the fast average gets above the slow one with enough strength, and sells exactly where it gets below or the strength is gone |
| `BacktestMeaning.EntriesAreApart` | apps/api/app/services/backtesting_service.py:306-315 | between two entries the fast average came down to the slow one |
| `BacktestSelection.HoldIsOneTrip` | apps/api/app/services/backtesting_service.py:327-344 | the benchmark is one round trip of the whole capital from first to last close, with both fees |
| `BacktestSelection.BetterIsAhead` | apps/api/app/services/backtesting_service.py:271-286 | on reported metrics the tolerant comparison is the strict lexicographic order |
| `BacktestSelection.ToleranceAloneIsNoOrder` | apps/api/app/services/backtesting_service.py:271-286 | without the rounding the comparison is cyclic |
| `BacktestSelection.SelectionIsFirstBest` | apps/api/app/services/backtesting_service.py:245-268 | nothing beats the selected candidate and it beats every earlier one |
| `WalkForward.RunWindow` | apps/api/app/services/backtesting_service.py:87-144 | one iteration of the window loop equals its function |
| `WalkForward.Run` | apps/api/app/services/backtesting_service.py:48-179 | the run equals the report function, with both error answers |
| `WalkForward.WindowsFit` | apps/api/app/services/backtesting_service.py:55-59 | the window count is the number of whole testing slices after the first training slice, at least two when the size check passes |
| `WalkForwardTheory.RunInvariant` | apps/api/app/services/backtesting_service.py:87-144 | after every window: windows in place, tested candles tiled, one curve point per candle ending at the carried capital, rounding drift bounded |
| `WalkForwardTheory.WalkForwardAddsUp` | apps/api/app/services/backtesting_service.py:48-179 | the errors occur exactly for too few candles; otherwise windows tile the tested candles and the final capital is the initial one plus all trades, up to 5e-7 per window |
| `BacktestMeaning.WindowBenchmarks` | apps/api/app/services/backtesting_service.py:100-133 | each window's benchmarks hold its training candles with the initial capital and its testing candles with the capital carried into it, first close to last |
| `BacktestMeaning.ReportBenchmarks` | apps/api/app/services/backtesting_service.py:66-160 | the report's benchmarks hold all candles and all tested candles with the initial capital; its in-sample return is the mean of the windows' |
| `WalkForwardTheory.LaterCandlesAreIrrelevant` | apps/api/app/services/backtesting_service.py:87-144 | later candles never change an earlier window |
| `WalkForwardTheory.ChoiceNeverSeesTheTest` | apps/api/app/services/backtesting_service.py:92-110 | parameters and starting capital of a window are settled before its first testing candle |
| `WalkForwardTheory.ReadyExactly` | apps/api/app/services/backtesting_service.py:306-313 | exactly which candles have all five readings |
| `WalkForwardTheory.EveryTestCandleCanSignal` | apps/api/app/services/backtesting_service.py:83-108 | after the warm-up every testing candle of every window can signal |
| `WalkForwardTheory.WarmUpIsTight` | apps/api/app/services/backtesting_service.py:83-86 | a shorter warm-up would leave the first testing candle without readings |
| `Worker.Deduplicator.Begin` | apps/worker/main.py:77-128 | skips a candle already marked, otherwise marks it and remembers the previous mark |
| `Worker.Deduplicator.RollBack` | apps/worker/main.py:129-135 | puts the previous mark back, or removes it |
| `Worker.RunIsSound` | apps/worker/main.py:77-135 | with distinct targets, in every interleaving, every task awaiting a plan holds its own mark and remembers the last creation |
| `Worker.DedupeHoldsExactlyForDistinctKeys` | apps/worker/main.py:253-266 | the marks equal the last creations in every interleaving if and only if no target is listed twice; then consecutive creations never share a candle |
| `Worker.MarksBetweenCycles` | apps/worker/main.py:77-135 | with no plan awaited every mark is the candle of the last plan created, absent exactly when there is none |
| `Worker.Tally` | apps/worker/main.py:268-291 | successes, failures and duplicates of the gathered results, and when the cycle is an error |
| `RateLimiter.Limiter.Evict` | apps/api/app/api/routes.py:72-78 | exactly the keys younger than the time to live remain |
| `RateLimiter.Limiter.Request` | apps/api/app/api/routes.py:66-86 | the verdict and the new table as functions of the old one |
| `RateLimiter.EvictionIsInvisible` | apps/api/app/api/routes.py:66-86 | over any run with calls handled at most five seconds out of clock order, forgetting stale keys never changes a verdict |
| `RateLimiter.EvictionInvisibleExactly` | apps/api/app/api/routes.py:66-86 | five seconds are the exact bound: forgetting is invisible in all runs within a given disorder if and only if that is at most the time to live less the interval |
| `RateLimiter.LateCallSlipsThrough` | apps/api/app/api/routes.py:66-86 | for any larger disorder, three calls of which the last is accepted only because its key was forgotten |
| `RateLimiter.RejectedExactlyWhenCrowded` | apps/api/app/api/routes.py:66-86 | within that disorder a call is turned away exactly when its key was accepted less than five seconds before its own reading of the clock |
| `RateLimiter.AcceptedAreSpaced` | apps/api/app/api/routes.py:66-86 | two accepted calls of one key, in the order they were handled, read the clock at least five seconds apart |
| `RateLimiter.AcceptedRate` | apps/api/app/api/routes.py:51-86 | in any span of clock readings a key is accepted at most once per five seconds, plus one |
| `RateLimiter.OnlyFreshKeysStay` | apps/api/app/api/routes.py:52-86 | after every call, in whatever order calls are handled, each key kept was accepted less than ten seconds ago |

## Left out

- GoldenRule.PlansStayBelowFivePercent: percentages of each plan's own capital are added up as the engine does; plans count as open until they are closed, also those never executed.
- LinkRereading.LineReadsBack: addresses with characters of the link syntax, for which it can fail (`LinkRoundTrip.BracketsComeLoose`) and, where the line happens to be balanced otherwise, need not.
- RateLimiter.EvictionIsInvisible: calls handled more than five seconds out of clock order, where `RateLimiter.LateCallSlipsThrough` shows it fails.
- Worker.RunIsSound: a cancelled task, which the code's rollback does not catch, is not modelled; and only consecutive creations are claimed to differ, since a candle that comes back after another one creates again.
- Indicators.RsiReadsHistory: for periods of two or more (the code uses 14); with period one an average is the last move alone.
- IEEE floating point: arithmetic is exact; infinities and NaN do not occur.
- Interleaving of two API calls at their awaits: each call is one atomic step, and "one execution per plan" is claimed for atomic calls only.
- Database sessions, row refreshes and the commits inside a call other than an exit sync: the tables are values, a row's id is its position.
- The batch sync's report line for an unexpected exception inside one item: the answers modelled raise none.
- HTTP, request signing, credentials, exchange symbol filters and the documentation server: their answers are parameters.
- Payloads that are not dictionaries where the code would raise, and payload fields the code never reads.
- Event messages, severities and context fields other than the references and prices a later step reads.
- The plan document written after the commit of a created plan.
- Breakers for an unknown portfolio risk or regime confidence: the engine always supplies both.
- Regime aliases given as free text (with the multiplier for an unrecognised regime, which they rule out), and letter case outside ASCII.
- Averages over a whole shadow report, fill rates and slippage, the reports' ordering, the row limit and the day window of their queries.
- Timestamps of backtest windows and loading of candles: candles are positions in the list of closes, assumed positive.
- The branch of the window loop for a short testing slice: the loop bounds exclude it.
- Average true range, momentum, market-regime scoring and API counters: formulas without state.
- File access and path resolution in the link tools: resolution is an arbitrary function; the full CommonMark grammar is not modelled.
- The worker's execution step after a plan is created: it never touches the marks.
