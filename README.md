# Trading-bot decision logic of the Alpaca tutorial series

This project models the decision logic of the tutorial trading bots in the
AlpacaTutorial repository. Each bot asks the broker and the market-data
service what the account holds and what prices did, computes an indicator,
and then sends orders or updates its saved state. The model keeps the
decisions and drops the plumbing. Every broker call, data fetch and file read
is an input. Every order, close, cancel or stop replacement the bot sends is
recorded as a `Broker.Request`.

- **Shared models.**
  - `Numeric`: Python's `int()` and `round(x, 2)`, means and sample variances.
  - `Broker`: requests, position queries, `int(position.qty)`, and the lower-case substring tests on error text.
  - `Signals`: strict crossings with NaN-aware comparisons, the golden and death cross, and the last two rows of a frame.
  - `Sma`: pandas' `rolling(window).mean()`.
  - `PriceLevels`: take-profit and stop-loss prices.
  - `PositionFlag`: the `is_in_position` record.
  - `PositionLookup`: the scan of the position list.
- **Stateless polling bots.** These are the crossover bots, the bracket and dynamic-sizing bots, and the RSI, MACD, Bollinger, confirmation, multi-timeframe, config-driven and logging bots. Their loops carry nothing from one iteration to the next, so one iteration is a function from what it observes to the order it sends.
  - The logging bot is the exception: it counts its iterations, so its loop is a method.
  - The trailing-stop bot's monitoring loop is also a method.
- **Stateful bots.**
  - `state_bot.py` and `resilient_bot.py` keep a position flag in a state file.
  - `manual_trail_bot.py` keeps the id of its stop order.
  - `pairs_trading_bot.py` keeps a JSON record of the open spread.

  Each is a class whose fields are that state: what it saved, what it sent and what it believes it holds. Each class method is proved equal to a step function on a `Snapshot` of those fields. The properties are proved about the step functions over any run.
- **Backtest report.** `analyze_backtest.py` turns statistics into bands and a verdict. It is modelled as functions, plus two straight-line methods: the list of report lines built by appends, and the running indicator count built by `+=`.

Prices are exact `real`s. A pandas value that may be NaN is `Num`, where `None` stands for NaN, and every comparison with NaN is false.

## Model

| member | source | states |
|---|---|---|
| Numeric.Trunc | Alpaca13/dynamic_sizing_bot.py:138 | `int(x)` truncates toward zero: it is within one unit below a non-negative `x` and within one unit above a negative one, and it is at least 1 exactly when `x` is at least 1 |
| Numeric.TruncQuotient | Alpaca14/trailing_stop_bot.py:206-207 | `int(a / b)` for a positive `b` counts the whole `b`s that fit in `a`: that many cost at most `a`, one more would cost more |
| Numeric.RoundHalfEven | Alpaca12/bracket_bot.py:106 | the result is within 0.5 of the input, and a tie goes to the even neighbour |
| Numeric.RoundHalfEvenMonotone | Alpaca12/bracket_bot.py:106 | rounding never reverses the order of two values |
| Numeric.RoundCents | Alpaca12/bracket_bot.py:105-106 | `round(x, 2)` is a whole number of cents within half a cent of `x` |
| Numeric.RoundCentsMonotone | bracket_bot.py:96-97 | rounding two prices to cents keeps their order |
| Numeric.RoundCentsFixesWholeCents | bracket_bot.py:96-97 | a price already in whole cents is unchanged by rounding |
| Numeric.MeanConstant | AlpacaTutorial/Alpaca30/pairs_trading_bot.py:188 | the rolling mean of a window of identical values is that value |
| Numeric.ConstantWindowHasZeroVariance | AlpacaTutorial/Alpaca30/pairs_trading_bot.py:189 | the sample variance behind `rolling().std()` is 0 on a window of identical values |
| Broker.WholeQty | AlpacaTutorial/Alpaca17/bollinger_bot.py:46 | `int(position.qty)` succeeds exactly on a whole quantity and then equals it; a fractional quantity raises; Alpaca21/logging_bot.py:104 has the same logic |
| Broker.Lower | AlpacaTutorial/Alpaca25/resilient_bot.py:236 | `lower()` keeps the length and lowers each character |
| Broker.HasSubstringAt | AlpacaTutorial/Alpaca25/resilient_bot.py:238 | a text containing `t` at some position makes `t in s` true |
| Signals.CrossingsExclusive | Alpaca18/macd_bot.py:98-127 | a strict upward crossing and a strict downward crossing between the same two rows never both hold |
| Signals.ThresholdCrossingsExclusive | AlpacaTutorial/Alpaca16/rsi_bot.py:136-149 | a rise through a low level and a fall through a level at or above it never happen between the same two readings |
| Signals.WithMovingAverages | AlpacaTutorial/Alpaca22/state_bot.py:150-158 | one row per bar, each keeping its close |
| Signals.MovingAverageColumns | AlpacaTutorial/Alpaca22/state_bot.py:156-157 | each SMA column of the frame is NaN until its window has filled, and from then on is the mean of the window of closes ending at that row |
| Signals.GoldenCross | AlpacaTutorial/Alpaca22/state_bot.py:161-179 | false on fewer than two rows; otherwise the short SMA was strictly below the long SMA on the previous row and is strictly above it on the last row; AlpacaTutorial/Alpaca25/resilient_bot.py:316-345 has the same logic |
| Signals.DeathCross | AlpacaTutorial/Alpaca22/state_bot.py:182-200 | the mirror-image detector; it never fires together with the golden cross; AlpacaTutorial/Alpaca25/resilient_bot.py:348-365 has the same logic |
| Signals.LastTwo | Alpaca12/bracket_bot.py:75-76 | `iloc[-2]` and `iloc[-1]`, absent exactly when there are fewer than two rows (IndexError) |
| Signals.GoldenCrossUnguarded | Alpaca12/bracket_bot.py:68-83 | the detector without a length guard raises on fewer than two rows and otherwise agrees with the guarded one; Alpaca13/dynamic_sizing_bot.py:68-83 has the same logic |
| Sma.CalculateSma | Alpaca07/calculate_sma.py:57-74 | the rolling mean has one value per close, so it can be assigned as a column |
| Sma.SmaAt | Alpaca07/calculate_sma.py:69-73 | the value at row `i` depends only on the closes up to and including row `i` |
| Sma.SmaWindow | Alpaca07/calculate_sma.py:101-104 | NaN for the first `window - 1` rows, the mean of the `window` closes ending at the row otherwise |
| PositionFlag.WithFlag | AlpacaTutorial/Alpaca22/state_bot.py:268 | after `state['is_in_position'] = b` the flag reads `b` |
| PositionLookup.FirstMatch | Alpaca14/trailing_stop_bot.py:57-65 | absent exactly when no position has the symbol; otherwise a listed position with that symbol |
| PositionLookup.FirstMatchIsFirst | Alpaca14/trailing_stop_bot.py:59-61 | the scan returns the earliest position with the symbol |
| PositionLookup.CheckExistingPosition | Alpaca14/trailing_stop_bot.py:52-65 | a failed listing gives no position; otherwise the loop returns the first match; Alpaca22/config_bot.py:49-63 has the same logic |
| PriceLevels.TargetAbove | Alpaca12/bracket_bot.py:105 | raising a non-negative price by a non-negative percentage never lowers it |
| PriceLevels.StopBelow | Alpaca14/trailing_stop_bot.py:218 | a stop `pct` percent under a non-negative price is at most the price, strictly below it for a positive price and percentage, and non-negative for percentages up to 100 |
| PriceLevels.StopBelowMonotone | AlpacaTutorial/Alpaca15/manual_trail_bot.py:109-112 | a higher price gives a strictly higher stop, which is what lets the stop trail the price |
| PriceLevels.TakeProfitPrice | Alpaca12/bracket_bot.py:97-107 | the take-profit price is a whole number of cents within half a cent of the unrounded target |
| PriceLevels.StopLossPrice | Alpaca12/bracket_bot.py:110-119 | the stop-loss price is a whole number of cents within half a cent of the unrounded stop |
| PriceLevels.ExitPrices | bracket_bot.py:91-98 | the pair is (take-profit, stop-loss) of the same entry |
| PriceLevels.StopLossAtOrBelowEntry | Alpaca12/bracket_bot.py:117-119 | the rounded stop-loss is never above the entry rounded to cents |
| PriceLevels.TakeProfitAtOrAboveEntry | Alpaca12/bracket_bot.py:105-107 | the rounded take-profit is never below the entry rounded to cents |
| PriceLevels.ExitPricesBracketEntry | bracket_bot.py:96-98 | the exit pair brackets the entry rounded to cents: stop-loss at or below it, take-profit at or above it |
| BracketBot.EntryOrder | bracket_bot.py:164-179 | the entry is a bracket buy of the fixed quantity, with the 5% take-profit as its limit and the 2% stop-loss as its stop |
| BracketBot.Iteration | bracket_bot.py:130-181 | no order while a position exists; otherwise an order exactly when the bars were fetched, a golden cross is on the last two rows and a price was read, and it is the entry order at that price; Alpaca12/bracket_bot.py:155-215 has the same logic |
| BracketBot.OrderBracketsEntry | Alpaca12/bracket_bot.py:187-215 | every order sent has its stop-loss at or below and its take-profit at or above the entry price rounded to cents |
| BracketBot.HundredDollarEntry | bracket_bot.py:96-97 | a $100 entry gets a $105 take-profit and a $98 stop-loss |
| DynamicSizing.CalculatePositionSize | Alpaca13/dynamic_sizing_bot.py:108-140 | 0 when the stop is not below the entry; otherwise the largest whole number of shares whose combined stop-out loss fits in the risk amount, and at least one exactly when one share's risk fits |
| DynamicSizing.AtLeastOneUnit | Alpaca13/dynamic_sizing_bot.py:135-138 | a quotient by a positive divisor is at least 1 exactly when the dividend is at least the divisor |
| DynamicSizing.RiskPerShareIsStopDistance | Alpaca13/dynamic_sizing_bot.py:122-126 | one share risks `slPct` percent of its entry price |
| DynamicSizing.TutorialRatesNeedOneShareOfEquity | Alpaca13/dynamic_sizing_bot.py:245-248 | at a 1% risk and a 1% stop, the bot trades exactly when equity covers the price of one share |
| DynamicSizing.Iteration | Alpaca13/dynamic_sizing_bot.py:197-291 | no order while holding; otherwise a bracket buy exactly on a golden cross with equity and price read and at least one share affordable, sized by `calculate_position_size`, at a 3% take-profit and a 1% stop-loss |
| DynamicSizing.OrderRespectsRisk | Alpaca13/dynamic_sizing_bot.py:118-140 | every order's quantity times the per-share stop distance is at most 1% of equity |
| DynamicSizing.SmallAccountSkips | Alpaca13/dynamic_sizing_bot.py:245-248 | equity below one share's price sends nothing, whatever the signal |
| TrailingStopBot.GetCurrentPrice | Alpaca14/trailing_stop_bot.py:34-49 | the first bar's close, absent exactly when the fetch raised or returned no bars |
| TrailingStopBot.SharesToBuy | Alpaca14/trailing_stop_bot.py:204-207 | the shares cost at most 90% of cash, and one more share would cost more |
| TrailingStopBot.SharesToBuyAtLeastOne | Alpaca14/trailing_stop_bot.py:207-212 | at least one share exactly when 90% of cash covers the price |
| TrailingStopBot.MonitorPosition | Alpaca14/trailing_stop_bot.py:112-152 | the position counts as still open exactly when the lookup finds it; a missing price keeps it open |
| TrailingStopBot.ApproximateStop | Alpaca14/trailing_stop_bot.py:143-147 | the displayed stop exists exactly when a usable price was read, and it lies below that price |
| TrailingStopBot.MonitorLoop | Alpaca14/trailing_stop_bot.py:185-192 | every check before the last found the position open; the loop ends at the first check that did not, or when the observations run out; Alpaca14/trailing_stop_bot.py:239-246 has the same logic |
| TrailingStopBot.MonitorStopsWhenPositionGone | Alpaca14/trailing_stop_bot.py:118-122 | the loop stops exactly at the first observation without a position |
| TrailingStopBot.MainPlan | Alpaca14/trailing_stop_bot.py:156-224 | no account stops the bot; a found position is watched; otherwise it buys only with a usable price and at least one affordable share, as a trailing-stop buy at 5% with the initial stop 5% under the price |
| TrailingStopBot.BuyFitsInCash | Alpaca14/trailing_stop_bot.py:204-218 | a purchase never costs more than 90% of cash at the observed price, and its initial stop is below that price |
| TrailingStopBot.InsufficientFundsAborts | Alpaca14/trailing_stop_bot.py:209-212 | too little cash for one share means no purchase |
| CrossoverBot.CheckCurrentPosition | Alpaca10/crossover_bot_final.py:31-43 | in position exactly when the position query returned, and then the position is reported; crossover_bot_v1.py:32-48 has the same logic |
| CrossoverBot.Decide | Alpaca10/crossover_bot_final.py:219-237 | nothing on fewer than two rows; buy exactly when flat on a golden cross; sell exactly when holding on a death cross |
| CrossoverBot.Iteration | Alpaca10/crossover_bot_final.py:194-238 | a failed fetch sends nothing; otherwise an order exactly when the decision is to trade, a one-share market order on the decided side; crossover_bot_v1.py:173-214 has the same logic |
| CrossoverBot.SideFollowsPosition | Alpaca10/crossover_bot_final.py:224-235 | a buy happens only while flat and a sell only while holding, always for one share |
| CrossoverBot.WrongStateSignalHolds | Alpaca10/crossover_bot_final.py:224-238 | a position that is open without a death cross, or flat without a golden cross, sends nothing |
| CrossoverDetector.DetectCrossover | crossover_detector.py:43-61 | the flags are the golden and the death cross of the two days, and never both true |
| CrossoverDetector.Report | crossover_detector.py:64-92 | no report when the fetch failed or there are fewer than two rows; BUY exactly on a golden cross; SELL exactly on a death cross |
| CrossoverDetector.PriorityNeverHidesDeathCross | crossover_detector.py:87-92 | checking the golden cross first never hides a death cross |
| CrossoverDetector.ReportAgreesWithTradingBot | crossover_detector.py:43-61 | the report's BUY and SELL are exactly where a flat trading bot buys and a holding one sells |
| ConfigBot.Iteration | Alpaca22/config_bot.py:160-214 | an order exactly when not holding, at least `long_window` bars arrived and a golden cross is on them; it is a market buy of the configured symbol and quantity |
| ConfigBot.NeverSells | Alpaca22/config_bot.py:185-214 | the bot only ever buys |
| ConfigBot.ShortHistoryDoesNothing | Alpaca22/config_bot.py:172-177 | fewer bars than the long window send nothing |
| ConfigBot.RunIteration | Alpaca22/config_bot.py:166-177 | the iteration, with the position found by the scanning loop, sends the order `Iteration` specifies |
| RsiBot.CheckRsiSignals | AlpacaTutorial/Alpaca16/rsi_bot.py:115-151 | BUY only when flat, and then exactly on a rise through 30; SELL only when holding, and then exactly on a fall through 70; otherwise HOLD |
| RsiBot.ReadingsPickOneSide | AlpacaTutorial/Alpaca16/rsi_bot.py:136-149 | the same two readings never call both for a buy when flat and a sell when holding |
| RsiBot.WarmingUpHolds | AlpacaTutorial/Alpaca16/rsi_bot.py:136-149 | a NaN reading always gives HOLD |
| RsiBot.Iteration | AlpacaTutorial/Alpaca16/rsi_bot.py:173-209 | nothing without at least 15 rows; otherwise an order exactly when the signal is not HOLD; a buy of 0.01 BTC/USD, or a sell of the held quantity |
| RsiBot.SellMatchesHolding | AlpacaTutorial/Alpaca16/rsi_bot.py:195-209 | a sell is for the absolute value of the held quantity |
| MacdBot.CrossoversExclusive | Alpaca18/macd_bot.py:98-127 | a bullish and a bearish crossover never occur on the same two bars |
| MacdBot.GetPositionStatus | Alpaca18/macd_bot.py:30-44 | in position exactly when the query returned, with its quantity; otherwise quantity 0 |
| MacdBot.Iteration | Alpaca18/macd_bot.py:188-252 | nothing with fewer than 35 bars (slow period plus signal period); a buy of 10 MSFT exactly when flat on a bullish crossover; a sell of the held quantity exactly when holding on a bearish crossover |
| MacdBot.SidesFollowThePosition | Alpaca18/macd_bot.py:233-252 | a buy happens exactly when the position query raised |
| BollingerBot.BreakoutExcludesReversion | AlpacaTutorial/Alpaca17/bollinger_bot.py:167-199 | with the middle band at or below the upper band, a squeeze breakout and a mean-reversion exit never coincide |
| BollingerBot.GetCurrentPosition | AlpacaTutorial/Alpaca17/bollinger_bot.py:34-51 | holding exactly when the query returned a whole quantity, which is then reported; otherwise `(False, 0)` |
| BollingerBot.Iteration | AlpacaTutorial/Alpaca17/bollinger_bot.py:220-269 | nothing on an empty frame; a buy of 5 NVDA exactly when flat on a squeeze breakout; a sell of the held whole shares exactly when holding and the close is below the middle band |
| BollingerBot.FractionalHoldingLooksFlat | AlpacaTutorial/Alpaca17/bollinger_bot.py:44-51 | with a fractional holding the bot can only buy, since the position reads as flat |
| ConfirmationBot.Iteration | Alpaca19/confirmation_bot.py:39-146 | an order needs two bars; a buy of 10 AMD exactly when flat and both the RSI and the MACD signal; a sell exactly when holding on a bearish MACD crossover and the second position query returned, for the quantity it reported |
| ConfirmationBot.EntryAndExitDisjoint | Alpaca19/confirmation_bot.py:95-126 | the MACD buy and sell conditions exclude each other, and so do the confirmed entry and exit |
| MtfBot.GetDailyTrendDirection | AlpacaTutorial/Alpaca20/mtf_bot.py:31-58 | unknown exactly when the fetch failed or returned no bars; up only with at least 50 daily bars and the last close strictly above their mean |
| MtfBot.TrendIsUpExactly | AlpacaTutorial/Alpaca20/mtf_bot.py:46-58 | with at least 50 bars the trend is up exactly when the last close beats the 50-day mean |
| MtfBot.ShortDailyHistoryIsNotUp | AlpacaTutorial/Alpaca20/mtf_bot.py:46-58 | fewer than 50 bars give a known trend that is not up |
| MtfBot.GetHourlyRsiValues | AlpacaTutorial/Alpaca20/mtf_bot.py:61-89 | absent exactly when the fetch failed or there are fewer than two rows; otherwise the last and the second-last readings |
| MtfBot.RunStage | AlpacaTutorial/Alpaca20/mtf_bot.py:141-200 | each gate ends the iteration in turn: unknown trend, down trend, existing position, missing readings; the entry stage is reached exactly in an uptrend, flat, with the RSI rising through 30 |
| MtfBot.Iteration | AlpacaTutorial/Alpaca20/mtf_bot.py:188-200 | a buy of 5 TSLA exactly at the entry stage |
| MtfBot.OnlyBuysInAnUptrend | AlpacaTutorial/Alpaca20/mtf_bot.py:151-200 | every order is a buy, taken while flat, with at least 50 daily bars and the last close above their mean |
| MtfBot.NaNReadingDoesNotEnter | AlpacaTutorial/Alpaca20/mtf_bot.py:177-180 | a NaN reading passes the `None` check but never enters |
| LoggingBot.GetCurrentPosition | Alpaca21/logging_bot.py:96-114 | a whole held quantity is returned; a raised query or a fractional quantity gives 0 |
| LoggingBot.MakeTradeDecision | Alpaca21/logging_bot.py:134-163 | no decision exactly without a price; BUY exactly in the 10-12 window when flat; SELL exactly in the 14-16 window when holding |
| LoggingBot.OutsideWindowsHolds | Alpaca21/logging_bot.py:153-163 | outside both windows the decision is HOLD |
| LoggingBot.WindowsDisjoint | Alpaca21/logging_bot.py:153-156 | no hour calls for both a buy and a sell |
| LoggingBot.TickOrder | Alpaca21/logging_bot.py:286-301 | nothing unless the market is open; a buy is one AAPL share taken when flat; a sell is the whole positive position |
| LoggingBot.OrdersBounded | Alpaca21/logging_bot.py:286-301 | at most one order per iteration, and none in a run during which the market never opened |
| LoggingBot.RunLoop | Alpaca21/logging_bot.py:286-301 | the count is the number of iterations, and the orders are those each open-market iteration decided, in order |
| AnalyzeBacktest.CalculateAnnualReturn | Alpaca27/analyze_backtest.py:147-173 | 0 when the span is not a positive number of years; otherwise the compound growth rate in percent |
| AnalyzeBacktest.YearsGuardExactlyNonPositiveDays | Alpaca27/analyze_backtest.py:160-173 | the years guard fires exactly for zero or fewer days |
| AnalyzeBacktest.InterpretSharpeRatio | Alpaca27/analyze_backtest.py:176-193 | the four bands are below 1, [1, 2), [2, 3) and 3 up; a NaN ratio fails every test and lands in the top band |
| AnalyzeBacktest.SharpeBandMonotone | Alpaca27/analyze_backtest.py:186-193 | among numeric ratios, a higher Sharpe ratio never gets a lower band |
| AnalyzeBacktest.InterpretDrawdown | Alpaca27/analyze_backtest.py:196-215 | the bands depend on the drawdown's size, with cuts at 10, 20 and 40 percent |
| AnalyzeBacktest.DrawdownBandBySize | Alpaca27/analyze_backtest.py:206-215 | the sign of the drawdown does not matter, and a deeper drawdown never gets a milder band |
| AnalyzeBacktest.WinRateLevelOf | Alpaca27/analyze_backtest.py:231-236 | high from 60%, low below 40% |
| AnalyzeBacktest.ProfitFactorLevelOf | Alpaca27/analyze_backtest.py:239-249 | excellent above 2, good above 1.5, marginal above 1, poor otherwise, including a NaN factor |
| AnalyzeBacktest.RewardLevelOf | Alpaca27/analyze_backtest.py:252-259 | wins more than twice the losses, or losses at least as large as the wins |
| AnalyzeBacktest.AnalyzeWinRate | Alpaca27/analyze_backtest.py:218-259 | the report has exactly three lines: win rate, profit factor, reward, in that order |
| AnalyzeBacktest.CountIndicators | Alpaca27/analyze_backtest.py:378-403 | three indicators always count and the profit factor only when there were trades; the positive count is the number that pass and never exceeds the total |
| AnalyzeBacktest.DrawdownIndicatorMatchesBands | Alpaca27/analyze_backtest.py:386-389 | the drawdown indicator passes exactly in the two mildest drawdown bands |
| AnalyzeBacktest.SharpeIndicatorMatchesBands | Alpaca27/analyze_backtest.py:390-393 | the Sharpe indicator passes exactly when the ratio is a number whose band is not "not great"; a NaN ratio is reported in the top band but is not counted as positive |
| AnalyzeBacktest.ProfitFactorIndicatorMatchesLevels | Alpaca27/analyze_backtest.py:396-401 | with trades, the profit-factor indicator passes exactly when the report calls the factor good or excellent; a NaN factor is poor and not counted |
| AnalyzeBacktest.Score | Alpaca27/analyze_backtest.py:407 | the score is a percentage between 0 and 100 |
| AnalyzeBacktest.VerdictOf | Alpaca27/analyze_backtest.py:409-417 | STRONG from 75, MODERATE from 50, WEAK below |
| AnalyzeBacktest.ScoreAtLeast | Alpaca27/analyze_backtest.py:407-417 | the score reaches a percentage exactly when the count reaches that share of the total |
| AnalyzeBacktest.VerdictByCount | Alpaca27/analyze_backtest.py:378-417 | with three indicators STRONG needs all three; with four it needs three; MODERATE needs two either way |
| StateBot.LoadState | AlpacaTutorial/Alpaca22/state_bot.py:68-86 | a missing file or invalid JSON gives the default record (flat); any other error stops the bot; otherwise the parsed record |
| StateBot.SynchronizeStateWithBroker | AlpacaTutorial/Alpaca22/state_bot.py:104-126 | in position exactly when the position query returned |
| StateBot.Start | AlpacaTutorial/Alpaca22/state_bot.py:252-253 | the record is the loaded one and the flag is read from it; nothing saved or sent yet |
| StateBot.Reconcile | AlpacaTutorial/Alpaca22/state_bot.py:258-271 | the broker wins; on a mismatch the corrected record is saved, otherwise nothing changes |
| StateBot.ReconcileIdempotent | AlpacaTutorial/Alpaca22/state_bot.py:258-271 | reconciling twice with the same answer is reconciling once |
| StateBot.Step | AlpacaTutorial/Alpaca22/state_bot.py:276-359 | one iteration keeps the flag, the record and the last save in agreement |
| StateBot.NoSignalWithoutEnoughBars | AlpacaTutorial/Alpaca22/state_bot.py:285-287 | without at least `long_window` bars an iteration changes nothing |
| StateBot.EntryIsConfirmed | AlpacaTutorial/Alpaca22/state_bot.py:304-325 | the flag turns true only after a golden cross and an accepted buy, which is the one request added |
| StateBot.ExitIsConfirmed | AlpacaTutorial/Alpaca22/state_bot.py:330-356 | the flag turns false only after a death cross and a close that did not raise, which is the one request added |
| StateBot.SignalsFollowThePosition | AlpacaTutorial/Alpaca22/state_bot.py:304-359 | entries are looked for only when flat and exits only when holding; an iteration either changes nothing or flips the flag |
| StateBot.StepsStayConsistent | AlpacaTutorial/Alpaca22/state_bot.py:276-359 | over any run the flag, the record and the last save agree |
| StateBot.RestartResumesFlag | AlpacaTutorial/Alpaca22/state_bot.py:68-86 | after start-up and any run, reloading the last saved record restores the flag the bot had |
| StateBot.StateManagedBot.constructor | AlpacaTutorial/Alpaca22/state_bot.py:251-271 | start-up leaves the state that loading and reconciling specify |
| StateBot.StateManagedBot.RunCycle | AlpacaTutorial/Alpaca22/state_bot.py:276-359 | one iteration updates the fields to the step's result |
| StateBot.StateManagedBot.Run | AlpacaTutorial/Alpaca22/state_bot.py:276-363 | the loop leaves the state of the whole run of steps |
| ResilientBot.LoadState | AlpacaTutorial/Alpaca25/resilient_bot.py:154-182 | every failure to read or parse gives the default record; otherwise the parsed one |
| ResilientBot.SynchronizeStateWithBroker | AlpacaTutorial/Alpaca25/resilient_bot.py:217-248 | true when a position exists; false exactly when the error text says there is none; unverified on any other error |
| ResilientBot.LowerOfLowercase | AlpacaTutorial/Alpaca25/resilient_bot.py:236 | a message already in lower case is its own `lower()` |
| ResilientBot.MissingPositionIsFlat | AlpacaTutorial/Alpaca25/resilient_bot.py:234-242 | the broker's "position not found" reply reads as flat, not unverified |
| ResilientBot.NotFoundReplyMatches | AlpacaTutorial/Alpaca25/resilient_bot.py:236-238 | the reply "position not found" passes the lower-case "not found" test, whatever the error kind |
| ResilientBot.ClosePositionSafely | AlpacaTutorial/Alpaca25/resilient_bot.py:433-472 | success counts as closed, a timeout or connection error never does, and any other error does exactly when it says the position is missing |
| ResilientBot.AlreadyClosedCountsAsClosed | AlpacaTutorial/Alpaca25/resilient_bot.py:445-464 | a "position not found" reply counts as closed exactly when it is not a timeout or a connection error |
| ResilientBot.Start | AlpacaTutorial/Alpaca25/resilient_bot.py:535-537 | the record is the loaded one and the flag is read from it; the error counter is 0, no pause yet, and nothing saved or sent |
| ResilientBot.Reconcile | AlpacaTutorial/Alpaca25/resilient_bot.py:544-583 | an unverified sync keeps the saved state; a mismatch adopts and saves the broker's answer; a match changes nothing |
| ResilientBot.ReconcileIdempotent | AlpacaTutorial/Alpaca25/resilient_bot.py:544-583 | reconciling twice with the same answer is reconciling once |
| ResilientBot.Trade | AlpacaTutorial/Alpaca25/resilient_bot.py:685-799 | the trading part leaves the counters alone and keeps the flag, the record and the last save in agreement |
| ResilientBot.Breaker | AlpacaTutorial/Alpaca25/resilient_bot.py:802-818 | at five errors the bot pauses once and resets the counter; below five nothing changes |
| ResilientBot.SkippedExactly | AlpacaTutorial/Alpaca25/resilient_bot.py:606-681 | a cycle is skipped as an error exactly on an unexpected exception, a failed fetch or a frame without closes, or fewer closes than either window; on exact closes the NaN check adds no other case |
| ResilientBot.CycleAsWritten | AlpacaTutorial/Alpaca25/resilient_bot.py:599-818 | as written, a skipped cycle only adds one to the counter; a completed cycle leaves the counter at 0 and the pauses unchanged, so the breaker check it reaches cannot fire; the agreement is kept |
| ResilientBot.StepsAsWritten | AlpacaTutorial/Alpaca25/resilient_bot.py:599-861 | as written, a run keeps the flag, the record and the last save in agreement, and the counter grows by at most one per cycle |
| ResilientBot.BreakerNeverFiresAsWritten | AlpacaTutorial/Alpaca25/resilient_bot.py:626-818 | as written, no run of cycles ever pauses |
| ResilientBot.FaultsOnlyCountAsWritten | AlpacaTutorial/Alpaca25/resilient_bot.py:608-683 | as written, a run of failed cycles only adds one to the counter per failure and changes nothing else |
| ResilientBot.FiveFailuresDoNotPauseAsWritten | AlpacaTutorial/Alpaca25/resilient_bot.py:843-861 | as written, five failed cycles leave the counter at 5 and the bot running |
| ResilientBot.Iteration | AlpacaTutorial/Alpaca25/resilient_bot.py:599-861 | corrected: the counter stays below five, a completed cycle resets it and trades, and the flag, record and last save stay in agreement |
| ResilientBot.FiveFailuresPause | AlpacaTutorial/Alpaca25/resilient_bot.py:802-818 | corrected: five failed cycles trip the breaker once and reset the counter |
| ResilientBot.CounterStaysBelowMax | AlpacaTutorial/Alpaca25/resilient_bot.py:802-818 | corrected: over any run the counter stays below the maximum between cycles |
| ResilientBot.SkippedCycleTradesNothing | AlpacaTutorial/Alpaca25/resilient_bot.py:608-683 | a skipped cycle trades and saves nothing; a completed one resets the counter |
| ResilientBot.EntryIsConfirmed | AlpacaTutorial/Alpaca25/resilient_bot.py:686-705 | the flag turns true only after a completed cycle, a golden cross and an order that came back, which is the one request added |
| ResilientBot.ExitIsConfirmed | AlpacaTutorial/Alpaca25/resilient_bot.py:744-763 | the flag turns false only after a death cross and a close reported as done |
| ResilientBot.StepsStayConsistent | AlpacaTutorial/Alpaca25/resilient_bot.py:599-861 | over any run the flag, the record and the last save agree |
| ResilientBot.ResilientTrader.constructor | AlpacaTutorial/Alpaca25/resilient_bot.py:535-583 | start-up leaves the state that loading, syncing and reconciling specify |
| ResilientBot.ResilientTrader.RunCycle | AlpacaTutorial/Alpaca25/resilient_bot.py:599-861 | one iteration updates the fields to the corrected iteration's result |
| ResilientBot.ResilientTrader.Run | AlpacaTutorial/Alpaca25/resilient_bot.py:599-861 | the loop leaves the state of the whole run |
| ManualTrailBot.TrailingStopUpdate | AlpacaTutorial/Alpaca15/manual_trail_bot.py:97-130 | the stop moves exactly when the order was read, the replacement succeeded and the new stop 3% under the price is strictly higher; then only that stop changes and the replacement is sent; no stop ever goes down |
| ManualTrailBot.StopStaysWhenPriceFalls | AlpacaTutorial/Alpaca15/manual_trail_bot.py:111-126 | a price that does not lift the stop leaves everything unchanged |
| ManualTrailBot.PositionManagement | AlpacaTutorial/Alpaca15/manual_trail_bot.py:193-224 | a gone position, an unknown stop or a failed price query drop the id and change nothing; otherwise the id is kept after the trailing update |
| ManualTrailBot.PlaceInitialStopLoss | AlpacaTutorial/Alpaca15/manual_trail_bot.py:67-94 | the broker's id is returned; with an id, a sell stop for the position 3% under the fill, rounded to cents, is placed and recorded |
| ManualTrailBot.LongEntry | AlpacaTutorial/Alpaca15/manual_trail_bot.py:147-190 | an id comes back exactly when the buy, the fill-price read and the stop all succeeded; a refused buy changes nothing; an accepted buy is the first request sent |
| ManualTrailBot.GoldenCrossSignal | AlpacaTutorial/Alpaca15/manual_trail_bot.py:31-64 | the signal is exactly a golden cross of the 20 and 50 SMAs on fetched bars; any error reads as no signal |
| ManualTrailBot.Step | AlpacaTutorial/Alpaca15/manual_trail_bot.py:241-301 | an error or a flat account without a signal clears the id; holding keeps the id or drops it |
| ManualTrailBot.StepNeverLowers | AlpacaTutorial/Alpaca15/manual_trail_bot.py:241-301 | one iteration never lowers a stop it placed |
| ManualTrailBot.HoldingKeepsTheStop | AlpacaTutorial/Alpaca15/manual_trail_bot.py:251-257 | while the position and the price are there, the active id is kept |
| ManualTrailBot.EntryRemembersItsStop | AlpacaTutorial/Alpaca15/manual_trail_bot.py:264-270 | a successful entry remembers its stop's id, and that stop sits 3% under the fill |
| ManualTrailBot.StopsNeverLower | AlpacaTutorial/Alpaca15/manual_trail_bot.py:111-112 | over any run, no stop order's price ever goes down |
| ManualTrailBot.ShutdownCancel | AlpacaTutorial/Alpaca15/manual_trail_bot.py:278-294 | on Ctrl+C the active stop is cancelled exactly when its id is set and non-empty |
| ManualTrailBot.ManualTrailTrader.constructor | AlpacaTutorial/Alpaca15/manual_trail_bot.py:28 | no active stop id and no orders yet |
| ManualTrailBot.ManualTrailTrader.UpdateTrailingStop | AlpacaTutorial/Alpaca15/manual_trail_bot.py:97-130 | the flag and the new state are those of `TrailingStopUpdate` |
| ManualTrailBot.ManualTrailTrader.ManageExistingPosition | AlpacaTutorial/Alpaca15/manual_trail_bot.py:193-224 | the id and the new state are those of `PositionManagement` |
| ManualTrailBot.ManualTrailTrader.EnterLongPosition | AlpacaTutorial/Alpaca15/manual_trail_bot.py:147-190 | the id and the new state are those of `LongEntry` |
| ManualTrailBot.ManualTrailTrader.RunCycle | AlpacaTutorial/Alpaca15/manual_trail_bot.py:241-301 | one iteration updates the fields to the step's result |
| ManualTrailBot.ManualTrailTrader.Run | AlpacaTutorial/Alpaca15/manual_trail_bot.py:241-301 | the loop leaves the state of the whole run |
| ManualTrailBot.ManualTrailTrader.Shutdown | AlpacaTutorial/Alpaca15/manual_trail_bot.py:278-294 | exactly the cancel request is sent, when there is one, and nothing else changes |
| PairsTrading.LoadState | AlpacaTutorial/Alpaca30/pairs_trading_bot.py:74-88 | the parsed record, or the all-null default when there is none |
| PairsTrading.SaveThenLoad | AlpacaTutorial/Alpaca30/pairs_trading_bot.py:91-97 | what is saved is what is loaded back |
| PairsTrading.TestCointegration | AlpacaTutorial/Alpaca30/pairs_trading_bot.py:145-169 | cointegrated exactly when the p-value is below 0.05; a failing test gives `(False, 1.0)` |
| PairsTrading.SpreadSeries | AlpacaTutorial/Alpaca30/pairs_trading_bot.py:185 | the spread is A - B row by row |
| PairsTrading.CalculateSpreadStats | AlpacaTutorial/Alpaca30/pairs_trading_bot.py:172-208 | an empty frame raises; otherwise the last spread, a mean over the last 60 rows when there are that many, the supplied std when there are at least two, and z = (spread - mean) / std for a positive std, 0 otherwise |
| PairsTrading.LockedSpreadHasZeroScore | AlpacaTutorial/Alpaca30/pairs_trading_bot.py:188-200 | a spread that is constant over the window has sample variance 0, and its z-score is 0 whatever std is supplied |
| PairsTrading.CalculatePositionSize | AlpacaTutorial/Alpaca30/pairs_trading_bot.py:235-246 | at 2% risk each leg gets a fiftieth of the account, never more than the account |
| PairsTrading.TradeLegs | AlpacaTutorial/Alpaca30/pairs_trading_bot.py:284-318 | two orders: A bought for a long spread and sold otherwise, then B on the opposite side |
| PairsTrading.PairsTrade | AlpacaTutorial/Alpaca30/pairs_trading_bot.py:249-329 | success exactly when both prices are usable, both legs get a whole share and both orders are accepted; anything sent is a prefix of the two legs; only leg A is sent when B is refused |
| PairsTrading.TooSmallForOneShare | AlpacaTutorial/Alpaca30/pairs_trading_bot.py:276-281 | a leg under one share means nothing is sent and the trade fails |
| PairsTrading.SmallAccountPlacesNothing | AlpacaTutorial/Alpaca30/pairs_trading_bot.py:276-281 | a $10,000 account gets no share of a $205 leg |
| PairsTrading.CloseOrder | AlpacaTutorial/Alpaca30/pairs_trading_bot.py:340-345 | the close order is a market order for the absolute whole quantity, selling a long and buying back a short, so it cancels the position |
| PairsTrading.CloseLeg | AlpacaTutorial/Alpaca30/pairs_trading_bot.py:338-349 | a leg is closed exactly when it is open and the order is accepted |
| PairsTrading.DecideAsWritten | AlpacaTutorial/Alpaca30/pairs_trading_bot.py:464-493 | as written, a recorded spread with a broker position exits exactly on the written exit test |
| PairsTrading.Decide | AlpacaTutorial/Alpaca30/pairs_trading_bot.py:464-528 | corrected: flat: short spread exactly at z >= 2, long exactly at z <= -2, hold in between; an unrecorded position is closed; a recorded one exits exactly when the spread has come back within 0.5 and holds otherwise |
| PairsTrading.AsWrittenExitsWithoutReversion | AlpacaTutorial/Alpaca30/pairs_trading_bot.py:472-486 | as written, a long spread entered at -2.5 is closed at -2.4 and a short one entered at 2.5 is closed at 2.4; the corrected rule holds both |
| PairsTrading.AsWrittenEntryMeetsExit | AlpacaTutorial/Alpaca30/pairs_trading_bot.py:472-519 | as written, every entry z-score already passes its own exit test |
| PairsTrading.EntryDoesNotMeetExit | AlpacaTutorial/Alpaca30/pairs_trading_bot.py:391-392 | corrected, no entry z-score passes its own exit test |
| PairsTrading.RunMain | AlpacaTutorial/Alpaca30/pairs_trading_bot.py:373-528 | a run saves at most once, the new state, and saves whenever the state changed |
| PairsTrading.ShortHistoryDoesNothing | AlpacaTutorial/Alpaca30/pairs_trading_bot.py:407-417 | fewer than 60 aligned rows, or no account, trade and save nothing |
| PairsTrading.CointegrationIsAdvisory | AlpacaTutorial/Alpaca30/pairs_trading_bot.py:424-431 | the run does the same whatever the p-value |
| PairsTrading.EntryRecordsConfirmedTrade | AlpacaTutorial/Alpaca30/pairs_trading_bot.py:495-525 | when flat with a z-score of at least 2 in size, the run records and saves the side, the z-score, the time and the symbols exactly when both legs were accepted |
| PairsTrading.LeavingTheSpreadIsAnExit | AlpacaTutorial/Alpaca30/pairs_trading_bot.py:468-486 | the state leaves a spread only through an exit, which closes both legs and keeps the symbols |
| PairsTrading.OrphanIsClosed | AlpacaTutorial/Alpaca30/pairs_trading_bot.py:490-493 | a broker position the state does not record is closed, and the state is left alone |
| PairsTrading.EntryIsHeldUntilReversion | AlpacaTutorial/Alpaca30/pairs_trading_bot.py:464-525 | a spread entered in one run is held by the next run at the same z-score |
| PairsTrading.PairsTrader.constructor | AlpacaTutorial/Alpaca30/pairs_trading_bot.py:399-400 | the trader starts from the loaded state with nothing saved or sent |
| PairsTrading.PairsTrader.ExecutePairsTrade | AlpacaTutorial/Alpaca30/pairs_trading_bot.py:249-329 | the flag and the orders sent are those of `PairsTrade` |
| PairsTrading.PairsTrader.ClosePairsPosition | AlpacaTutorial/Alpaca30/pairs_trading_bot.py:332-370 | it always reports success, and it sends the close order of each open, accepted leg, A first |
| PairsTrading.PairsTrader.LeaveSpread | AlpacaTutorial/Alpaca30/pairs_trading_bot.py:472-478 | the exit closes both legs, clears the spread fields and saves the cleared record |
| PairsTrading.PairsTrader.EnterSpread | AlpacaTutorial/Alpaca30/pairs_trading_bot.py:499-508 | the entry sends the legs `PairsTrade` sends, and records and saves the spread exactly when both were accepted |
| PairsTrading.PairsTrader.RunStrategy | AlpacaTutorial/Alpaca30/pairs_trading_bot.py:373-528 | one run leaves the state, the saves and the orders of `RunMain` |

## Left out

- Broker and data SDK calls, JSON files, logging, Discord notifications and `sleep` are not modelled. What their calls return is an input: a query outcome, a fetched series, or a flag saying whether a submit returned or raised. What the bots send is recorded as requests.
- The `pandas_ta` indicators are inputs: the RSI, MACD and Bollinger columns and the bandwidth are given per row. Only the SMA, as `rolling(window).mean()`, is computed.
- `coint` is an input: its p-value. The square root behind `rolling().std()` is also an input. `LockedSpreadHasZeroScore` proves the sample variance of a locked window is 0 but does not tie the supplied std to it.
- Timestamp alignment and `dropna` in the pairs bot are left out: the two close columns are given already aligned.
- Prices are exact reals. Binary floating point is not modelled.
- AnalyzeBacktest: only the Sharpe ratio and the profit factor may be NaN. The returns, the drawdown, the win rate and the average win and loss are taken as numbers.
- PairsTrading.PairsTrader.ClosePairsPosition: `close_pairs_position` queries each leg's position again. The model passes in the legs from the run's earlier query, so a position that changed between the two queries is not modelled.
- AnalyzeBacktest.CalculateAnnualReturn: the `** (1 / years)` power is an input (`growthRoot`). Only the guard and the final scaling are modelled.
- PairsTrading.CalculateSpreadStats: the sample standard deviation of the last window is an input (`windowStd`), not computed.
- PairsTrading.CloseOrder: quantities are numbers. The SDK reports `qty` as a decimal string, and on a string `position_a.qty > 0` would raise. The bare `except` would then skip that leg. The model assumes a numeric quantity.
- TrailingStopBot.MonitorPosition: the `float(...)` conversions of the position's fields are taken to succeed. A conversion that raised would make the call return `False`.
- ResilientBot.Iteration: an unexpected exception (`Fault`) is taken to happen before the counter reset. Every helper catches its own errors, so a later exception is not a path of the source that the model distinguishes.
- `str.lower()` is modelled for ASCII letters only, and the broker's messages are taken to be ASCII.
- Stateless polling loops (crossover, bracket, dynamic sizing, RSI, MACD, Bollinger, confirmation, multi-timeframe, config-driven) are modelled as one iteration. Their iterations share no state.
- `KeyboardInterrupt` ends every loop. It is modelled only where it does something, which is the manual-trail bot's cancel on shutdown.
- The in-place column assignment on data frames (`df['sma_20'] = ...`) is modelled on values: each frame is a sequence of rows.
- ManualTrailBot.StopsNeverLower: the broker is taken to give every new stop order a fresh id (`FreshIds`).
- ConfirmationBot.Iteration: the second position query on exit is a separate input (`exitQuery`) from the first.
- BollingerBot.GetCurrentPosition: a fractional quantity makes `int(position.qty)` raise. The handler then reports no position, which the model follows.
- LoggingBot.GetCurrentPosition: a fractional quantity gets the same treatment and reads as 0.
- `analyze_backtest.py` only prints its report. The model keeps the bands, the report lines, the indicator count and the verdict, and drops the formatting and the data loading.
- The backtest runner, the websocket stream, the data-fetch, status, order and hello-world scripts are not part of this model. Neither are the config files.
- The print-only `main` of `calculate_sma.py` is not modelled beyond the two SMA columns.

## Findings

Two places where the code does not do what its own text says it does. For each, the model states the code as written and proves the discrepancy. The rest of the model uses the evidently intended behaviour.

- The resilient bot counts consecutive errors so that its circuit breaker can pause it after five in a row (resilient_bot.py:596-597, 801-818). As written the breaker can never fire.
- The pairs bot's docstring says it profits from mean reversion of the spread (pairs_trading_bot.py:1-12). The comment on `Z_SCORE_EXIT` says a position exits once the z-score has come back under 0.5 (pairs_trading_bot.py:392), which for a spread entered beyond 2 in size means back near 0. As written the exit test already holds at the z-score the spread was entered at, so a spread can be closed before it has reverted.

| source | as written | input that shows it | evidently intended | confidence | as-written member | corrected member |
|---|---|---|---|---|---|---|
| AlpacaTutorial/Alpaca25/resilient_bot.py:683 | every error path increments `consecutive_errors` and `continue`s before the circuit-breaker check at 802-818, and every path that reaches the check has just reset the counter to 0, so the breaker never fires | five cycles in a row whose bar fetch returns `None`: the counter reaches 5 and the bot keeps polling without the five-minute pause | the breaker is checked where errors are counted, so five consecutive failures pause the bot once and reset the counter | not executed | ResilientBot.FiveFailuresDoNotPauseAsWritten | ResilientBot.FiveFailuresPause |
| AlpacaTutorial/Alpaca30/pairs_trading_bot.py:472-486 | a long spread exits at `z <= 0.5` and a short spread at `z >= -0.5`, and both hold at the z-score the spread was entered at (at most -2 for a long, at least 2 for a short) | a long spread entered at z = -2.5 and a next run at z = -2.4: the position is closed although the spread has not reverted | a long spread exits once z has come back to -0.5 or above, and a short spread once it has come back to 0.5 or below | not executed | PairsTrading.AsWrittenExitsWithoutReversion | PairsTrading.EntryDoesNotMeetExit |
