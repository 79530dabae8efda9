// The golden-cross entry bots that buy with a bracket order:
// bracket_bot.py and Alpaca12/bracket_bot.py (fixed quantity, 5% take-profit,
// 2% stop-loss), and Alpaca13/dynamic_sizing_bot.py (quantity sized so that
// one stop-out loses a fixed share of equity).
//
// Each module models one iteration of the bot's polling loop; iterations
// share no state, so the loop itself is the repetition of that function.

module BracketBot {
  import opened Wrappers
  import opened Numeric
  import opened Broker
  import opened Signals
  import opened PriceLevels
  import Sma

  const SYMBOL_TO_TRADE := "AAPL"
  const QTY_PER_TRADE := 1.0
  const TAKE_PROFIT_PERCENTAGE := 5.0
  const STOP_LOSS_PERCENTAGE := 2.0

  /**
   * What one iteration observes: whether `check_position_exists` found a
   * position (a failed query counts as none), the closes fetched (`None`
   * when the fetch raised) and the last trade price (`None` when it raised).
   */
  datatype Observation = Observation(positionExists: bool, closes: Option<seq<real>>, lastPrice: Option<real>)

  /** `calculate_moving_averages`: the 20- and 50-bar SMA columns. */
  function Rows(closes: seq<real>): seq<SmaRow> {
    WithMovingAverages(closes, Sma.SHORT_SMA_WINDOW, Sma.LONG_SMA_WINDOW)
  }

  /** The bracket order for an entry at `price`: take-profit as limit price, stop-loss as stop price. */
  function EntryOrder(price: real): (order: Request)
    ensures order.Bracket? && order.side == Buy && order.qty == QTY_PER_TRADE
    ensures (order.takeProfit, order.stopLoss) == ExitPrices(price, TAKE_PROFIT_PERCENTAGE, STOP_LOSS_PERCENTAGE)
  {
    var prices := ExitPrices(price, TAKE_PROFIT_PERCENTAGE, STOP_LOSS_PERCENTAGE);
    Bracket(SYMBOL_TO_TRADE, QTY_PER_TRADE, Buy, prices.0, prices.1)
  }

  /**
   * One iteration of `run_bracket_bot`: the order submitted, if any. An
   * exception anywhere (a failed fetch, fewer than two bars for
   * `iloc[-2]`, a failed price query) ends the iteration without an order.
   */
  function Iteration(obs: Observation): (order: Option<Request>)
    ensures obs.positionExists ==> order.None?
    ensures order.Some? <==> !obs.positionExists && obs.closes.Some? && GoldenCross(Rows(obs.closes.value))
                             && obs.lastPrice.Some?
    ensures order.Some? ==> order.value == EntryOrder(obs.lastPrice.value)
  {
    if obs.positionExists then None
    else if obs.closes.None? then None
    else match GoldenCrossUnguarded(Rows(obs.closes.value))
      case None => None
      case Some(signal) =>
        if signal && obs.lastPrice.Some? then Some(EntryOrder(obs.lastPrice.value)) else None
  }

  /** Every order the bot sends brackets its entry price: stop-loss at or below, take-profit at or above. */
  lemma OrderBracketsEntry(obs: Observation)
    requires Iteration(obs).Some? && 0.0 <= obs.lastPrice.value
    ensures Iteration(obs).value.stopLoss <= RoundCents(obs.lastPrice.value) <= Iteration(obs).value.takeProfit
  {
    ExitPricesBracketEntry(obs.lastPrice.value, TAKE_PROFIT_PERCENTAGE, STOP_LOSS_PERCENTAGE);
  }

  /** A $100 entry gets a $105 take-profit and a $98 stop-loss. */
  lemma HundredDollarEntry()
    ensures ExitPrices(100.0, TAKE_PROFIT_PERCENTAGE, STOP_LOSS_PERCENTAGE) == (105.0, 98.0)
  {
    assert TargetAbove(100.0, TAKE_PROFIT_PERCENTAGE) == 105.0;
    assert StopBelow(100.0, STOP_LOSS_PERCENTAGE) == 98.0;
    RoundCentsFixesWholeCents(105.0);
    RoundCentsFixesWholeCents(98.0);
  }
}

module DynamicSizing {
  import opened Wrappers
  import opened Numeric
  import opened Broker
  import opened Signals
  import opened PriceLevels
  import BracketBot

  const SYMBOL_TO_TRADE := "AAPL"
  const RISK_PER_TRADE_PERCENTAGE := 1.0
  const TAKE_PROFIT_PERCENTAGE := 3.0
  const STOP_LOSS_PERCENTAGE := 1.0

  /** `total_equity * (risk_percentage / 100)`: the dollars one trade may lose. */
  function RiskAmount(totalEquity: real, riskPct: real): real {
    totalEquity * (riskPct / 100.0)
  }

  /** `entry_price - stop_loss_price`: what one share loses when the stop is hit. */
  function RiskPerShare(entryPrice: real, slPct: real): real {
    entryPrice - StopBelow(entryPrice, slPct)
  }

  /**
   * `calculate_position_size`: 0 when the stop is not below the entry,
   * otherwise the whole number of shares whose combined stop-out loss fits
   * in the risk amount.
   */
  function CalculatePositionSize(totalEquity: real, entryPrice: real, riskPct: real, slPct: real): (shares: int)
    ensures RiskPerShare(entryPrice, slPct) <= 0.0 ==> shares == 0
    ensures 0.0 < RiskPerShare(entryPrice, slPct) && 0.0 <= RiskAmount(totalEquity, riskPct) ==>
              0 <= shares
              && shares as real * RiskPerShare(entryPrice, slPct) <= RiskAmount(totalEquity, riskPct)
              && RiskAmount(totalEquity, riskPct) < (shares + 1) as real * RiskPerShare(entryPrice, slPct)
    ensures 0.0 < RiskPerShare(entryPrice, slPct) ==>
              (shares >= 1 <==> RiskAmount(totalEquity, riskPct) >= RiskPerShare(entryPrice, slPct))
  {
    var riskAmount := RiskAmount(totalEquity, riskPct);
    var riskPerShare := RiskPerShare(entryPrice, slPct);
    if riskPerShare <= 0.0 then 0
    else
      var shares := Trunc(riskAmount / riskPerShare);
      if 0.0 <= riskAmount then TruncQuotient(riskAmount, riskPerShare); AtLeastOneUnit(riskAmount, riskPerShare); shares
      else AtLeastOneUnit(riskAmount, riskPerShare); shares
  }

  /** `a / b >= 1` exactly when `a >= b`, for a positive `b`. */
  lemma AtLeastOneUnit(a: real, b: real)
    requires 0.0 < b
    ensures a / b >= 1.0 <==> a >= b
  {
    DivTimes(a, b);
    if a / b >= 1.0 {
      MulMonotone(1.0, a / b, b);
    } else {
      MulMonotone(a / b, 1.0, b);
    }
  }

  /** The stop sits `slPct` percent below the entry, so one share risks that fraction of its price. */
  lemma RiskPerShareIsStopDistance(entryPrice: real, slPct: real)
    ensures RiskPerShare(entryPrice, slPct) == entryPrice * (slPct / 100.0)
  {
  }

  /**
   * At 1% risk and a 1% stop, one share risks 1% of its price, so the bot
   * can trade exactly when equity covers the price of one share: the
   * bot's "need at least price * stop / risk equity" hint.
   */
  lemma TutorialRatesNeedOneShareOfEquity(totalEquity: real, entryPrice: real)
    requires 0.0 < entryPrice
    ensures CalculatePositionSize(totalEquity, entryPrice, RISK_PER_TRADE_PERCENTAGE, STOP_LOSS_PERCENTAGE) >= 1
            <==> totalEquity >= entryPrice * STOP_LOSS_PERCENTAGE / RISK_PER_TRADE_PERCENTAGE
  {
    RiskPerShareIsStopDistance(entryPrice, STOP_LOSS_PERCENTAGE);
    assert RiskPerShare(entryPrice, STOP_LOSS_PERCENTAGE) == entryPrice / 100.0;
    assert RiskAmount(totalEquity, RISK_PER_TRADE_PERCENTAGE) == totalEquity / 100.0;
  }

  /**
   * What one iteration observes: the position check, the closes (`None`
   * when the fetch raised), the account equity and the last trade price
   * (`None` when the query raised).
   */
  datatype Observation = Observation(positionExists: bool, closes: Option<seq<real>>,
                                     equity: Option<real>, lastPrice: Option<real>)

  /** The shares the bot would buy at `price` with `equity`. */
  function Quantity(equity: real, price: real): int {
    CalculatePositionSize(equity, price, RISK_PER_TRADE_PERCENTAGE, STOP_LOSS_PERCENTAGE)
  }

  /**
   * One iteration of `run_dynamic_sizing_bot`: with no position and a golden
   * cross, size the trade from equity and price, skip it below one share,
   * and otherwise send a bracket order at 3% take-profit and 1% stop-loss.
   */
  function Iteration(obs: Observation): (order: Option<Request>)
    ensures obs.positionExists ==> order.None?
    ensures order.Some? <==> !obs.positionExists && obs.closes.Some? && GoldenCross(BracketBot.Rows(obs.closes.value))
                             && obs.equity.Some? && obs.lastPrice.Some?
                             && Quantity(obs.equity.value, obs.lastPrice.value) >= 1
    ensures order.Some? ==>
              var price := obs.lastPrice.value;
              order.value == Bracket(SYMBOL_TO_TRADE, Quantity(obs.equity.value, price) as real, Buy,
                                     TakeProfitPrice(price, TAKE_PROFIT_PERCENTAGE),
                                     StopLossPrice(price, STOP_LOSS_PERCENTAGE))
  {
    if obs.positionExists || obs.closes.None? then None
    else match GoldenCrossUnguarded(BracketBot.Rows(obs.closes.value))
      case None => None
      case Some(signal) =>
        if !signal || obs.equity.None? || obs.lastPrice.None? then None
        else
          var price := obs.lastPrice.value;
          var qty := Quantity(obs.equity.value, price);
          if qty < 1 then None
          else Some(Bracket(SYMBOL_TO_TRADE, qty as real, Buy,
                            TakeProfitPrice(price, TAKE_PROFIT_PERCENTAGE),
                            StopLossPrice(price, STOP_LOSS_PERCENTAGE)))
  }

  /**
   * Every order the bot sends risks at most the fixed share of equity: its
   * quantity times the distance from entry to the unrounded stop is within
   * 1% of equity.
   */
  lemma OrderRespectsRisk(obs: Observation)
    requires Iteration(obs).Some? && 0.0 < obs.lastPrice.value && 0.0 <= obs.equity.value
    ensures Iteration(obs).value.qty * RiskPerShare(obs.lastPrice.value, STOP_LOSS_PERCENTAGE)
            <= RiskAmount(obs.equity.value, RISK_PER_TRADE_PERCENTAGE)
  {
    var price := obs.lastPrice.value;
    var equity := obs.equity.value;
    assert Iteration(obs).value.qty == Quantity(equity, price) as real;
    RiskPerShareIsStopDistance(price, STOP_LOSS_PERCENTAGE);
    assert 0.0 < RiskPerShare(price, STOP_LOSS_PERCENTAGE);
    assert 0.0 <= RiskAmount(equity, RISK_PER_TRADE_PERCENTAGE);
  }

  /** An account too small for one share sends nothing, whatever the signal. */
  lemma SmallAccountSkips(obs: Observation)
    requires obs.equity.Some? && obs.lastPrice.Some? && 0.0 < obs.lastPrice.value
    requires obs.equity.value < obs.lastPrice.value
    ensures Iteration(obs).None?
  {
    TutorialRatesNeedOneShareOfEquity(obs.equity.value, obs.lastPrice.value);
  }
}
