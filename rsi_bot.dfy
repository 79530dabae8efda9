// AlpacaTutorial/Alpaca16/rsi_bot.py: mean reversion on the RSI. Buy when
// the RSI climbs back over 30, sell the holding when it falls back under 70.
// One iteration of the polling loop is modelled; iterations share no state.

module RsiBot {
  import opened Wrappers
  import opened Numeric
  import opened Broker
  import opened Signals

  const SYMBOL_TO_TRADE := "BTC/USD"
  const QTY_PER_TRADE := 0.01
  const RSI_PERIOD: nat := 14
  const RSI_OVERBOUGHT := 70.0
  const RSI_OVERSOLD := 30.0

  /** One minute bar with the RSI column the indicator library adds (NaN while warming up). */
  datatype RsiRow = RsiRow(close: real, rsi: Num)

  /**
   * `check_rsi_signals`: BUY when flat and the RSI rose through the
   * oversold level, SELL when holding and it fell through the overbought
   * level, HOLD otherwise.
   */
  function CheckRsiSignals(previousRsi: Num, currentRsi: Num, positionExists: bool): (signal: Decision)
    ensures signal == BuySignal ==> !positionExists
    ensures signal == SellSignal ==> positionExists
    ensures !positionExists ==> (signal == BuySignal <==> CrossedUpThrough(previousRsi, currentRsi, RSI_OVERSOLD))
    ensures positionExists ==> (signal == SellSignal <==> CrossedDownThrough(previousRsi, currentRsi, RSI_OVERBOUGHT))
  {
    if !positionExists && CrossedUpThrough(previousRsi, currentRsi, RSI_OVERSOLD) then BuySignal
    else if positionExists && CrossedDownThrough(previousRsi, currentRsi, RSI_OVERBOUGHT) then SellSignal
    else HoldSignal
  }

  /**
   * The same two readings never call for a buy when flat and a sell when
   * holding: whether the bot could act is settled by the RSI alone.
   */
  lemma ReadingsPickOneSide(previousRsi: Num, currentRsi: Num)
    ensures !(CheckRsiSignals(previousRsi, currentRsi, false) == BuySignal
              && CheckRsiSignals(previousRsi, currentRsi, true) == SellSignal)
  {
    ThresholdCrossingsExclusive(previousRsi, currentRsi, RSI_OVERSOLD, RSI_OVERBOUGHT);
  }

  /** A reading that is still NaN never produces a trade signal. */
  lemma WarmingUpHolds(previousRsi: Num, currentRsi: Num, positionExists: bool)
    requires previousRsi.None? || currentRsi.None?
    ensures CheckRsiSignals(previousRsi, currentRsi, positionExists) == HoldSignal
  {
  }

  /**
   * What one iteration observes: `check_position` (the held quantity, or
   * `None` when the query raised) and the bars with their RSI (`None` when
   * the fetch raised).
   */
  datatype Observation = Observation(position: Option<real>, rows: Option<seq<RsiRow>>)

  /** `len(df) >= RSI_PERIOD + 1`: the guard before any signal is evaluated. */
  predicate EnoughData(obs: Observation) {
    obs.rows.Some? && |obs.rows.value| >= RSI_PERIOD + 1
  }

  /** The signal of an iteration that passed the data guard. */
  function Signal(obs: Observation): Decision
    requires EnoughData(obs)
  {
    var rows := obs.rows.value;
    CheckRsiSignals(rows[|rows| - 2].rsi, rows[|rows| - 1].rsi, obs.position.Some?)
  }

  /**
   * One iteration of `run_rsi_bot`: the order submitted, if any. A BUY buys
   * the fixed quantity; a SELL sells the absolute size of the holding.
   */
  function Iteration(obs: Observation): (order: Option<Request>)
    ensures !EnoughData(obs) ==> order.None?
    ensures order.Some? <==> EnoughData(obs) && Signal(obs) != HoldSignal
    ensures order.Some? ==> order.value.Market?
    ensures order.Some? && order.value.side == Buy ==>
              obs.position.None? && order.value == Market(SYMBOL_TO_TRADE, QTY_PER_TRADE, Buy)
    ensures order.Some? && order.value.side == Sell ==>
              obs.position.Some? && order.value == Market(SYMBOL_TO_TRADE, Abs(obs.position.value), Sell)
  {
    if !EnoughData(obs) then None
    else match Signal(obs)
      case BuySignal => Some(Market(SYMBOL_TO_TRADE, QTY_PER_TRADE, Buy))
      case SellSignal => Some(Market(SYMBOL_TO_TRADE, Abs(obs.position.value), Sell))
      case HoldSignal => None
  }

  /** A sell never asks for more than is held, whichever sign the quantity is reported with. */
  lemma SellMatchesHolding(obs: Observation)
    requires Iteration(obs).Some? && Iteration(obs).value.side == Sell
    ensures Iteration(obs).value.qty == Abs(obs.position.value) && 0.0 <= Iteration(obs).value.qty
  {
  }
}
