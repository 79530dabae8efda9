// Alpaca19/confirmation_bot.py: enter only when the RSI and the MACD confirm
// each other, exit on a bearish MACD crossover. One iteration of the polling
// loop is modelled; iterations share no state.

module ConfirmationBot {
  import opened Wrappers
  import opened Numeric
  import opened Broker
  import opened Signals

  const SYMBOL_TO_TRADE := "AMD"
  const QTY_PER_TRADE := 10.0
  const RSI_PERIOD: nat := 14
  const RSI_OVERSOLD := 30.0

  /** One hourly bar with the RSI, MACD and signal columns the loop appends. */
  datatype Row = Row(close: real, rsi: Num, macdLine: Num, signalLine: Num)

  /** The inline `rsi_buy_signal`: the RSI rose through the oversold level. */
  predicate RsiBuySignal(previous: Row, current: Row) {
    CrossedUpThrough(previous.rsi, current.rsi, RSI_OVERSOLD)
  }

  /** The inline `macd_buy_signal`: the MACD line crossed above its signal line. */
  predicate MacdBuySignal(previous: Row, current: Row) {
    CrossedAbove(previous.macdLine, previous.signalLine, current.macdLine, current.signalLine)
  }

  /** The exit condition: the MACD line crossed below its signal line. */
  predicate MacdSellSignal(previous: Row, current: Row) {
    CrossedBelow(previous.macdLine, previous.signalLine, current.macdLine, current.signalLine)
  }

  /**
   * What one iteration observes: the first position query (a failure counts
   * as no position), the bars (`None` when the fetch raised) and the
   * second position query that reads the quantity to sell.
   */
  datatype Observation = Observation(position: PositionQuery, rows: Option<seq<Row>>, exitQuery: PositionQuery)

  /** Reading `iloc[-2]` of a frame with fewer than two bars raises into the outer handler. */
  predicate ReachesSignals(obs: Observation) {
    obs.rows.Some? && |obs.rows.value| >= 2
  }

  function Previous(obs: Observation): Row
    requires ReachesSignals(obs)
  {
    obs.rows.value[|obs.rows.value| - 2]
  }

  function Current(obs: Observation): Row
    requires ReachesSignals(obs)
  {
    obs.rows.value[|obs.rows.value| - 1]
  }

  /** The confirmed entry: flat, and both indicators signal a buy. */
  predicate ConfirmedBuy(obs: Observation)
    requires ReachesSignals(obs)
  {
    obs.position.Raised? && RsiBuySignal(Previous(obs), Current(obs)) && MacdBuySignal(Previous(obs), Current(obs))
  }

  /** The exit: holding, and the MACD turned bearish. */
  predicate ConfirmedSell(obs: Observation)
    requires ReachesSignals(obs)
  {
    obs.position.Open? && MacdSellSignal(Previous(obs), Current(obs))
  }

  /**
   * One iteration of `run_confirmation_bot`: the order submitted, if any. A
   * confirmed buy buys the fixed quantity; an exit sells the quantity the
   * second query reports, and sends nothing when that query raises.
   */
  function Iteration(obs: Observation): (order: Option<Request>)
    ensures order.Some? ==> ReachesSignals(obs) && order.value.Market?
    ensures order.Some? && order.value.side == Buy <==> ReachesSignals(obs) && ConfirmedBuy(obs)
    ensures order.Some? && order.value.side == Sell <==>
              ReachesSignals(obs) && ConfirmedSell(obs) && obs.exitQuery.Open?
    ensures order.Some? && order.value.side == Buy ==> order.value == Market(SYMBOL_TO_TRADE, QTY_PER_TRADE, Buy)
    ensures order.Some? && order.value.side == Sell ==> order.value == Market(SYMBOL_TO_TRADE, obs.exitQuery.qty, Sell)
  {
    if !ReachesSignals(obs) then None
    else if ConfirmedBuy(obs) then Some(Market(SYMBOL_TO_TRADE, QTY_PER_TRADE, Buy))
    else if ConfirmedSell(obs) then
      match obs.exitQuery
      case Open(qty) => Some(Market(SYMBOL_TO_TRADE, qty, Sell))
      case Raised(_) => None
    else None
  }

  /** The entry and the exit are split by the position, and their MACD conditions also exclude each other. */
  lemma EntryAndExitDisjoint(obs: Observation)
    requires ReachesSignals(obs)
    ensures !(MacdBuySignal(Previous(obs), Current(obs)) && MacdSellSignal(Previous(obs), Current(obs)))
    ensures !(ConfirmedBuy(obs) && ConfirmedSell(obs))
  {
    var p, c := Previous(obs), Current(obs);
    CrossingsExclusive(p.macdLine, p.signalLine, c.macdLine, c.signalLine);
  }
}
