// AlpacaTutorial/Alpaca17/bollinger_bot.py: buy the breakout out of a
// Bollinger squeeze, sell when the price falls back under the middle band.
// One iteration of the polling loop is modelled; iterations share no state.

module BollingerBot {
  import opened Wrappers
  import opened Numeric
  import opened Broker
  import opened Signals

  const SYMBOL_TO_TRADE := "NVDA"
  const BB_PERIOD: nat := 20
  const BB_STD_DEV := 2.0
  const SQUEEZE_THRESHOLD := 4.0
  const QTY_PER_TRADE := 5

  /** One hourly bar with the band columns the indicator library adds (NaN while warming up). */
  datatype BandRow = BandRow(close: real, middle: Num, upper: Num, bandwidth: Num)

  /**
   * `check_squeeze_breakout`: the previous bar was squeezed (bandwidth under
   * the threshold) and the current close is above the upper band.
   */
  predicate CheckSqueezeBreakout(current: BandRow, previous: BandRow, squeezeThreshold: real) {
    Lt(previous.bandwidth, Some(squeezeThreshold)) && Lt(current.upper, Some(current.close))
  }

  /** `check_mean_reversion`: the close is below the middle band. */
  predicate CheckMeanReversion(current: BandRow) {
    Lt(Some(current.close), current.middle)
  }

  /**
   * With the upper band at or above the middle band, as it is for any
   * non-negative deviation, a bar cannot both break out and revert.
   */
  lemma BreakoutExcludesReversion(current: BandRow, previous: BandRow, squeezeThreshold: real)
    requires current.middle.Some? && current.upper.Some? && current.middle.value <= current.upper.value
    ensures !(CheckSqueezeBreakout(current, previous, squeezeThreshold) && CheckMeanReversion(current))
  {
  }

  /**
   * `get_current_position`: `(True, int(qty))` when the query succeeds and
   * the quantity parses as a whole number; `(False, 0)` when either raises.
   */
  function GetCurrentPosition(query: PositionQuery): (status: (bool, int))
    ensures status.0 <==> query.Open? && WholeQty(query.qty).Some?
    ensures status.0 ==> status.1 as real == query.qty
    ensures !status.0 ==> status.1 == 0
  {
    match query
    case Open(qty) => if WholeQty(qty).Some? then (true, WholeQty(qty).value) else (false, 0)
    case Raised(_) => (false, 0)
  }

  /**
   * What one iteration observes: the position query and the bars with their
   * bands; `None` when the fetch or the band calculation raised.
   */
  datatype Observation = Observation(position: PositionQuery, rows: Option<seq<BandRow>>)

  /**
   * `fetch_price_data` raises on an empty frame, and reading `iloc[-2]`
   * raises on a single bar; either way the iteration ends in the outer
   * handler. Two bars are needed to reach a signal.
   */
  predicate ReachesSignals(obs: Observation) {
    obs.rows.Some? && |obs.rows.value| >= 2
  }

  function Previous(obs: Observation): BandRow
    requires ReachesSignals(obs)
  {
    obs.rows.value[|obs.rows.value| - 2]
  }

  function Current(obs: Observation): BandRow
    requires ReachesSignals(obs)
  {
    obs.rows.value[|obs.rows.value| - 1]
  }

  /**
   * One iteration of `run_bollinger_bot`: the order submitted, if any. Flat,
   * a squeeze breakout buys five shares; holding, a reversion below the
   * middle band sells the whole-share quantity held.
   */
  function Iteration(obs: Observation): (order: Option<Request>)
    ensures obs.rows.Some? && |obs.rows.value| == 0 ==> order.None?
    ensures order.Some? ==> ReachesSignals(obs) && order.value.Market?
    ensures order.Some? && order.value.side == Buy <==>
              ReachesSignals(obs) && !GetCurrentPosition(obs.position).0
              && CheckSqueezeBreakout(Current(obs), Previous(obs), SQUEEZE_THRESHOLD)
    ensures order.Some? && order.value.side == Sell <==>
              ReachesSignals(obs) && GetCurrentPosition(obs.position).0 && CheckMeanReversion(Current(obs))
    ensures order.Some? && order.value.side == Buy ==>
              order.value == Market(SYMBOL_TO_TRADE, QTY_PER_TRADE as real, Buy)
    ensures order.Some? && order.value.side == Sell ==>
              order.value == Market(SYMBOL_TO_TRADE, obs.position.qty, Sell)
  {
    if !ReachesSignals(obs) then None
    else
      var status := GetCurrentPosition(obs.position);
      if !status.0 then
        if CheckSqueezeBreakout(Current(obs), Previous(obs), SQUEEZE_THRESHOLD) then
          Some(Market(SYMBOL_TO_TRADE, QTY_PER_TRADE as real, Buy))
        else None
      else if CheckMeanReversion(Current(obs)) then Some(Market(SYMBOL_TO_TRADE, status.1 as real, Sell))
      else None
  }

  /**
   * A holding whose quantity is fractional is read as no position, so the
   * bot goes looking for an entry instead of managing its exit.
   */
  lemma FractionalHoldingLooksFlat(obs: Observation)
    requires obs.position.Open? && obs.position.qty.Floor as real != obs.position.qty
    ensures Iteration(obs).Some? ==> Iteration(obs).value.side == Buy
  {
  }
}
