// Alpaca18/macd_bot.py: buy on a bullish MACD crossover while flat, sell the
// holding on a bearish one. One iteration of the polling loop is modelled;
// iterations share no state.

module MacdBot {
  import opened Wrappers
  import opened Numeric
  import opened Broker
  import opened Signals

  const SYMBOL_TO_TRADE := "MSFT"
  const MACD_FAST: nat := 12
  const MACD_SLOW: nat := 26
  const MACD_SIGNAL: nat := 9
  const QTY_PER_TRADE := 10.0

  /** One hourly bar with the MACD and signal lines the indicator library adds. */
  datatype MacdRow = MacdRow(close: real, macdLine: Num, signalLine: Num)

  /** `detect_bullish_crossover`: the MACD line moved from below the signal line to above it. */
  predicate DetectBullishCrossover(previous: MacdRow, current: MacdRow) {
    CrossedAbove(previous.macdLine, previous.signalLine, current.macdLine, current.signalLine)
  }

  /** `detect_bearish_crossover`: the MACD line moved from above the signal line to below it. */
  predicate DetectBearishCrossover(previous: MacdRow, current: MacdRow) {
    CrossedBelow(previous.macdLine, previous.signalLine, current.macdLine, current.signalLine)
  }

  /** The two crossovers never fire on the same pair of bars. */
  lemma CrossoversExclusive(previous: MacdRow, current: MacdRow)
    ensures !(DetectBullishCrossover(previous, current) && DetectBearishCrossover(previous, current))
  {
    CrossingsExclusive(previous.macdLine, previous.signalLine, current.macdLine, current.signalLine);
  }

  /** `get_position_status`: `(True, qty)` for an open position, `(False, 0)` when the query raised. */
  function GetPositionStatus(query: PositionQuery): (status: (bool, real))
    ensures status.0 <==> query.Open?
    ensures status.0 ==> status.1 == query.qty
    ensures !status.0 ==> status.1 == 0.0
  {
    match query
    case Open(qty) => (true, qty)
    case Raised(_) => (false, 0.0)
  }

  /** What one iteration observes: the position query and the bars (`None` when the fetch raised). */
  datatype Observation = Observation(position: PositionQuery, rows: Option<seq<MacdRow>>)

  /** `len(df) >= MACD_SLOW + MACD_SIGNAL`: enough bars for the signal line. */
  predicate EnoughData(obs: Observation) {
    obs.rows.Some? && |obs.rows.value| >= MACD_SLOW + MACD_SIGNAL
  }

  function Previous(obs: Observation): MacdRow
    requires EnoughData(obs)
  {
    obs.rows.value[|obs.rows.value| - 2]
  }

  function Current(obs: Observation): MacdRow
    requires EnoughData(obs)
  {
    obs.rows.value[|obs.rows.value| - 1]
  }

  /**
   * One iteration of `run_macd_bot`: the order submitted, if any. Flat, a
   * bullish crossover buys the fixed quantity; holding, a bearish
   * crossover sells the quantity the position query reported.
   */
  function Iteration(obs: Observation): (order: Option<Request>)
    ensures !EnoughData(obs) ==> order.None?
    ensures order.Some? ==> EnoughData(obs) && order.value.Market?
    ensures order.Some? && order.value.side == Buy <==>
              EnoughData(obs) && obs.position.Raised? && DetectBullishCrossover(Previous(obs), Current(obs))
    ensures order.Some? && order.value.side == Sell <==>
              EnoughData(obs) && obs.position.Open? && DetectBearishCrossover(Previous(obs), Current(obs))
    ensures order.Some? && order.value.side == Buy ==> order.value == Market(SYMBOL_TO_TRADE, QTY_PER_TRADE, Buy)
    ensures order.Some? && order.value.side == Sell ==> order.value == Market(SYMBOL_TO_TRADE, obs.position.qty, Sell)
  {
    if !EnoughData(obs) then None
    else
      var status := GetPositionStatus(obs.position);
      if !status.0 then
        if DetectBullishCrossover(Previous(obs), Current(obs)) then Some(Market(SYMBOL_TO_TRADE, QTY_PER_TRADE, Buy))
        else None
      else if DetectBearishCrossover(Previous(obs), Current(obs)) then Some(Market(SYMBOL_TO_TRADE, status.1, Sell))
      else None
  }

  /** The buy and sell branches are split by the position: a holder never buys and a flat bot never sells. */
  lemma SidesFollowThePosition(obs: Observation)
    requires Iteration(obs).Some?
    ensures Iteration(obs).value.side == Buy <==> obs.position.Raised?
  {
  }
}
