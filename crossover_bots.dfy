// The SMA crossover bots that buy one share on a golden cross and sell one
// share on a death cross: Alpaca10/crossover_bot_final.py and
// crossover_bot_v1.py, which differ only in logging and error plumbing, and
// crossover_detector.py, which reports the signal without trading.
// One iteration of each polling loop is modelled; iterations share no state.

module CrossoverBot {
  import opened Wrappers
  import opened Broker
  import opened Signals
  import Sma

  const SYMBOL_TO_TRADE := "AAPL"
  const QTY_PER_TRADE := 1.0

  /**
   * `check_current_position` / `check_position_exists`: `(True, position)`
   * for an open position, `(False, None)` when the query raised.
   */
  function CheckCurrentPosition(query: PositionQuery): (status: (bool, Option<real>))
    ensures status.0 <==> query.Open?
    ensures status.0 ==> status.1 == Some(query.qty)
    ensures !status.0 ==> status.1.None?
  {
    match query
    case Open(qty) => (true, Some(qty))
    case Raised(_) => (false, None)
  }

  /** The 20- and 50-day SMA columns `calculate_moving_averages` adds. */
  function Rows(closes: seq<real>): seq<SmaRow> {
    WithMovingAverages(closes, Sma.SHORT_SMA_WINDOW, Sma.LONG_SMA_WINDOW)
  }

  /**
   * The decision on the last two rows: buy when flat on a golden cross,
   * sell when holding on a death cross, otherwise hold. `None` when the
   * frame has fewer than two rows and reading the previous row raises.
   */
  function Decide(inPosition: bool, rows: seq<SmaRow>): (side: Option<Side>)
    ensures |rows| < 2 ==> side.None?
    ensures side == Some(Buy) <==> !inPosition && GoldenCross(rows)
    ensures side == Some(Sell) <==> inPosition && DeathCross(rows)
  {
    match LastTwo(rows)
    case None => None
    case Some(pair) =>
      if !inPosition && GoldenOn(pair.0, pair.1) then Some(Buy)
      else if inPosition && DeathOn(pair.0, pair.1) then Some(Sell)
      else None
  }

  /** What one iteration observes: the position query and the daily closes (`None` when the fetch raised). */
  datatype Observation = Observation(position: PositionQuery, closes: Option<seq<real>>)

  /**
   * One iteration of `run_trading_bot` / `run_bot`: a market order for one
   * share on the decided side. A failed fetch skips the iteration.
   */
  function Iteration(obs: Observation): (order: Option<Request>)
    ensures obs.closes.None? ==> order.None?
    ensures order.Some? <==> obs.closes.Some? && Decide(CheckCurrentPosition(obs.position).0, Rows(obs.closes.value)).Some?
    ensures order.Some? ==>
              order.value == Market(SYMBOL_TO_TRADE, QTY_PER_TRADE,
                                    Decide(CheckCurrentPosition(obs.position).0, Rows(obs.closes.value)).value)
  {
    if obs.closes.None? then None
    else
      var (isInPosition, _) := CheckCurrentPosition(obs.position);
      match Decide(isInPosition, Rows(obs.closes.value))
      case None => None
      case Some(side) => Some(Market(SYMBOL_TO_TRADE, QTY_PER_TRADE, side))
  }

  /** Buys happen only while flat and sells only while holding, always for one share. */
  lemma SideFollowsPosition(obs: Observation)
    requires Iteration(obs).Some?
    ensures Iteration(obs).value.side == Buy <==> obs.position.Raised?
    ensures Iteration(obs).value.qty == QTY_PER_TRADE
  {
  }

  /** A golden cross seen while holding, or a death cross seen while flat, does nothing. */
  lemma WrongStateSignalHolds(obs: Observation)
    requires obs.closes.Some?
    requires (obs.position.Open? && !DeathCross(Rows(obs.closes.value)))
             || (obs.position.Raised? && !GoldenCross(Rows(obs.closes.value)))
    ensures Iteration(obs).None?
  {
  }
}

module CrossoverDetector {
  import opened Wrappers
  import opened Broker
  import opened Signals
  import Sma
  import CrossoverBot

  /** `detect_crossover`: the golden-cross and death-cross flags of two consecutive days. */
  function DetectCrossover(previousDay: SmaRow, currentDay: SmaRow): (flags: (bool, bool))
    ensures flags.0 <==> GoldenOn(previousDay, currentDay)
    ensures flags.1 <==> DeathOn(previousDay, currentDay)
    ensures !(flags.0 && flags.1)
  {
    CrossingsExclusive(previousDay.smaShort, previousDay.smaLong, currentDay.smaShort, currentDay.smaLong);
    (GoldenOn(previousDay, currentDay), DeathOn(previousDay, currentDay))
  }

  /**
   * `main`: the reported signal, checking the golden cross first, then the
   * death cross, else hold; `None` when the fetch raised (`None` here) or
   * the frame has fewer than two rows.
   */
  function Report(closes: Option<seq<real>>): (signal: Option<Decision>)
    ensures signal.None? <==> closes.None? || |closes.value| < 2
    ensures signal == Some(BuySignal) <==>
              closes.Some? && GoldenCross(WithMovingAverages(closes.value, Sma.SHORT_SMA_WINDOW, Sma.LONG_SMA_WINDOW))
    ensures signal == Some(SellSignal) <==>
              closes.Some? && DeathCross(WithMovingAverages(closes.value, Sma.SHORT_SMA_WINDOW, Sma.LONG_SMA_WINDOW))
  {
    if closes.None? then None
    else
      var rows := WithMovingAverages(closes.value, Sma.SHORT_SMA_WINDOW, Sma.LONG_SMA_WINDOW);
      match LastTwo(rows)
      case None => None
      case Some(pair) =>
        var (isGoldenCross, isDeathCross) := DetectCrossover(pair.0, pair.1);
        if isGoldenCross then Some(BuySignal)
        else if isDeathCross then Some(SellSignal)
        else Some(HoldSignal)
  }

  /**
   * Checking the golden cross first never hides a death cross: the report
   * says SELL whenever there is a death cross, because the two never coincide.
   */
  lemma PriorityNeverHidesDeathCross(closes: seq<real>)
    requires DeathCross(WithMovingAverages(closes, Sma.SHORT_SMA_WINDOW, Sma.LONG_SMA_WINDOW))
    ensures Report(Some(closes)) == Some(SellSignal)
  {
  }

  /**
   * The detector and the trading bots see the same signals: on any frame,
   * the report's BUY and SELL are exactly the crossings at which a flat bot
   * would buy and a holding bot would sell.
   */
  lemma ReportAgreesWithTradingBot(closes: seq<real>)
    ensures Report(Some(closes)) == Some(BuySignal) <==> CrossoverBot.Decide(false, CrossoverBot.Rows(closes)) == Some(Buy)
    ensures Report(Some(closes)) == Some(SellSignal) <==> CrossoverBot.Decide(true, CrossoverBot.Rows(closes)) == Some(Sell)
  {
  }
}
