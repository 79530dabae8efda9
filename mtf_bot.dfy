// AlpacaTutorial/Alpaca20/mtf_bot.py: the daily trend filters the hourly
// entry. It buys an RSI recovery only in an uptrend and never sells. One
// iteration of the polling loop is modelled; iterations share no state.

module MtfBot {
  import opened Wrappers
  import opened Numeric
  import opened Broker
  import opened Signals
  import Sma

  const SYMBOL_TO_TRADE := "TSLA"
  const QTY_PER_TRADE := 5.0
  const HTF_SMA_PERIOD: nat := 50
  const LTF_RSI_PERIOD: nat := 14
  const LTF_RSI_OVERSOLD := 30.0

  /**
   * `get_daily_trend_direction`: whether the latest daily close is above
   * the daily SMA (false while the SMA is still NaN); `None` when the fetch
   * raised (`None` here) or returned no bars.
   */
  function GetDailyTrendDirection(daily: Option<seq<real>>): (trend: Option<bool>)
    ensures trend.None? <==> daily.None? || |daily.value| == 0
    ensures trend == Some(true) ==>
              var closes := daily.value;
              |closes| >= HTF_SMA_PERIOD
              && Mean(closes[|closes| - HTF_SMA_PERIOD..]) < closes[|closes| - 1]
  {
    if daily.None? || |daily.value| == 0 then None
    else
      var closes := daily.value;
      var last := |closes| - 1;
      var sma := Sma.CalculateSma(closes, HTF_SMA_PERIOD);
      Sma.SmaWindow(closes, HTF_SMA_PERIOD, last);
      Some(Lt(sma[last], Some(closes[last])))
  }

  /** The trend is up exactly when the last close beats the mean of the last 50 closes. */
  lemma TrendIsUpExactly(closes: seq<real>)
    requires |closes| >= HTF_SMA_PERIOD
    ensures GetDailyTrendDirection(Some(closes)) == Some(Mean(closes[|closes| - HTF_SMA_PERIOD..]) < closes[|closes| - 1])
  {
    Sma.SmaWindow(closes, HTF_SMA_PERIOD, |closes| - 1);
  }

  /** Fewer than 50 daily bars never show an uptrend. */
  lemma ShortDailyHistoryIsNotUp(closes: seq<real>)
    requires 0 < |closes| < HTF_SMA_PERIOD
    ensures GetDailyTrendDirection(Some(closes)) == Some(false)
  {
    Sma.SmaWindow(closes, HTF_SMA_PERIOD, |closes| - 1);
  }

  /**
   * `get_hourly_rsi_values`: `(current, previous)` from the last two hourly
   * rows; `None` (the pair `(None, None)`) when the fetch or the indicator
   * raised (`None` here) or there are fewer than two rows.
   */
  function GetHourlyRsiValues(hourly: Option<seq<Num>>): (values: Option<(Num, Num)>)
    ensures values.None? <==> hourly.None? || |hourly.value| < 2
    ensures values.Some? ==> values.value == (hourly.value[|hourly.value| - 1], hourly.value[|hourly.value| - 2])
  {
    if hourly.None? || |hourly.value| < 2 then None
    else Some((hourly.value[|hourly.value| - 1], hourly.value[|hourly.value| - 2]))
  }

  /**
   * What one iteration observes: the daily closes, the position query and
   * the hourly RSI column; each fetch is `None` when it raised.
   */
  datatype Observation = Observation(daily: Option<seq<real>>, position: PositionQuery, hourly: Option<seq<Num>>)

  /** Where an iteration of `run_mtf_bot` stops. */
  datatype Stage = TrendUnknown | TrendDown | AlreadyHolding | RsiUnavailable | NoEntrySignal | Entered

  /**
   * The staged gates of `run_mtf_bot`: an unknown or down trend, an
   * existing position, or missing RSI values each end the iteration;
   * only then does an RSI recovery through 30 buy.
   */
  function RunStage(obs: Observation): (stage: Stage)
    ensures stage == TrendUnknown <==> GetDailyTrendDirection(obs.daily).None?
    ensures stage == TrendDown <==> GetDailyTrendDirection(obs.daily) == Some(false)
    ensures stage == AlreadyHolding <==> GetDailyTrendDirection(obs.daily) == Some(true) && obs.position.Open?
    ensures stage == Entered <==>
              GetDailyTrendDirection(obs.daily) == Some(true) && obs.position.Raised?
              && GetHourlyRsiValues(obs.hourly).Some?
              && CrossedUpThrough(GetHourlyRsiValues(obs.hourly).value.1,
                                  GetHourlyRsiValues(obs.hourly).value.0, LTF_RSI_OVERSOLD)
  {
    match GetDailyTrendDirection(obs.daily)
    case None => TrendUnknown
    case Some(up) =>
      if !up then TrendDown
      else if obs.position.Open? then AlreadyHolding
      else match GetHourlyRsiValues(obs.hourly)
        case None => RsiUnavailable
        case Some(values) =>
          var (currentRsi, previousRsi) := values;
          if CrossedUpThrough(previousRsi, currentRsi, LTF_RSI_OVERSOLD) then Entered else NoEntrySignal
  }

  /** One iteration's order: a buy of five shares when the last stage is reached, nothing otherwise. */
  function Iteration(obs: Observation): (order: Option<Request>)
    ensures order.Some? <==> RunStage(obs) == Entered
    ensures order.Some? ==> order.value == Market(SYMBOL_TO_TRADE, QTY_PER_TRADE, Buy)
  {
    if RunStage(obs) == Entered then Some(Market(SYMBOL_TO_TRADE, QTY_PER_TRADE, Buy)) else None
  }

  /** Every order is a buy taken in an uptrend while flat: there is no sell path. */
  lemma OnlyBuysInAnUptrend(obs: Observation)
    requires Iteration(obs).Some?
    ensures Iteration(obs).value.side == Buy
    ensures obs.daily.Some? && |obs.daily.value| >= HTF_SMA_PERIOD
    ensures Mean(obs.daily.value[|obs.daily.value| - HTF_SMA_PERIOD..]) < obs.daily.value[|obs.daily.value| - 1]
    ensures obs.position.Raised?
  {
  }

  /** A NaN RSI reading passes the `None` check but never signals an entry. */
  lemma NaNReadingDoesNotEnter(obs: Observation)
    requires GetHourlyRsiValues(obs.hourly).Some?
    requires GetHourlyRsiValues(obs.hourly).value.0.None? || GetHourlyRsiValues(obs.hourly).value.1.None?
    ensures Iteration(obs).None?
  {
  }
}
