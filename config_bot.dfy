// Alpaca22/config_bot.py: a golden-cross buyer whose symbol, quantity and
// SMA windows come from config.json. It only ever buys.

module ConfigBot {
  import opened Wrappers
  import opened Broker
  import opened Signals
  import opened PositionFlag
  import opened PositionLookup

  /**
   * What one loop iteration observes: the position list (`None` when
   * `get_all_positions` raised) and the daily closes (`None` when the fetch raised).
   */
  datatype Observation = Observation(positions: Option<seq<Position>>, closes: Option<seq<real>>)

  predicate Holding(cfg: BotConfig, obs: Observation) {
    obs.positions.Some? && FirstMatch(obs.positions.value, cfg.symbol).Some?
  }

  /** Enough bars for the long SMA: `bars is not None and len(bars) >= LONG_WINDOW`. */
  predicate EnoughBars(cfg: BotConfig, obs: Observation) {
    obs.closes.Some? && |obs.closes.value| >= cfg.longWindow
  }

  /**
   * One iteration of `run_config_bot`: the market buy it submits, if any.
   * With a position nothing is analysed; without enough bars nothing is
   * evaluated; otherwise a golden cross buys the configured quantity.
   */
  function Iteration(cfg: BotConfig, obs: Observation): (order: Option<Request>)
    requires cfg.Valid()
    ensures order.Some? <==> !Holding(cfg, obs) && EnoughBars(cfg, obs)
                             && GoldenCross(WithMovingAverages(obs.closes.value, cfg.shortWindow, cfg.longWindow))
    ensures order.Some? ==> order.value == Market(cfg.symbol, cfg.quantity, Buy)
  {
    if Holding(cfg, obs) || !EnoughBars(cfg, obs) then None
    else if GoldenCross(WithMovingAverages(obs.closes.value, cfg.shortWindow, cfg.longWindow)) then
      Some(Market(cfg.symbol, cfg.quantity, Buy))
    else None
  }

  /** There is no sell path: whatever the bot observes, it never sends a sell. */
  lemma NeverSells(cfg: BotConfig, obs: Observation)
    requires cfg.Valid()
    ensures Iteration(cfg, obs).Some? ==> Iteration(cfg, obs).value.side == Buy
  {
  }

  /** With one bar fewer than the long window, or none, the bot does nothing. */
  lemma ShortHistoryDoesNothing(cfg: BotConfig, obs: Observation)
    requires cfg.Valid() && obs.closes.Some? && |obs.closes.value| < cfg.longWindow
    ensures Iteration(cfg, obs).None?
  {
  }

  /** The iteration as the bot runs it, with the positions scanned by the lookup loop. */
  method RunIteration(cfg: BotConfig, obs: Observation) returns (order: Option<Request>)
    requires cfg.Valid()
    ensures order == Iteration(cfg, obs)
  {
    var position := CheckExistingPosition(obs.positions, cfg.symbol);
    if position.Some? {
      return None;
    }
    if obs.closes.None? || |obs.closes.value| < cfg.longWindow {
      return None;
    }
    var rows := WithMovingAverages(obs.closes.value, cfg.shortWindow, cfg.longWindow);
    if GoldenCross(rows) {
      return Some(Market(cfg.symbol, cfg.quantity, Buy));
    }
    return None;
  }
}
