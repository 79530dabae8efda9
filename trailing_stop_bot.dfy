// Alpaca14/trailing_stop_bot.py: buy with 90% of cash under a broker-managed
// 5% trailing stop, then watch the position until it is gone.

module TrailingStopBot {
  import opened Wrappers
  import opened Numeric
  import opened Broker
  import opened PriceLevels
  import opened PositionLookup

  const SYMBOL := "SPY"
  const TRAIL_PERCENT := 5.0
  const CASH_FRACTION := 0.9

  /** `if not x` on a float: `None` and `0.0` are both false. */
  predicate Truthy(x: Option<real>) {
    x.Some? && x.value != 0.0
  }

  /**
   * `get_current_price`: the close of the first bar returned; `None` when
   * the fetch raised (`None` here) or returned no bars.
   */
  function GetCurrentPrice(bars: Option<seq<real>>): (price: Option<real>)
    ensures price.Some? <==> bars.Some? && |bars.value| > 0
    ensures price.Some? ==> price.value == bars.value[0]
  {
    if bars.None? || |bars.value| == 0 then None else Some(bars.value[0])
  }

  /** `int(cash * 0.9 / price)`: the whole shares 90% of cash buys. */
  function SharesToBuy(cash: real, price: real): (shares: int)
    requires price != 0.0
    ensures 0.0 <= cash && 0.0 < price ==>
              0 <= shares && shares as real * price <= CASH_FRACTION * cash
              && CASH_FRACTION * cash < (shares + 1) as real * price
  {
    var available := cash * CASH_FRACTION;
    if 0.0 <= cash && 0.0 < price then TruncQuotient(available, price); Trunc(available / price)
    else Trunc(available / price)
  }

  /** 90% of cash buys a share exactly when it covers the price. */
  lemma SharesToBuyAtLeastOne(cash: real, price: real)
    requires 0.0 < price
    ensures SharesToBuy(cash, price) >= 1 <==> CASH_FRACTION * cash >= price
  {
    var available := cash * CASH_FRACTION;
    DivTimes(available, price);
    if available / price >= 1.0 {
      MulMonotone(1.0, available / price, price);
    } else {
      MulMonotone(available / price, 1.0, price);
    }
  }

  /** What one `monitor_position` call observes: the position lookup and the latest bars. */
  datatype MonitorObservation = MonitorObservation(position: Option<Position>, bars: Option<seq<real>>)

  /**
   * `monitor_position`: false when no position is found, true when the
   * price is unavailable, and otherwise true after reporting the
   * approximate stop.
   */
  function MonitorPosition(m: MonitorObservation): (stillOpen: bool)
    ensures stillOpen <==> m.position.Some?
  {
    if m.position.None? then false
    else if !Truthy(GetCurrentPrice(m.bars)) then true
    else true
  }

  /** The approximate stop `monitor_position` reports: 5% under the current price. */
  function ApproximateStop(m: MonitorObservation): (stop: Option<real>)
    requires m.position.Some?
    ensures stop.Some? <==> Truthy(GetCurrentPrice(m.bars))
    ensures stop.Some? && 0.0 < GetCurrentPrice(m.bars).value ==> stop.value < GetCurrentPrice(m.bars).value
  {
    var price := GetCurrentPrice(m.bars);
    if Truthy(price) then Some(StopBelow(price.value, TRAIL_PERCENT)) else None
  }

  /**
   * The monitoring loop: call `monitor_position` on each observation until
   * it returns false. `checks` is how many calls were made and `closed`
   * whether the loop ended.
   */
  method MonitorLoop(observations: seq<MonitorObservation>) returns (checks: nat, closed: bool)
    ensures checks <= |observations|
    ensures forall i :: 0 <= i < checks - (if closed then 1 else 0) ==> MonitorPosition(observations[i])
    ensures closed ==> 0 < checks && !MonitorPosition(observations[checks - 1])
    ensures !closed ==> checks == |observations|
  {
    checks := 0;
    closed := false;
    while checks < |observations|
      invariant checks <= |observations|
      invariant forall i :: 0 <= i < checks ==> MonitorPosition(observations[i])
    {
      var stillOpen := MonitorPosition(observations[checks]);
      checks := checks + 1;
      if !stillOpen {
        closed := true;
        return;
      }
    }
  }

  /** The loop ends exactly at the first observation without a position. */
  lemma MonitorStopsWhenPositionGone(observations: seq<MonitorObservation>, k: nat)
    requires k < |observations| && observations[k].position.None?
    requires forall i :: 0 <= i < k ==> observations[i].position.Some?
    ensures !MonitorPosition(observations[k])
    ensures forall i :: 0 <= i < k ==> MonitorPosition(observations[i])
  {
  }

  /** What `main` observes: the account's cash (`None` when it cannot be read), the position list, the latest bars. */
  datatype Start = Start(cash: Option<real>, positions: Option<seq<Position>>, bars: Option<seq<real>>)

  /** Where `main` goes: stop, watch an existing position, or send the trailing-stop buy. */
  datatype Plan = Abort | WatchExisting | Purchase(order: Request, initialStop: real)

  /**
   * `main`: without account information, or without a price, or when 90%
   * of cash buys less than one share, stop; with a position, watch it;
   * otherwise buy the shares under a 5% trailing stop.
   */
  function MainPlan(st: Start): (plan: Plan)
    ensures st.cash.None? ==> plan == Abort
    ensures plan.Purchase? ==>
              st.cash.Some? && (st.positions.None? || FirstMatch(st.positions.value, SYMBOL).None?)
              && Truthy(GetCurrentPrice(st.bars))
              && var price := GetCurrentPrice(st.bars).value;
                 var shares := SharesToBuy(st.cash.value, price);
                 shares >= 1
                 && plan.order == TrailingStop(SYMBOL, shares as real, Buy, TRAIL_PERCENT)
                 && plan.initialStop == StopBelow(price, TRAIL_PERCENT)
    ensures plan == WatchExisting <==> st.cash.Some? && st.positions.Some? && FirstMatch(st.positions.value, SYMBOL).Some?
  {
    if st.cash.None? then Abort
    else if st.positions.Some? && FirstMatch(st.positions.value, SYMBOL).Some? then WatchExisting
    else
      var price := GetCurrentPrice(st.bars);
      if !Truthy(price) then Abort
      else
        var shares := SharesToBuy(st.cash.value, price.value);
        if shares < 1 then Abort
        else Purchase(TrailingStop(SYMBOL, shares as real, Buy, TRAIL_PERCENT), StopBelow(price.value, TRAIL_PERCENT))
  }

  /** A bought quantity never costs more than 90% of cash at the observed price, and its stop is under that price. */
  lemma BuyFitsInCash(st: Start)
    requires MainPlan(st).Purchase? && 0.0 <= st.cash.value && 0.0 < GetCurrentPrice(st.bars).value
    ensures MainPlan(st).order.qty * GetCurrentPrice(st.bars).value <= CASH_FRACTION * st.cash.value
    ensures MainPlan(st).initialStop < GetCurrentPrice(st.bars).value
  {
  }

  /** Too little cash for one share means no order. */
  lemma InsufficientFundsAborts(st: Start)
    requires st.cash.Some? && Truthy(GetCurrentPrice(st.bars)) && 0.0 < GetCurrentPrice(st.bars).value
    requires CASH_FRACTION * st.cash.value < GetCurrentPrice(st.bars).value
    ensures !MainPlan(st).Purchase?
  {
    SharesToBuyAtLeastOne(st.cash.value, GetCurrentPrice(st.bars).value);
  }
}
