// Alpaca21/logging_bot.py: a clock-driven demonstration strategy (buy in
// the late morning, sell in the afternoon) whose loop counts its iterations
// and trades only while the market is open.

module LoggingBot {
  import opened Wrappers
  import opened Broker
  import opened Signals

  const SYMBOL := "AAPL"
  const TRADE_QUANTITY := 1

  /**
   * `get_current_position`: the held quantity as `int(position.qty)`; 0 when
   * the query raised, whatever its message, or the quantity did not parse.
   */
  function GetCurrentPosition(query: PositionQuery): (quantity: int)
    ensures query.Raised? ==> quantity == 0
    ensures query.Open? && WholeQty(query.qty).Some? ==> quantity as real == query.qty
    ensures query.Open? && WholeQty(query.qty).None? ==> quantity == 0
  {
    match query
    case Open(qty) => if WholeQty(qty).Some? then WholeQty(qty).value else 0
    case Raised(_) => 0
  }

  predicate InBuyWindow(hour: int) {
    10 <= hour < 12
  }

  predicate InSellWindow(hour: int) {
    14 <= hour < 16
  }

  /**
   * `make_trade_decision`: no decision without a price; otherwise BUY in
   * the morning window when flat, SELL in the afternoon window when
   * holding, HOLD otherwise.
   */
  function MakeTradeDecision(hour: int, position: int, latestPrice: Option<real>): (decision: Option<Decision>)
    ensures decision.None? <==> latestPrice.None?
    ensures decision == Some(BuySignal) <==> latestPrice.Some? && InBuyWindow(hour) && position == 0
    ensures decision == Some(SellSignal) <==> latestPrice.Some? && InSellWindow(hour) && position > 0
  {
    if latestPrice.None? then None
    else if InBuyWindow(hour) && position == 0 then Some(BuySignal)
    else if InSellWindow(hour) && position > 0 then Some(SellSignal)
    else Some(HoldSignal)
  }

  /** Outside both windows, or in a window whose position condition fails, the decision is HOLD. */
  lemma OutsideWindowsHolds(hour: int, position: int, price: real)
    requires !InBuyWindow(hour) && !InSellWindow(hour)
    ensures MakeTradeDecision(hour, position, Some(price)) == Some(HoldSignal)
  {
  }

  /** One hour never calls for both a buy (for some position) and a sell (for another): the windows are disjoint. */
  lemma WindowsDisjoint(hour: int, flat: int, held: int, price: real)
    ensures !(MakeTradeDecision(hour, flat, Some(price)) == Some(BuySignal)
              && MakeTradeDecision(hour, held, Some(price)) == Some(SellSignal))
  {
  }

  /** What one iteration of `main` observes from the clock, and when the market is open, from the broker. */
  datatype Tick =
    | ClockFailed                                   // `get_clock` raised; the iteration logs it
    | MarketClosed
    | MarketOpen(hour: int, position: PositionQuery, latestPrice: Option<real>)

  /** The order one iteration submits: the fixed buy quantity, or the whole position on a sell. */
  function TickOrder(t: Tick): (order: Option<Request>)
    ensures !t.MarketOpen? ==> order.None?
    ensures order.Some? ==> order.value.Market? && order.value.symbol == SYMBOL
    ensures order.Some? && order.value.side == Buy ==>
              order.value.qty == TRADE_QUANTITY as real && GetCurrentPosition(t.position) == 0
    ensures order.Some? && order.value.side == Sell ==>
              order.value.qty == GetCurrentPosition(t.position) as real && order.value.qty > 0.0
  {
    if !t.MarketOpen? then None
    else
      var position := GetCurrentPosition(t.position);
      match MakeTradeDecision(t.hour, position, t.latestPrice)
      case Some(BuySignal) => Some(Market(SYMBOL, TRADE_QUANTITY as real, Buy))
      case Some(SellSignal) => Some(Market(SYMBOL, position as real, Sell))
      case _ => None
  }

  /** The orders a run of iterations submits, in order. */
  function Orders(ticks: seq<Tick>): seq<Request>
    decreases |ticks|
  {
    if ticks == [] then []
    else
      var last := ticks[|ticks| - 1];
      Orders(ticks[..|ticks| - 1]) + (if TickOrder(last).Some? then [TickOrder(last).value] else [])
  }

  /** At most one order per iteration, and none at all while the market is closed. */
  lemma {:induction false} OrdersBounded(ticks: seq<Tick>)
    ensures |Orders(ticks)| <= |ticks|
    ensures (forall i :: 0 <= i < |ticks| ==> !ticks[i].MarketOpen?) ==> Orders(ticks) == []
    decreases |ticks|
  {
    if ticks != [] {
      var front := ticks[..|ticks| - 1];
      assert forall i :: 0 <= i < |front| ==> front[i] == ticks[i];
      OrdersBounded(front);
    }
  }

  /**
   * `main`'s loop: each iteration adds one to the count, asks the clock,
   * and runs the trading logic only when the market is open. `ticks` is
   * what the iterations before the interrupt observed.
   */
  method RunLoop(ticks: seq<Tick>) returns (iterationCount: nat, requests: seq<Request>)
    ensures iterationCount == |ticks|
    ensures requests == Orders(ticks)
  {
    iterationCount := 0;
    requests := [];
    while iterationCount < |ticks|
      invariant iterationCount <= |ticks|
      invariant requests == Orders(ticks[..iterationCount])
    {
      var t := ticks[iterationCount];
      iterationCount := iterationCount + 1;
      if t.MarketOpen? {
        var order := TickOrder(t);
        if order.Some? {
          requests := requests + [order.value];
        }
      }
      assert ticks[..iterationCount][..iterationCount - 1] == ticks[..iterationCount - 1];
    }
    assert ticks[..iterationCount] == ticks;
  }
}
