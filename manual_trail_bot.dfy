// AlpacaTutorial/Alpaca15/manual_trail_bot.py: a golden-cross entry that
// places a plain stop order 3% under the fill price, then ratchets that stop
// up behind the price with `replace_order`, never down.
//
// The broker's stop orders appear in the model as `stops`, the stop price of
// every stop order this bot placed, keyed by order id; `requests` logs what
// the bot sent.

module ManualTrailBot {
  import opened Wrappers
  import opened Broker
  import opened Signals
  import opened PriceLevels
  import BracketBot

  const SYMBOL_TO_TRADE := "AAPL"
  const QTY_PER_TRADE := 10.0
  const TRAIL_PERCENTAGE := 3.0

  datatype Snapshot = Snapshot(activeStopOrderId: Option<string>, stops: map<string, real>, requests: seq<Request>)

  /** Every stop order known before is still known after, at a stop price no lower. */
  predicate NeverLower(before: map<string, real>, after: map<string, real>) {
    forall id :: id in before ==> id in after && before[id] <= after[id]
  }

  lemma NeverLowerTransitive(a: map<string, real>, b: map<string, real>, c: map<string, real>)
    requires NeverLower(a, b) && NeverLower(b, c)
    ensures NeverLower(a, c)
  {
  }

  /**
   * `update_trailing_stop`: read the order's stop price (`readable` is false
   * when `get_order` raises), compute the stop 3% under the current price,
   * and replace the order only when that is strictly higher (`replaceOk` is
   * false when `replace_order` raises). The flag is true iff the stop moved.
   */
  function TrailingStopUpdate(s: Snapshot, id: string, currentPrice: real, readable: bool, replaceOk: bool)
    : (r: (bool, Snapshot))
    ensures r.0 <==> readable && id in s.stops && replaceOk
                     && StopLossPrice(currentPrice, TRAIL_PERCENTAGE) > s.stops[id]
    ensures r.0 ==> r.1 == s.(stops := s.stops[id := StopLossPrice(currentPrice, TRAIL_PERCENTAGE)],
                              requests := s.requests + [ReplaceStop(id, StopLossPrice(currentPrice, TRAIL_PERCENTAGE))])
    ensures !r.0 ==> r.1 == s
    ensures NeverLower(s.stops, r.1.stops)
  {
    if !readable || id !in s.stops then (false, s)
    else
      var newStop := StopLossPrice(currentPrice, TRAIL_PERCENTAGE);
      if newStop > s.stops[id] && replaceOk then
        (true, s.(stops := s.stops[id := newStop], requests := s.requests + [ReplaceStop(id, newStop)]))
      else (false, s)
  }

  /** A price that has not risen enough leaves the stop where it is. */
  lemma StopStaysWhenPriceFalls(s: Snapshot, id: string, currentPrice: real, readable: bool, replaceOk: bool)
    requires id in s.stops && StopLossPrice(currentPrice, TRAIL_PERCENTAGE) <= s.stops[id]
    ensures TrailingStopUpdate(s, id, currentPrice, readable, replaceOk) == (false, s)
  {
  }

  /**
   * What `manage_existing_position` observes: whether the position is still
   * there, the latest trade price (`None` when the query raised), and the
   * outcomes of `get_order` and `replace_order`.
   */
  datatype HoldingObservation = HoldingObservation(stillOpen: bool, price: Option<real>, readable: bool, replaceOk: bool)

  /**
   * `manage_existing_position`: `None` when the position is gone, when no
   * stop id is known, or when the price query raises; otherwise the same id,
   * after possibly ratcheting its stop.
   */
  function PositionManagement(s: Snapshot, id: Option<string>, h: HoldingObservation): (r: (Option<string>, Snapshot))
    ensures !h.stillOpen || id.None? || h.price.None? ==> r == (None, s)
    ensures h.stillOpen && id.Some? && h.price.Some? ==>
              r.0 == id && r.1 == TrailingStopUpdate(s, id.value, h.price.value, h.readable, h.replaceOk).1
    ensures NeverLower(s.stops, r.1.stops)
  {
    if !h.stillOpen || id.None? || h.price.None? then (None, s)
    else (id, TrailingStopUpdate(s, id.value, h.price.value, h.readable, h.replaceOk).1)
  }

  /**
   * What `enter_long_position` observes: whether the buy was accepted, the
   * average entry price read back (`None` when `get_position` raised), and
   * the id the broker gave the stop order (`None` when that submit raised).
   */
  datatype EntryObservation = EntryObservation(buyAccepted: bool, entryPrice: Option<real>, stopOrderId: Option<string>)

  /** `place_initial_stop_loss` after a confirmed fill at `entryPrice`. */
  function PlaceInitialStopLoss(s: Snapshot, entryPrice: real, newId: Option<string>): (r: (Option<string>, Snapshot))
    ensures r.0 == newId
    ensures newId.None? ==> r.1 == s
    ensures newId.Some? ==>
              r.1 == s.(stops := s.stops[newId.value := StopLossPrice(entryPrice, TRAIL_PERCENTAGE)],
                        requests := s.requests + [Stop(SYMBOL_TO_TRADE, QTY_PER_TRADE, Sell, StopLossPrice(entryPrice, TRAIL_PERCENTAGE))])
  {
    match newId
    case None => (None, s)
    case Some(id) =>
      var stopPrice := StopLossPrice(entryPrice, TRAIL_PERCENTAGE);
      (newId, s.(stops := s.stops[id := stopPrice],
                 requests := s.requests + [Stop(SYMBOL_TO_TRADE, QTY_PER_TRADE, Sell, stopPrice)]))
  }

  /** `enter_long_position`: the market buy, then the protective stop; any failure yields `None`. */
  function LongEntry(s: Snapshot, e: EntryObservation): (r: (Option<string>, Snapshot))
    ensures r.0.Some? <==> e.buyAccepted && e.entryPrice.Some? && e.stopOrderId.Some?
    ensures r.0.Some? ==> r.0 == e.stopOrderId
    ensures !e.buyAccepted ==> r.1 == s
    ensures e.buyAccepted ==> |r.1.requests| >= |s.requests| + 1
                              && r.1.requests[|s.requests|] == Market(SYMBOL_TO_TRADE, QTY_PER_TRADE, Buy)
  {
    if !e.buyAccepted then (None, s)
    else
      var bought := s.(requests := s.requests + [Market(SYMBOL_TO_TRADE, QTY_PER_TRADE, Buy)]);
      if e.entryPrice.None? then (None, bought)
      else PlaceInitialStopLoss(bought, e.entryPrice.value, e.stopOrderId)
  }

  /** `check_for_golden_cross_signal`: any error (a failed fetch, fewer than two bars) reads as no signal. */
  function GoldenCrossSignal(closes: Option<seq<real>>): (signal: bool)
    ensures signal <==> closes.Some? && GoldenCross(BracketBot.Rows(closes.value))
  {
    match closes
    case None => false
    case Some(cs) =>
      match GoldenCrossUnguarded(BracketBot.Rows(cs))
      case None => false
      case Some(b) => b
  }

  /**
   * One iteration of the loop: an unexpected error, a flat account (the bars
   * for the signal and the entry outcomes), or a held position.
   */
  datatype Cycle =
    | Fault
    | Flat(closes: Option<seq<real>>, entry: EntryObservation)
    | Holding(holding: HoldingObservation)

  /** One iteration of `run_manual_trail_bot`. */
  function Step(s: Snapshot, c: Cycle): (r: Snapshot)
    ensures c.Fault? ==> r == s.(activeStopOrderId := None)
    ensures c.Flat? && !GoldenCrossSignal(c.closes) ==> r == s.(activeStopOrderId := None)
    ensures c.Holding? ==> r.activeStopOrderId.None? || r.activeStopOrderId == s.activeStopOrderId
  {
    match c
    case Fault => s.(activeStopOrderId := None)
    case Flat(closes, entry) =>
      var cleared := s.(activeStopOrderId := None);
      if GoldenCrossSignal(closes) then
        var (id, t) := LongEntry(cleared, entry);
        t.(activeStopOrderId := id)
      else cleared
    case Holding(h) =>
      var (id, t) := PositionManagement(s, s.activeStopOrderId, h);
      t.(activeStopOrderId := id)
  }

  /** The id of the stop order a cycle may create. */
  function NewStopId(c: Cycle): Option<string> {
    if c.Flat? && GoldenCrossSignal(c.closes) && c.entry.buyAccepted && c.entry.entryPrice.Some? then c.entry.stopOrderId
    else None
  }

  /** The broker hands out a new id for every order. */
  predicate FreshFor(s: Snapshot, c: Cycle) {
    NewStopId(c).None? || NewStopId(c).value !in s.stops
  }

  /** One iteration never lowers any stop it placed. */
  lemma StepNeverLowers(s: Snapshot, c: Cycle)
    requires FreshFor(s, c)
    ensures NeverLower(s.stops, Step(s, c).stops)
  {
  }

  /** While a position is held the active id is kept, or dropped when the position or the price is gone. */
  lemma HoldingKeepsTheStop(s: Snapshot, h: HoldingObservation)
    requires s.activeStopOrderId.Some? && h.stillOpen && h.price.Some?
    ensures Step(s, Holding(h)).activeStopOrderId == s.activeStopOrderId
  {
  }

  /** A successful entry remembers the id of its protective stop, and that stop sits 3% under the fill. */
  lemma EntryRemembersItsStop(s: Snapshot, closes: Option<seq<real>>, e: EntryObservation)
    requires GoldenCrossSignal(closes) && e.buyAccepted && e.entryPrice.Some? && e.stopOrderId.Some?
    ensures Step(s, Flat(closes, e)).activeStopOrderId == e.stopOrderId
    ensures Step(s, Flat(closes, e)).stops[e.stopOrderId.value] == StopLossPrice(e.entryPrice.value, TRAIL_PERCENTAGE)
  {
  }

  function Steps(s: Snapshot, cycles: seq<Cycle>): Snapshot
    decreases |cycles|
  {
    if cycles == [] then s else Step(Steps(s, cycles[..|cycles| - 1]), cycles[|cycles| - 1])
  }

  /** Every cycle's new stop id is new to the broker at the time it is created. */
  predicate FreshIds(s: Snapshot, cycles: seq<Cycle>)
    decreases |cycles|
  {
    cycles == [] || (FreshIds(s, cycles[..|cycles| - 1]) && FreshFor(Steps(s, cycles[..|cycles| - 1]), cycles[|cycles| - 1]))
  }

  /** Over any run, no stop order's price ever goes down. */
  lemma {:induction false} StopsNeverLower(s: Snapshot, cycles: seq<Cycle>)
    requires FreshIds(s, cycles)
    ensures NeverLower(s.stops, Steps(s, cycles).stops)
    decreases |cycles|
  {
    if cycles != [] {
      var prefix := cycles[..|cycles| - 1];
      StopsNeverLower(s, prefix);
      StepNeverLowers(Steps(s, prefix), cycles[|cycles| - 1]);
      NeverLowerTransitive(s.stops, Steps(s, prefix).stops, Steps(s, cycles).stops);
    }
  }

  /** On Ctrl+C: cancel the active stop order exactly when its id is set (a non-empty string). */
  function ShutdownCancel(s: Snapshot): (cancel: Option<Request>)
    ensures cancel.Some? <==> s.activeStopOrderId.Some? && s.activeStopOrderId.value != ""
    ensures cancel.Some? ==> cancel.value == Cancel(s.activeStopOrderId.value)
  {
    if s.activeStopOrderId.Some? && s.activeStopOrderId.value != "" then Some(Cancel(s.activeStopOrderId.value))
    else None
  }

  class ManualTrailTrader {
    var activeStopOrderId: Option<string>
    var stops: map<string, real>
    var requests: seq<Request>

    function Snap(): Snapshot
      reads this
    {
      Snapshot(activeStopOrderId, stops, requests)
    }

    /** The module-level `active_stop_order_id = None`, with no orders placed yet. */
    constructor ()
      ensures Snap() == Snapshot(None, map[], [])
    {
      activeStopOrderId := None;
      stops := map[];
      requests := [];
    }

    method UpdateTrailingStop(id: string, currentPrice: real, readable: bool, replaceOk: bool) returns (updated: bool)
      modifies this
      ensures (updated, Snap()) == TrailingStopUpdate(old(Snap()), id, currentPrice, readable, replaceOk)
    {
      if !readable || id !in stops {
        return false;
      }
      var existing := stops[id];
      var newStop := StopLossPrice(currentPrice, TRAIL_PERCENTAGE);
      if newStop > existing {
        if !replaceOk {
          return false;
        }
        stops := stops[id := newStop];
        requests := requests + [ReplaceStop(id, newStop)];
        return true;
      }
      return false;
    }

    method ManageExistingPosition(id: Option<string>, h: HoldingObservation) returns (kept: Option<string>)
      modifies this
      ensures (kept, Snap()) == PositionManagement(old(Snap()), id, h)
    {
      if !h.stillOpen || id.None? || h.price.None? {
        return None;
      }
      var _ := UpdateTrailingStop(id.value, h.price.value, h.readable, h.replaceOk);
      return id;
    }

    method EnterLongPosition(e: EntryObservation) returns (stopId: Option<string>)
      modifies this
      ensures (stopId, Snap()) == LongEntry(old(Snap()), e)
    {
      if !e.buyAccepted {
        return None;
      }
      requests := requests + [Market(SYMBOL_TO_TRADE, QTY_PER_TRADE, Buy)];
      if e.entryPrice.None? {
        return None;
      }
      stopId := e.stopOrderId;
      if stopId.Some? {
        var stopPrice := StopLossPrice(e.entryPrice.value, TRAIL_PERCENTAGE);
        stops := stops[stopId.value := stopPrice];
        requests := requests + [Stop(SYMBOL_TO_TRADE, QTY_PER_TRADE, Sell, stopPrice)];
      }
    }

    method RunCycle(c: Cycle)
      modifies this
      ensures Snap() == Step(old(Snap()), c)
    {
      match c
      case Fault =>
        activeStopOrderId := None;
      case Flat(closes, entry) =>
        activeStopOrderId := None;
        if GoldenCrossSignal(closes) {
          activeStopOrderId := EnterLongPosition(entry);
        }
      case Holding(h) =>
        activeStopOrderId := ManageExistingPosition(activeStopOrderId, h);
    }

    method Run(cycles: seq<Cycle>)
      modifies this
      ensures Snap() == Steps(old(Snap()), cycles)
    {
      var i := 0;
      while i < |cycles|
        invariant 0 <= i <= |cycles|
        invariant Snap() == Steps(old(Snap()), cycles[..i])
      {
        RunCycle(cycles[i]);
        assert cycles[..i + 1][..i] == cycles[..i];
        i := i + 1;
      }
      assert cycles[..i] == cycles;
    }

    /** The KeyboardInterrupt handler: the cancel request, if any, is sent. */
    method Shutdown() returns (cancelled: bool)
      modifies this
      ensures cancelled <==> ShutdownCancel(old(Snap())).Some?
      ensures cancelled ==> requests == old(requests) + [ShutdownCancel(old(Snap())).value]
      ensures !cancelled ==> requests == old(requests)
      ensures activeStopOrderId == old(activeStopOrderId) && stops == old(stops)
    {
      cancelled := false;
      if activeStopOrderId.Some? && activeStopOrderId.value != "" {
        requests := requests + [Cancel(activeStopOrderId.value)];
        cancelled := true;
      }
    }
  }
}
