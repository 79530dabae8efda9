// Crossing signals shared by the bots: one line crossing another between the
// previous and the current row of a frame.

module Signals {
  import opened Wrappers
  import opened Numeric
  import Sma

  /** `fast` was strictly below `slow` on the previous row and is strictly above it now. */
  predicate CrossedAbove(prevFast: Num, prevSlow: Num, currFast: Num, currSlow: Num) {
    Lt(prevFast, prevSlow) && Lt(currSlow, currFast)
  }

  /** `fast` was strictly above `slow` on the previous row and is strictly below it now. */
  predicate CrossedBelow(prevFast: Num, prevSlow: Num, currFast: Num, currSlow: Num) {
    Lt(prevSlow, prevFast) && Lt(currFast, currSlow)
  }

  /** Strict crossings in opposite directions exclude each other: their previous rows disagree. */
  lemma CrossingsExclusive(prevFast: Num, prevSlow: Num, currFast: Num, currSlow: Num)
    ensures !(CrossedAbove(prevFast, prevSlow, currFast, currSlow)
              && CrossedBelow(prevFast, prevSlow, currFast, currSlow))
  {
  }

  /** `value` was strictly below `level` on the previous row and is strictly above it now. */
  predicate CrossedUpThrough(previous: Num, current: Num, level: real) {
    CrossedAbove(previous, Some(level), current, Some(level))
  }

  /** `value` was strictly above `level` on the previous row and is strictly below it now. */
  predicate CrossedDownThrough(previous: Num, current: Num, level: real) {
    CrossedBelow(previous, Some(level), current, Some(level))
  }

  /**
   * A rise through a low level and a fall through a level at or above it
   * cannot happen between the same two readings: the previous reading would
   * have to lie both below the first and above the second.
   */
  lemma ThresholdCrossingsExclusive(previous: Num, current: Num, low: real, high: real)
    requires low <= high
    ensures !(CrossedUpThrough(previous, current, low) && CrossedDownThrough(previous, current, high))
  {
  }

  /** The three outcomes a signal check reports: `'BUY'`, `'SELL'` or `'HOLD'`. */
  datatype Decision = BuySignal | SellSignal | HoldSignal

  /** One bar after `calculate_moving_averages`: its close and the short and long SMA columns. */
  datatype SmaRow = SmaRow(close: real, smaShort: Num, smaLong: Num)

  /** `calculate_moving_averages`: the frame with both rolling means added as columns. */
  function WithMovingAverages(closes: seq<real>, shortWindow: nat, longWindow: nat): (rows: seq<SmaRow>)
    requires shortWindow >= 1 && longWindow >= 1
    ensures |rows| == |closes|
    ensures forall i :: 0 <= i < |closes| ==> rows[i].close == closes[i]
  {
    var s := Sma.CalculateSma(closes, shortWindow);
    var l := Sma.CalculateSma(closes, longWindow);
    seq(|closes|, i requires 0 <= i < |closes| => SmaRow(closes[i], s[i], l[i]))
  }

  /**
   * The two SMA columns of `WithMovingAverages`: each is NaN until its
   * window has filled, and from then on the mean of the window of closes
   * ending at the row.
   */
  lemma MovingAverageColumns(closes: seq<real>, shortWindow: nat, longWindow: nat)
    requires shortWindow >= 1 && longWindow >= 1
    ensures forall i :: 0 <= i < |closes| ==>
              WithMovingAverages(closes, shortWindow, longWindow)[i].smaShort ==
                (if i + 1 < shortWindow then None else Some(Mean(closes[i + 1 - shortWindow..i + 1])))
    ensures forall i :: 0 <= i < |closes| ==>
              WithMovingAverages(closes, shortWindow, longWindow)[i].smaLong ==
                (if i + 1 < longWindow then None else Some(Mean(closes[i + 1 - longWindow..i + 1])))
  {
    Sma.SmaColumn(closes, shortWindow);
    Sma.SmaColumn(closes, longWindow);
  }

  predicate GoldenOn(prev: SmaRow, curr: SmaRow) {
    CrossedAbove(prev.smaShort, prev.smaLong, curr.smaShort, curr.smaLong)
  }

  predicate DeathOn(prev: SmaRow, curr: SmaRow) {
    CrossedBelow(prev.smaShort, prev.smaLong, curr.smaShort, curr.smaLong)
  }

  /**
   * The guarded golden-cross detector: false on fewer than two rows, otherwise
   * a strict upward cross of the short SMA through the long SMA on the last two rows.
   */
  function GoldenCross(rows: seq<SmaRow>): (r: bool)
    ensures |rows| < 2 ==> !r
    ensures |rows| >= 2 ==> (r <==> Lt(rows[|rows| - 2].smaShort, rows[|rows| - 2].smaLong)
                                    && Lt(rows[|rows| - 1].smaLong, rows[|rows| - 1].smaShort))
  {
    |rows| >= 2 && GoldenOn(rows[|rows| - 2], rows[|rows| - 1])
  }

  /** The guarded death-cross detector, the mirror image of `GoldenCross`. */
  function DeathCross(rows: seq<SmaRow>): (r: bool)
    ensures |rows| < 2 ==> !r
    ensures |rows| >= 2 ==> (r <==> Lt(rows[|rows| - 2].smaLong, rows[|rows| - 2].smaShort)
                                    && Lt(rows[|rows| - 1].smaShort, rows[|rows| - 1].smaLong))
    ensures r ==> !GoldenCross(rows)
  {
    |rows| >= 2 && DeathOn(rows[|rows| - 2], rows[|rows| - 1])
  }

  /**
   * The last two rows, as `iloc[-2]` and `iloc[-1]` read them; `None` when
   * there are fewer than two and `iloc[-2]` raises IndexError.
   */
  function LastTwo<T>(rows: seq<T>): (r: Option<(T, T)>)
    ensures r.None? <==> |rows| < 2
    ensures r.Some? ==> r.value == (rows[|rows| - 2], rows[|rows| - 1])
  {
    if |rows| < 2 then None else Some((rows[|rows| - 2], rows[|rows| - 1]))
  }

  /**
   * The unguarded golden-cross detector: `None` when the frame has fewer than
   * two rows, since reading the previous row raises.
   */
  function GoldenCrossUnguarded(rows: seq<SmaRow>): (r: Option<bool>)
    ensures r.None? <==> |rows| < 2
    ensures r.Some? ==> r.value == GoldenCross(rows)
  {
    match LastTwo(rows)
    case None => None
    case Some(pair) => Some(GoldenOn(pair.0, pair.1))
  }
}
