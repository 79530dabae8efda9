// Alpaca07/calculate_sma.py: the trailing-window simple moving average.

module Sma {
  import opened Wrappers
  import opened Numeric

  const SHORT_SMA_WINDOW: nat := 20
  const LONG_SMA_WINDOW: nat := 50

  /** The mean of the last `window` values of `xs`, or NaN while fewer than `window` exist. */
  function TrailingMean(xs: seq<real>, window: nat): Num
    requires window >= 1
  {
    if |xs| >= window then Some(Mean(xs[|xs| - window..])) else None
  }

  /**
   * `calculate_sma`: pandas' `rolling(window).mean()` over the closes. The
   * result is one value per input row, so it can be assigned as a column of
   * the same frame.
   */
  function CalculateSma(closes: seq<real>, window: nat): (sma: seq<Num>)
    requires window >= 1
    ensures |sma| == |closes|
    decreases |closes|
  {
    if closes == [] then []
    else CalculateSma(closes[..|closes| - 1], window) + [TrailingMean(closes, window)]
  }

  /** The value at row `i` depends only on the rows up to and including `i`. */
  lemma {:induction false} SmaAt(closes: seq<real>, window: nat, i: nat)
    requires window >= 1 && i < |closes|
    ensures CalculateSma(closes, window)[i] == TrailingMean(closes[..i + 1], window)
    decreases |closes|
  {
    if i == |closes| - 1 {
      assert closes[..i + 1] == closes;
    } else {
      SmaAt(closes[..|closes| - 1], window, i);
      assert closes[..|closes| - 1][..i + 1] == closes[..i + 1];
    }
  }

  /**
   * The SMA at row `i` is undefined for the first `window - 1` rows and is
   * otherwise the mean of the `window` rows ending at `i`.
   */
  lemma SmaWindow(closes: seq<real>, window: nat, i: nat)
    requires window >= 1 && i < |closes|
    ensures i + 1 < window ==> CalculateSma(closes, window)[i] == None
    ensures i + 1 >= window ==> CalculateSma(closes, window)[i] == Some(Mean(closes[i + 1 - window..i + 1]))
  {
    SmaAt(closes, window, i);
    if i + 1 >= window {
      assert closes[..i + 1][i + 1 - window..] == closes[i + 1 - window..i + 1];
    }
  }

  /** `SmaWindow` for every row of the column at once. */
  lemma SmaColumn(closes: seq<real>, window: nat)
    requires window >= 1
    ensures forall i :: 0 <= i < |closes| ==>
              CalculateSma(closes, window)[i] == (if i + 1 < window then None else Some(Mean(closes[i + 1 - window..i + 1])))
  {
    forall i | 0 <= i < |closes|
      ensures CalculateSma(closes, window)[i] == (if i + 1 < window then None else Some(Mean(closes[i + 1 - window..i + 1])))
    {
      SmaWindow(closes, window, i);
    }
  }
}
