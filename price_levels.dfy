// Price levels derived from an entry price by a percentage: the take-profit
// and stop-loss prices of the bracket bots (rounded to cents) and the
// unrounded stop below a price that the trailing-stop bots use.

module PriceLevels {
  import opened Numeric

  /** The factor `1 + pct / 100` that raises a price by `pct` percent. */
  function Up(pct: real): real {
    1.0 + pct / 100.0
  }

  /** The factor `1 - pct / 100` that lowers a price by `pct` percent. */
  function Down(pct: real): real {
    1.0 - pct / 100.0
  }

  lemma ScaleAtMost(price: real, factor: real)
    requires 0.0 <= price && factor <= 1.0
    ensures price * factor <= price
  {
  }

  lemma ScaleBelow(price: real, factor: real)
    requires 0.0 < price && factor < 1.0
    ensures price * factor < price
  {
  }

  lemma ScaleAtLeast(price: real, factor: real)
    requires 0.0 <= price && 1.0 <= factor
    ensures price <= price * factor
  {
  }

  lemma ScaleNonNegative(price: real, factor: real)
    requires 0.0 <= price && 0.0 <= factor
    ensures 0.0 <= price * factor
  {
  }

  /** `price * (1 + pct / 100)`, unrounded. */
  function TargetAbove(price: real, pct: real): (r: real)
    ensures 0.0 <= price && 0.0 <= pct ==> price <= r
  {
    if 0.0 <= price && 0.0 <= pct then ScaleAtLeast(price, Up(pct)); price * Up(pct)
    else price * Up(pct)
  }

  /** `price * (1 - pct / 100)`, unrounded. */
  function StopBelow(price: real, pct: real): (stop: real)
    ensures 0.0 <= price && 0.0 <= pct ==> stop <= price
    ensures 0.0 < price && 0.0 < pct ==> stop < price
    ensures 0.0 <= price && pct <= 100.0 ==> 0.0 <= stop
  {
    var stop := price * Down(pct);
    if 0.0 < price && 0.0 < pct then ScaleBelow(price, Down(pct)); stop
    else if 0.0 <= price && 0.0 <= pct then ScaleAtMost(price, Down(pct)); stop
    else if 0.0 <= price && pct <= 100.0 then ScaleNonNegative(price, Down(pct)); stop
    else stop
  }

  /** The stop below a price rises strictly with the price, for a percentage under 100. */
  lemma StopBelowMonotone(p: real, q: real, pct: real)
    requires p < q && pct < 100.0
    ensures StopBelow(p, pct) < StopBelow(q, pct)
  {
    MulMonotone(p, q, Down(pct));
  }

  /** `round(entry * (1 + pct / 100), 2)`. */
  function TakeProfitPrice(entry: real, pct: real): (tp: real)
    ensures -0.005 <= tp - TargetAbove(entry, pct) <= 0.005
    ensures WholeCents(tp)
  {
    RoundCents(TargetAbove(entry, pct))
  }

  /** `round(entry * (1 - pct / 100), 2)`. */
  function StopLossPrice(entry: real, pct: real): (sl: real)
    ensures -0.005 <= sl - StopBelow(entry, pct) <= 0.005
    ensures WholeCents(sl)
  {
    RoundCents(StopBelow(entry, pct))
  }

  /** `calculate_exit_prices`: the pair (take-profit, stop-loss). */
  function ExitPrices(entry: real, tpPct: real, slPct: real): (prices: (real, real))
    ensures prices.0 == TakeProfitPrice(entry, tpPct) && prices.1 == StopLossPrice(entry, slPct)
  {
    (RoundCents(TargetAbove(entry, tpPct)), RoundCents(StopBelow(entry, slPct)))
  }

  /** For a non-negative entry and percentage the stop-loss is at or below the entry price, to the cent. */
  lemma StopLossAtOrBelowEntry(entry: real, slPct: real)
    requires 0.0 <= entry && 0.0 <= slPct
    ensures StopLossPrice(entry, slPct) <= RoundCents(entry)
  {
    RoundCentsMonotone(StopBelow(entry, slPct), entry);
  }

  /** For a non-negative entry and percentage the take-profit is at or above the entry price, to the cent. */
  lemma TakeProfitAtOrAboveEntry(entry: real, tpPct: real)
    requires 0.0 <= entry && 0.0 <= tpPct
    ensures RoundCents(entry) <= TakeProfitPrice(entry, tpPct)
  {
    RoundCentsMonotone(entry, TargetAbove(entry, tpPct));
  }

  /** The exit pair brackets the entry: stop-loss below, take-profit above. */
  lemma ExitPricesBracketEntry(entry: real, tpPct: real, slPct: real)
    requires 0.0 <= entry && 0.0 <= tpPct && 0.0 <= slPct
    ensures ExitPrices(entry, tpPct, slPct).1 <= RoundCents(entry) <= ExitPrices(entry, tpPct, slPct).0
  {
    StopLossAtOrBelowEntry(entry, slPct);
    TakeProfitAtOrAboveEntry(entry, tpPct);
  }
}
