// Shared value types and the Python numeric conversions the bots rely on.

module Wrappers {
  datatype Option<+T> = None | Some(value: T)
}

module Numeric {
  import opened Wrappers

  /** A pandas float that may be NaN: `None` stands for NaN. */
  type Num = Option<real>

  /** `a < b` on pandas floats: false whenever either side is NaN. */
  predicate Lt(a: Num, b: Num) {
    a.Some? && b.Some? && a.value < b.value
  }

  function Abs(x: real): real {
    if x < 0.0 then -x else x
  }

  function AbsInt(n: int): nat {
    if n < 0 then -n else n
  }

  /** Python's `int(x)` applied to a float: truncation toward zero. */
  function Trunc(x: real): (n: int)
    ensures 0.0 <= x ==> 0 <= n && n as real <= x < n as real + 1.0
    ensures x < 0.0 ==> n <= 0 && n as real - 1.0 < x <= n as real
    ensures n >= 1 <==> x >= 1.0
  {
    if x >= 0.0 then x.Floor else -((-x).Floor)
  }

  /**
   * `int(a / b)` for a positive divisor: as many whole `b`s as fit in `a`,
   * so the shares bought never cost more than the amount divided.
   */
  lemma TruncQuotient(a: real, b: real)
    requires 0.0 <= a && 0.0 < b
    ensures 0 <= Trunc(a / b)
    ensures Trunc(a / b) as real * b <= a < (Trunc(a / b) + 1) as real * b
  {
    var q, n := a / b, Trunc(a / b);
    DivTimes(a, b);
    WholeUnitsBelow(q, n, b);
    assert q * b < (n + 1) as real * b;
    assert a < (n + 1) as real * b;
  }

  lemma DivTimes(a: real, b: real)
    requires 0.0 < b
    ensures (a / b) * b == a
  {
  }

  lemma WholeUnitsBelow(q: real, n: int, b: real)
    requires n as real <= q < n as real + 1.0 && 0.0 < b
    ensures n as real * b <= q * b < (n + 1) as real * b
  {
    MulMonotone(n as real, q, b);
    MulMonotone(q, (n + 1) as real, b);
  }

  lemma MulMonotone(x: real, y: real, b: real)
    requires x <= y && 0.0 < b
    ensures x * b <= y * b
    ensures x < y ==> x * b < y * b
  {
  }

  /** Round half to even: the nearest integer, and the even one of two equally near. */
  function RoundHalfEven(c: real): (n: int)
    ensures -0.5 <= n as real - c <= 0.5
    ensures (n as real - c == 0.5 || c - n as real == 0.5) ==> n % 2 == 0
  {
    var f := c.Floor;
    var frac := c - f as real;
    if frac < 0.5 then f
    else if frac > 0.5 then f + 1
    else if f % 2 == 0 then f
    else f + 1
  }

  lemma RoundHalfEvenMonotone(c: real, d: real)
    requires c <= d
    ensures RoundHalfEven(c) <= RoundHalfEven(d)
  {
    var f, g := c.Floor, d.Floor;
    assert f <= g;
    if f < g {
      assert RoundHalfEven(c) <= f + 1 <= g <= RoundHalfEven(d);
    } else {
      assert c - f as real <= d - g as real;
    }
  }

  /** A price that is a whole number of cents. */
  predicate WholeCents(r: real) {
    (r * 100.0).Floor as real == r * 100.0
  }

  /**
   * Python's `round(x, 2)` on a price, taken on the exact decimal value:
   * the nearest whole cent, ties going to the even cent.
   */
  function RoundCents(x: real): (r: real)
    ensures -0.005 <= r - x <= 0.005
    ensures WholeCents(r)
  {
    var n := RoundHalfEven(x * 100.0);
    assert (n as real / 100.0) * 100.0 == n as real;
    n as real / 100.0
  }

  /** Rounding to cents never reverses the order of two prices. */
  lemma RoundCentsMonotone(x: real, y: real)
    requires x <= y
    ensures RoundCents(x) <= RoundCents(y)
  {
    RoundHalfEvenMonotone(x * 100.0, y * 100.0);
  }

  /** A price already in whole cents is left unchanged by `round(x, 2)`. */
  lemma RoundCentsFixesWholeCents(x: real)
    requires WholeCents(x)
    ensures RoundCents(x) == x
  {
    var c := x * 100.0;
    assert c.Floor as real == c;
    assert RoundHalfEven(c) == c.Floor;
  }

  function Sum(xs: seq<real>): real
    decreases |xs|
  {
    if xs == [] then 0.0 else Sum(xs[..|xs| - 1]) + xs[|xs| - 1]
  }

  function Mean(xs: seq<real>): real
    requires |xs| > 0
  {
    Sum(xs) / |xs| as real
  }

  lemma {:induction false} SumConstant(xs: seq<real>, c: real)
    requires forall i :: 0 <= i < |xs| ==> xs[i] == c
    ensures Sum(xs) == |xs| as real * c
    decreases |xs|
  {
    if xs != [] {
      SumConstant(xs[..|xs| - 1], c);
    }
  }

  /** The mean of a window whose values all equal `c` is `c`. */
  lemma MeanConstant(xs: seq<real>, c: real)
    requires |xs| > 0
    requires forall i :: 0 <= i < |xs| ==> xs[i] == c
    ensures Mean(xs) == c
  {
    SumConstant(xs, c);
  }

  /** The sum of squared deviations of `xs` from `m`. */
  function SquaredDeviations(xs: seq<real>, m: real): real
    decreases |xs|
  {
    if xs == [] then 0.0
    else SquaredDeviations(xs[..|xs| - 1], m) + (xs[|xs| - 1] - m) * (xs[|xs| - 1] - m)
  }

  /** pandas' `std()` squared: the sample variance, with one degree of freedom removed. */
  function SampleVariance(xs: seq<real>): real
    requires |xs| >= 2
  {
    SquaredDeviations(xs, Mean(xs)) / (|xs| - 1) as real
  }

  lemma {:induction false} SquaredDeviationsFromConstant(xs: seq<real>, c: real)
    requires forall i :: 0 <= i < |xs| ==> xs[i] == c
    ensures SquaredDeviations(xs, c) == 0.0
    decreases |xs|
  {
    if xs != [] {
      SquaredDeviationsFromConstant(xs[..|xs| - 1], c);
    }
  }

  /** A window of identical values has sample variance 0, hence standard deviation 0. */
  lemma ConstantWindowHasZeroVariance(xs: seq<real>)
    requires |xs| >= 2
    requires forall i :: 0 <= i < |xs| ==> xs[i] == xs[0]
    ensures SampleVariance(xs) == 0.0
  {
    MeanConstant(xs, xs[0]);
    SquaredDeviationsFromConstant(xs, xs[0]);
  }
}
