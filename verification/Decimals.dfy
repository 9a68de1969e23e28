/** `Decimal.quantize(step, rounding=ROUND_HALF_UP)` on exact reals: the nearest multiple of
    the step, ties going away from zero. A grid is given by its scale, the steps per unit. */
module Decimals {
  import opened Sums

  /** Steps per unit: whole cents, columns of six decimals, and columns of eight. */
  const CENTS: real := 100.0
  const MONEY_SCALE: real := 1000000.0
  const QUANTITY_SCALE: real := 100000000.0

  /** Prices, rates and unit NAVs are positive by table constraints. */
  type Price = p: real | p > 0.0 witness 1.0

  function RoundHalfUp(x: real): int
  {
    if x >= 0.0 then (x + 0.5).Floor else -((-x + 0.5).Floor)
  }

  function Steps(x: real, scale: real): real
  {
    x * scale
  }

  function FromSteps(n: real, scale: real): real
    requires scale > 0.0
  {
    n / scale
  }

  function Quantize(x: real, scale: real): real
    requires scale > 0.0
  {
    FromSteps(RoundHalfUp(Steps(x, scale)) as real, scale)
  }

  /** A whole number of steps. */
  ghost predicate OnGrid(x: real, scale: real)
  {
    IsWhole(Steps(x, scale))
  }

  ghost predicate IsWhole(x: real)
  {
    x.Floor as real == x
  }

  // ---------- whole numbers of steps ----------

  lemma RoundIsNearest(x: real)
    ensures -0.5 <= RoundHalfUp(x) as real - x <= 0.5
    ensures RoundHalfUp(-x) == -RoundHalfUp(x)
  {
  }

  lemma RoundMonotone(x: real, y: real)
    requires x <= y
    ensures RoundHalfUp(x) <= RoundHalfUp(y)
  {
  }

  lemma RoundOfInteger(n: int)
    ensures RoundHalfUp(n as real) == n
  {
  }

  lemma RoundOfWhole(x: real)
    requires IsWhole(x)
    ensures RoundHalfUp(x) as real == x
  {
    hide RoundHalfUp;
    RoundOfInteger(x.Floor);
  }

  lemma FloorOfInteger(n: int)
    ensures (n as real).Floor == n
  {
  }

  lemma IntegersAdd(m: int, n: int)
    ensures (m + n) as real == m as real + n as real && (m - n) as real == m as real - n as real
  {
  }

  lemma WholeClosed(x: real, y: real)
    requires IsWhole(x) && IsWhole(y)
    ensures IsWhole(x + y) && IsWhole(x - y)
  {
    IntegersAdd(x.Floor, y.Floor);
    FloorOfInteger(x.Floor + y.Floor);
    FloorOfInteger(x.Floor - y.Floor);
  }

  lemma StepsOrder(x: real, y: real, scale: real)
    requires scale > 0.0 && x <= y
    ensures Steps(x, scale) <= Steps(y, scale)
  {
    assert (y - x) * scale >= 0.0;
  }

  lemma StepsLinear(x: real, y: real, scale: real)
    ensures Steps(x + y, scale) == Steps(x, scale) + Steps(y, scale)
    ensures Steps(x - y, scale) == Steps(x, scale) - Steps(y, scale)
    ensures Steps(-x, scale) == -Steps(x, scale)
    ensures Steps(0.0, scale) == 0.0
  {
  }

  lemma StepsInverse(x: real, scale: real)
    requires scale > 0.0
    ensures FromSteps(Steps(x, scale), scale) == x && Steps(FromSteps(x, scale), scale) == x
  {
  }

  lemma FromStepsLinear(a: real, b: real, scale: real)
    requires scale > 0.0
    ensures FromSteps(a - b, scale) == FromSteps(a, scale) - FromSteps(b, scale)
    ensures FromSteps(-a, scale) == -FromSteps(a, scale)
  {
  }

  lemma FromStepsOrder(x: real, y: real, scale: real)
    requires scale > 0.0 && x <= y
    ensures FromSteps(x, scale) <= FromSteps(y, scale)
  {
    FromStepsLinear(y, x, scale);
    assert (y - x) / scale >= 0.0;
  }

  // ---------- ties ----------

  /** A value halfway between two whole numbers. */
  ghost predicate Tie(x: real)
  {
    IsWhole(x + 0.5)
  }

  lemma RoundOfShift(x: real, n: int)
    ensures !Tie(x) ==> RoundHalfUp(x + n as real) == RoundHalfUp(x) + n
    ensures Tie(x)
            ==> RoundHalfUp(x + n as real) as real == x + n as real + (if x + n as real >= 0.0 then 0.5 else -0.5)
  {
    RoundNear(x, RoundHalfUp(x));
    RoundNear(x + n as real, RoundHalfUp(x + n as real));
    IntegersAdd(RoundHalfUp(x), n);
    if Tie(x) {
      TieShift(x, n);
      RoundOfTie(x + n as real);
    } else {
      NearestIsUnique(x, RoundHalfUp(x), RoundHalfUp(x + n as real) - n);
    }
  }

  lemma RoundNear(x: real, r: int)
    requires r == RoundHalfUp(x)
    ensures -0.5 <= r as real - x <= 0.5
  {
    RoundIsNearest(x);
  }

  /** Away from ties the nearest whole number is unique. */
  lemma NearestIsUnique(x: real, m: int, n: int)
    requires !Tie(x) && -0.5 <= m as real - x <= 0.5 && -0.5 <= n as real - x <= 0.5
    ensures m == n
  {
    if m < n { FloorOfInteger(n); } else if n < m { FloorOfInteger(m); }
  }

  lemma TieShift(x: real, n: int)
    requires Tie(x)
    ensures Tie(x + n as real)
  {
    IntegersAdd((x + 0.5).Floor, n);
    FloorOfInteger((x + 0.5).Floor + n);
  }

  lemma RoundOfTie(x: real)
    requires Tie(x)
    ensures RoundHalfUp(x) as real == x + (if x >= 0.0 then 0.5 else -0.5)
  {
    var f := (x + 0.5).Floor;
    if x < 0.0 {
      IntegersAdd(1, -f);
      FloorOfInteger(1 - f);
      assert -x + 0.5 == (1 - f) as real;
    }
  }

  /** Rounding commutes with taking off whole steps exactly when the value is no tie, or stays
      on its side of zero. */
  lemma RoundShiftIff(x: real, n: int)
    ensures RoundHalfUp(x) - n == RoundHalfUp(x - n as real) <==> (!Tie(x) || (x >= 0.0 <==> x - n as real >= 0.0))
  {
    hide RoundHalfUp, Tie;
    IntegersAdd(0, n);
    RoundOfShift(x, -n);
    RoundOfShift(x, 0);
    IntegersAdd(RoundHalfUp(x), n);
  }

  // ---------- quantize ----------

  /** Rounding moves a value by at most half a step. */
  lemma QuantizeError(x: real, scale: real)
    requires scale > 0.0
    ensures Abs(Quantize(x, scale) - x) <= FromSteps(0.5, scale)
  {
    hide RoundHalfUp, Steps, FromSteps;
    var a, b := RoundHalfUp(Steps(x, scale)) as real, Steps(x, scale);
    RoundIsNearest(b);
    StepsInverse(x, scale);
    FromStepsLinear(a, b, scale);
    FromStepsLinear(0.5, 0.5, scale);
    FromStepsOrder(a - b, 0.5, scale);
    FromStepsOrder(-0.5, a - b, scale);
  }

  lemma QuantizeMonotone(x: real, y: real, scale: real)
    requires scale > 0.0 && x <= y
    ensures Quantize(x, scale) <= Quantize(y, scale)
  {
    hide RoundHalfUp, Steps, FromSteps;
    StepsOrder(x, y, scale);
    RoundMonotone(Steps(x, scale), Steps(y, scale));
    FromStepsOrder(RoundHalfUp(Steps(x, scale)) as real, RoundHalfUp(Steps(y, scale)) as real, scale);
  }

  lemma QuantizeOdd(x: real, scale: real)
    requires scale > 0.0
    ensures Quantize(-x, scale) == -Quantize(x, scale)
  {
    hide RoundHalfUp, Steps, FromSteps;
    RoundIsNearest(Steps(x, scale));
    StepsLinear(x, x, scale);
    FromStepsLinear(RoundHalfUp(Steps(x, scale)) as real, 0.0, scale);
  }

  lemma QuantizeOnGrid(x: real, scale: real)
    requires scale > 0.0
    ensures OnGrid(Quantize(x, scale), scale)
    ensures OnGrid(x, scale) ==> Quantize(x, scale) == x
  {
    hide RoundHalfUp, Steps, FromSteps;
    StepsInverse(RoundHalfUp(Steps(x, scale)) as real, scale);
    StepsInverse(x, scale);
    if OnGrid(x, scale) { RoundOfWhole(Steps(x, scale)); }
  }

  lemma GridClosed(x: real, y: real, scale: real)
    requires OnGrid(x, scale) && OnGrid(y, scale)
    ensures OnGrid(x + y, scale) && OnGrid(x - y, scale)
  {
    hide Steps;
    StepsLinear(x, y, scale);
    WholeClosed(Steps(x, scale), Steps(y, scale));
  }

  lemma {:induction false} GridSum(xs: seq<real>, scale: real)
    requires forall i :: 0 <= i < |xs| ==> OnGrid(xs[i], scale)
    ensures OnGrid(Sum(xs), scale)
  {
    if |xs| == 0 {
      StepsLinear(0.0, 0.0, scale);
    } else {
      hide OnGrid;
      GridSum(xs[..|xs| - 1], scale);
      GridClosed(Sum(xs[..|xs| - 1]), xs[|xs| - 1], scale);
    }
  }

  // ---------- quantizing shifted values ----------

  /** A value halfway between two steps. */
  ghost predicate OnHalfStep(x: real, scale: real)
  {
    Tie(Steps(x, scale))
  }

  lemma StepsSign(x: real, scale: real)
    requires scale > 0.0
    ensures Steps(x, scale) >= 0.0 <==> x >= 0.0
  {
    if x >= 0.0 { StepsOrder(0.0, x, scale); } else { NegativeSteps(x, scale); }
  }

  lemma NegativeSteps(x: real, scale: real)
    requires scale > 0.0 && x < 0.0
    ensures Steps(x, scale) < 0.0
  {
  }

  lemma GridSteps(g: real, scale: real) returns (n: int)
    requires OnGrid(g, scale)
    ensures Steps(g, scale) == n as real
  {
    n := Steps(g, scale).Floor;
  }

  /** Rounding a difference and rounding before subtracting whole steps agree exactly when the
      value lies on no half step, or the value and the difference lie on one side of zero. */
  lemma QuantizeShiftIff(x: real, g: real, scale: real)
    requires scale > 0.0 && OnGrid(g, scale)
    ensures Quantize(x, scale) - g == Quantize(x - g, scale)
            <==> (!OnHalfStep(x, scale) || (x >= 0.0 <==> x - g >= 0.0))
  {
    hide RoundHalfUp, Steps, FromSteps, Tie;
    var n := GridSteps(g, scale);
    var a, b := RoundHalfUp(Steps(x, scale)), RoundHalfUp(Steps(x - g, scale));
    StepsLinear(x, g, scale);
    RoundShiftIff(Steps(x, scale), n);
    StepsSign(x, scale);
    StepsSign(x - g, scale);
    IntegersAdd(a, n);
    FromStepsLinear(a as real, n as real, scale);
    StepsInverse(g, scale);
    StepsInverse((a - n) as real, scale);
    StepsInverse(b as real, scale);
  }

  /** Where they differ they differ by one step, towards the side of the difference. */
  lemma QuantizeOfShift(x: real, g: real, scale: real)
    requires scale > 0.0 && OnGrid(g, scale)
    ensures !OnHalfStep(x, scale) ==> Quantize(x + g, scale) - g == Quantize(x, scale)
    ensures OnHalfStep(x, scale)
        ==> Quantize(x + g, scale) - g == x + (if x + g >= 0.0 then FromSteps(0.5, scale) else -FromSteps(0.5, scale))
  {
    hide RoundHalfUp, Steps, FromSteps, Tie;
    var n := GridSteps(g, scale);
    var s, b := Steps(x, scale), RoundHalfUp(Steps(x + g, scale));
    StepsLinear(x, g, scale);
    RoundOfShift(s, n);
    StepsSign(x + g, scale);
    StepsInverse(g, scale);
    StepsInverse(x, scale);
    FromStepsLinear(b as real, n as real, scale);
    IntegersAdd(RoundHalfUp(s), n);
    FromStepsLinear(0.5, 0.0, scale);
    FromStepsLinear(s, -0.5, scale);
    FromStepsLinear(s, 0.5, scale);
    FromStepsLinear(s + n as real + 0.5, n as real, scale);
  }

  /** Whole steps taken off never round up, whole steps added never round down. */
  lemma QuantizeShiftOrder(x: real, g: real, scale: real)
    requires scale > 0.0 && OnGrid(g, scale) && g >= 0.0
    ensures Quantize(x - g, scale) <= Quantize(x, scale) - g
    ensures Quantize(x + g, scale) >= Quantize(x, scale) + g
  {
    hide Quantize, OnHalfStep, Steps, FromSteps;
    ZeroOnGrid(scale);
    FromStepsOrder(0.0, 0.5, scale);
    FromStepsLinear(0.0, 0.0, scale);
    GridNegates(g, scale);
    QuantizeOfShift(x, 0.0, scale);
    QuantizeOfShift(x, g, scale);
    QuantizeOfShift(x, -g, scale);
  }

  lemma ZeroOnGrid(scale: real)
    ensures OnGrid(0.0, scale)
  {
    StepsLinear(0.0, 0.0, scale);
  }

  lemma GridNegates(g: real, scale: real)
    requires OnGrid(g, scale)
    ensures OnGrid(-g, scale)
  {
    hide OnGrid;
    ZeroOnGrid(scale);
    GridClosed(0.0, g, scale);
  }

  /** Whole steps are no half steps. */
  lemma GridIsNoHalfStep(x: real, scale: real)
    requires OnGrid(x, scale)
    ensures !OnHalfStep(x, scale)
  {
  }

  // ---------- quotients by divisors of at least one ----------

  /** Division under a name, so that proofs can treat it as opaque. */
  function Over(x: real, u: real): real
    requires u >= 1.0
  {
    x / u
  }

  lemma OverSmaller(x: real, u: real)
    requires u >= 1.0
    ensures Abs(Over(x, u)) <= Abs(x)
  {
    var q := Over(x, u);
    assert q * u == x;
    if q >= 0.0 { assert q * (u - 1.0) >= 0.0; } else { assert q * (u - 1.0) <= 0.0; }
  }

  lemma OverMinus(a: real, b: real, u: real)
    requires u >= 1.0
    ensures Over(a - b, u) == Over(a, u) - Over(b, u)
  {
  }

  /** A quotient moves by no more than its numerator times the move of the divisor. */
  lemma OverStable(b: real, u: real, v: real)
    requires b >= 0.0 && u >= 1.0 && v >= 1.0
    ensures Abs(Over(b, u) - Over(b, v)) <= Times(b, Abs(u - v))
  {
    var r := Over(b, v);
    PositiveOver(b, v);
    OverSmaller(b, v);
    OverGap(b, u, v);
    hide Over, Times;
    OverSmaller(Times(r, v - u), u);
    AbsTimes(r, v - u);
    assert Abs(v - u) == Abs(u - v);
    TimesOrder(r, b, Abs(u - v));
  }

  lemma OverGap(b: real, u: real, v: real)
    requires u >= 1.0 && v >= 1.0
    ensures Over(b, u) - Over(b, v) == Over(Times(Over(b, v), v - u), u)
  {
    var q, r := Over(b, u), Over(b, v);
    assert q * u == b && r * v == b;
    assert (q - r) * u == r * (v - u);
    OverTimes(q - r, u);
  }

  lemma TimesOrder(a: real, b: real, t: real)
    requires a <= b && t >= 0.0
    ensures Times(a, t) <= Times(b, t)
  {
    assert (b - a) * t >= 0.0;
  }

  lemma OverTimes(x: real, u: real)
    requires u >= 1.0
    ensures Over(x * u, u) == x
  {
  }

  lemma PositiveOver(b: real, v: real)
    requires b >= 0.0 && v >= 1.0
    ensures Over(b, v) >= 0.0
  {
  }

  lemma DivideStable(a: real, b: real, u: real, v: real)
    requires b >= 0.0 && u >= 1.0 && v >= 1.0
    ensures Abs(Over(a, u) - Over(b, v)) <= Abs(a - b) + Times(b, Abs(u - v))
  {
    hide Over, Times;
    OverSmaller(a - b, u);
    OverMinus(a, b, u);
    OverStable(b, u, v);
  }

  lemma AbsTimes(b: real, x: real)
    requires b >= 0.0
    ensures Abs(Times(b, x)) == Times(b, Abs(x))
  {
  }

  lemma ScaleBound(b: real, x: real, bound: real)
    requires b >= 0.0 && x <= bound
    ensures b * x <= b * bound
  {
  }

  lemma TimesBound(b: real, x: real, bound: real)
    requires b >= 0.0 && x <= bound
    ensures Times(b, x) <= b * bound
  {
    ScaleBound(b, x, bound);
  }
}
