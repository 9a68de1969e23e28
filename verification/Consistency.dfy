/** Residual diagnostics of the static baseline (backend/app/q2_analysis/consistency.py). */
module Consistency {
  import opened Sums
  import opened Decimals
  import opened DayOrder

  // ---------- windowed error and bias ----------

  function LastOf<T>(xs: seq<T>, window: nat): (r: seq<T>)
    requires window <= |xs|
    ensures |r| == window
  {
    xs[|xs| - window..]
  }

  function Mean(xs: seq<real>): real
    requires xs != []
  {
    Sum(xs) / |xs| as real
  }

  function Mae(residuals: seq<real>, window: nat): Option<real>
    requires window > 0
  {
    if |residuals| < window then None else Some(Quantize(Mean(AbsAll(LastOf(residuals, window))), QUANTITY_SCALE))
  }

  function Bias(residuals: seq<real>, window: nat): Option<real>
    requires window > 0
  {
    if |residuals| < window then None else Some(Quantize(Mean(LastOf(residuals, window)), QUANTITY_SCALE))
  }

  lemma {:induction false} SumBetweenAbs(xs: seq<real>)
    ensures -Sum(AbsAll(xs)) <= Sum(xs) <= Sum(AbsAll(xs))
  {
    if xs != [] {
      var last := |xs| - 1;
      SumBetweenAbs(xs[..last]);
      assert AbsAll(xs)[..last] == AbsAll(xs[..last]);
    }
  }

  lemma DivideOrder(x: real, y: real, n: real)
    requires n > 0.0 && -y <= x <= y
    ensures -(y / n) <= x / n <= y / n
  {
    FromStepsOrder(x, y, n);
    FromStepsOrder(-y, x, n);
    FromStepsLinear(y, y, n);
    assert FromSteps(x, n) == x / n && FromSteps(y, n) == y / n && FromSteps(-y, n) == -(y / n);
  }

  /** Over one window the rounded bias never exceeds the rounded mean absolute error. */
  lemma BiasWithinMae(residuals: seq<real>, window: nat)
    requires window > 0
    ensures Mae(residuals, window).Some? <==> Bias(residuals, window).Some?
    ensures Bias(residuals, window).Some? ==> Abs(Bias(residuals, window).value) <= Mae(residuals, window).value
  {
    if |residuals| >= window {
      hide Quantize, Sum;
      var xs := LastOf(residuals, window);
      var b, m := Mean(xs), Mean(AbsAll(xs));
      SumBetweenAbs(xs);
      DivideOrder(Sum(xs), Sum(AbsAll(xs)), |xs| as real);
      QuantizeMonotone(b, m, QUANTITY_SCALE);
      QuantizeMonotone(-m, b, QUANTITY_SCALE);
      QuantizeOdd(m, QUANTITY_SCALE);
    }
  }

  // ---------- correlation ----------

  function Products(xs: seq<real>, ys: seq<real>): (r: seq<real>)
    requires |xs| == |ys|
    ensures |r| == |xs|
  {
    seq(|xs|, i requires 0 <= i < |xs| => Times(xs[i], ys[i]))
  }

  function Centred(xs: seq<real>): (r: seq<real>)
    requires xs != []
    ensures |r| == |xs|
  {
    seq(|xs|, i requires 0 <= i < |xs| => xs[i] - Mean(xs))
  }

  /** The three sums of the correlation. The division by the root of the product is left out. */
  datatype PearsonSums = PearsonSums(numerator: real, leftVariance: real, rightVariance: real)

  function Pearson(left: seq<real>, right: seq<real>): Option<PearsonSums>
  {
    if |left| != |right| || |left| < 2 then None
    else
      var x, y := Centred(left), Centred(right);
      var sums := PearsonSums(Sum(Products(x, y)), Sum(Products(x, x)), Sum(Products(y, y)));
      if sums.leftVariance == 0.0 || sums.rightVariance == 0.0 then None else Some(sums)
  }

  /** The step of the Cauchy-Schwarz induction, on the sums so far and one more pair. */
  lemma CauchyStep(s: real, a: real, b: real, x: real, y: real)
    requires a >= 0.0 && b >= 0.0 && Times(s, s) <= Times(a, b)
    ensures Times(s + Times(x, y), s + Times(x, y)) <= Times(a + Times(x, x), b + Times(y, y))
  {
    var p, q := a * y * y, b * x * x;
    CrossTerm(s, a, b, x, y);
    assert (s + x * y) * (s + x * y) == s * s + 2.0 * s * x * y + x * y * x * y;
    assert (a + x * x) * (b + y * y) == a * b + p + q + x * x * y * y;
    assert x * y * x * y == x * x * y * y;
  }

  /** 2sxy is at most ay^2 + bx^2 because s^2 is at most ab. */
  lemma CrossTerm(s: real, a: real, b: real, x: real, y: real)
    requires a >= 0.0 && b >= 0.0 && Times(s, s) <= Times(a, b)
    ensures 2.0 * s * x * y <= a * y * y + b * x * x
  {
    var p, q, t := a * y * y, b * x * x, 2.0 * s * x * y;
    NonNegativeProduct(a, y);
    NonNegativeProduct(b, x);
    SquareOfCross(s, a, b, x, y);
    if t > p + q {
      SquareLess(p + q, t);
      FourProducts(p, q);
    }
  }

  lemma NonNegativeProduct(a: real, y: real)
    requires a >= 0.0
    ensures a * y * y >= 0.0
  {
    assert y * y >= 0.0;
    assert a * (y * y) >= 0.0;
    assert a * y * y == a * (y * y);
  }

  lemma SquareOfCross(s: real, a: real, b: real, x: real, y: real)
    requires Times(s, s) <= Times(a, b)
    ensures (2.0 * s * x * y) * (2.0 * s * x * y) <= 4.0 * (a * y * y) * (b * x * x)
  {
    var u := x * y;
    assert u * u >= 0.0;
    Scale(s * s, a * b, u * u);
    assert (2.0 * s * x * y) == 2.0 * s * u;
    assert (2.0 * s * u) * (2.0 * s * u) == 4.0 * ((s * s) * (u * u));
    assert (a * b) * (u * u) == (a * y * y) * (b * x * x) by {
      assert u * u == (y * y) * (x * x);
      assert (a * b) * ((y * y) * (x * x)) == (a * (y * y)) * (b * (x * x));
      assert a * (y * y) == a * y * y && b * (x * x) == b * x * x;
    }
  }

  lemma Scale(a: real, b: real, c: real)
    requires a <= b && c >= 0.0
    ensures a * c <= b * c
  {
  }

  lemma SquareLess(a: real, b: real)
    requires 0.0 <= a < b
    ensures a * a < b * b
  {
    var d := b - a;
    assert b * b == a * a + 2.0 * a * d + d * d;
    assert a * d >= 0.0;
    assert d * d > 0.0;
  }

  lemma FourProducts(p: real, q: real)
    ensures 4.0 * p * q <= (p + q) * (p + q)
  {
    assert (p - q) * (p - q) >= 0.0;
    assert (p + q) * (p + q) - 4.0 * p * q == (p - q) * (p - q);
  }

  lemma {:induction false} CauchySchwarz(xs: seq<real>, ys: seq<real>)
    requires |xs| == |ys|
    ensures Sum(Products(xs, xs)) >= 0.0 && Sum(Products(ys, ys)) >= 0.0
    ensures Times(Sum(Products(xs, ys)), Sum(Products(xs, ys))) <= Times(Sum(Products(xs, xs)), Sum(Products(ys, ys)))
    decreases |xs|
  {
    if xs != [] {
      var n := |xs| - 1;
      var x, y := xs[..n], ys[..n];
      CauchySchwarz(x, y);
      assert Products(xs, ys)[..n] == Products(x, y);
      assert Products(xs, xs)[..n] == Products(x, x);
      assert Products(ys, ys)[..n] == Products(y, y);
      SquareNonNegative(xs[n]);
      SquareNonNegative(ys[n]);
      hide Times;
      CauchyStep(Sum(Products(x, y)), Sum(Products(x, x)), Sum(Products(y, y)), xs[n], ys[n]);
    }
  }

  lemma SquareNonNegative(x: real)
    ensures Times(x, x) >= 0.0
  {
  }

  /** The reported correlation lies between -1 and 1 before rounding: its numerator squared is
      at most the product under the root, which is positive. */
  lemma CorrelationInRange(left: seq<real>, right: seq<real>)
    ensures Pearson(left, right).Some?
        ==> (var p := Pearson(left, right).value;
             p.leftVariance > 0.0 && p.rightVariance > 0.0
             && Times(p.numerator, p.numerator) <= Times(p.leftVariance, p.rightVariance))
  {
    if |left| == |right| && |left| >= 2 {
      hide Times, Sum, Products, Centred;
      CauchySchwarz(Centred(left), Centred(right));
    }
  }

  /** So the reported correlation lies between minus one and one, for every value of the root that
      falls short of the exact one by no more than four parts in a thousand million. */
  lemma CorrelationWithinOne(left: seq<real>, right: seq<real>, root: real)
    requires Pearson(left, right).Some? && root > 0.0
    requires var p, slack := Pearson(left, right).value, 1.000000004 * root;
             Times(p.leftVariance, p.rightVariance) <= Times(slack, slack)
    ensures -1.0 <= Quantize(Pearson(left, right).value.numerator / root, QUANTITY_SCALE) <= 1.0
  {
    CorrelationInRange(left, right);
    var x := Pearson(left, right).value.numerator;
    hide Pearson, Quantize, OnGrid;
    RootBound(x, 1.000000004 * root);
    QuotientBound(x, root, 1.000000004);
    QuantizeMonotone(x / root, 1.000000004, QUANTITY_SCALE);
    QuantizeMonotone(-1.000000004, x / root, QUANTITY_SCALE);
    JustAboveOne();
  }

  lemma ProductGrows(a: real, b: real, y: real)
    requires a < b && y > 0.0
    ensures Times(a, y) < Times(b, y)
  {
    assert (b - a) * y > 0.0;
  }

  lemma RootBound(x: real, bound: real)
    requires bound > 0.0 && Times(x, x) <= Times(bound, bound)
    ensures -bound <= x <= bound
  {
    var a := Abs(x);
    assert Times(a, a) == Times(x, x) && Times(bound, a) == Times(a, bound);
    if a > bound {
      ProductGrows(bound, a, bound);
      ProductGrows(bound, a, a);
    }
  }

  lemma QuotientBound(x: real, y: real, c: real)
    requires y > 0.0 && -(c * y) <= x <= c * y
    ensures -c <= x / y <= c
  {
    var q := x / y;
    assert x == Times(q, y) && Times(-c, y) == -(c * y);
    if q > c { ProductGrows(c, q, y); }
    if q < -c { ProductGrows(q, -c, y); }
  }

  lemma JustAboveOne()
    ensures Quantize(1.000000004, QUANTITY_SCALE) == 1.0 && Quantize(-1.000000004, QUANTITY_SCALE) == -1.0
  {
    assert Steps(1.000000004, QUANTITY_SCALE) == 100000000.4 && Steps(-1.000000004, QUANTITY_SCALE) == -100000000.4;
    assert (100000000.4 + 0.5).Floor == 100000000;
  }

  // ---------- the residual streak ----------

  predicate Signed(r: Option<real>, positive: bool)
  {
    r.Some? && r.value != 0.0 && (r.value > 0.0) == positive
  }

  /** The last `k` residuals are all present, non-zero and of one sign. */
  ghost predicate IsRun(residuals: seq<Option<real>>, k: nat, positive: bool)
    requires k <= |residuals|
  {
    forall i :: |residuals| - k <= i < |residuals| ==> Signed(residuals[i], positive)
  }

  /** `count` is the length of the longest such suffix. */
  ghost predicate LongestRun(residuals: seq<Option<real>>, count: int)
  {
    && 0 <= count <= |residuals|
    && (exists positive :: IsRun(residuals, count, positive))
    && (forall k, positive :: count < k <= |residuals| ==> !IsRun(residuals, k, positive))
  }

  method ResidualStreak(residuals: seq<Option<real>>) returns (count: nat)
    ensures LongestRun(residuals, count)
  {
    if residuals == [] || residuals[|residuals| - 1].None? || residuals[|residuals| - 1].value == 0.0 {
      assert IsRun(residuals, 0, true);
      return 0;
    }
    var positive := residuals[|residuals| - 1].value > 0.0;
    count := 0;
    while count < |residuals| && Signed(residuals[|residuals| - 1 - count], positive)
      invariant count <= |residuals| && IsRun(residuals, count, positive)
    {
      count := count + 1;
    }
    forall k, p | count < k <= |residuals| ensures !IsRun(residuals, k, p) {
      assert !Signed(residuals[|residuals| - 1 - count], positive);
      assert !Signed(residuals[|residuals| - 1], !positive);
    }
  }

  // ---------- cumulative returns ----------

  datatype CumulativePoint = CumulativePoint(day: Day, actual: Option<real>, predicted: Option<real>)

  predicate Paired(d: Day)
  {
    d.actual.Some? && d.predicted.Some?
  }

  /** The compounded factor of the paired days among the first `k`, for one of the two series. */
  ghost function Factor(days: seq<Day>, k: nat, predicted: bool): real
    requires k <= |days|
  {
    if k == 0 then 1.0
    else if Paired(days[k - 1])
    then Times(Factor(days, k - 1, predicted), Growth(days[k - 1], predicted))
    else Factor(days, k - 1, predicted)
  }

  function Growth(d: Day, predicted: bool): real
    requires Paired(d)
  {
    1.0 + (if predicted then d.predicted.value else d.actual.value) / 100.0
  }

  function CumulativePct(factor: real): real
  {
    Quantize((factor - 1.0) * 100.0, QUANTITY_SCALE)
  }

  /** One point for every day, in date order. */
  ghost predicate Cumulated(points: seq<CumulativePoint>, days: seq<Day>)
  {
    && |points| == |days|
    && (forall i :: 0 <= i < |days| ==> points[i].day == days[i])
    && (forall i :: 0 <= i < |days| ==>
          if Paired(days[i])
          then points[i].actual == Some(CumulativePct(Factor(days, i + 1, false)))
               && points[i].predicted == Some(CumulativePct(Factor(days, i + 1, true)))
          else points[i].actual == None && points[i].predicted == None)
  }

  method CumulativePoints(predictions: seq<Day>) returns (points: seq<CumulativePoint>)
    ensures Cumulated(points, Sorted(predictions))
  {
    hide CumulativePct, Times, Growth, Sorted;
    points := [];
    var days := Sorted(predictions);
    var actualFactor, predictedFactor := 1.0, 1.0;
    for k := 0 to |days|
      invariant |points| == k
      invariant actualFactor == Factor(days, k, false) && predictedFactor == Factor(days, k, true)
      invariant forall i :: 0 <= i < k ==> points[i].day == days[i]
      invariant forall i :: 0 <= i < k ==>
        if Paired(days[i])
        then points[i].actual == Some(CumulativePct(Factor(days, i + 1, false)))
             && points[i].predicted == Some(CumulativePct(Factor(days, i + 1, true)))
        else points[i].actual == None && points[i].predicted == None
    {
      var actual, predicted: Option<real> := None, None;
      if Paired(days[k]) {
        actualFactor := Times(actualFactor, Growth(days[k], false));
        predictedFactor := Times(predictedFactor, Growth(days[k], true));
        actual, predicted := Some(CumulativePct(actualFactor)), Some(CumulativePct(predictedFactor));
      }
      points := points + [CumulativePoint(days[k], actual, predicted)];
    }
  }

  /** Unpaired days carry no weight: the factor is that of the paired days alone. */
  lemma {:induction false} FactorOfPaired(days: seq<Day>, k: nat, predicted: bool)
    requires k <= |days|
    ensures Factor(days, k, predicted) == Factor(PairedOf(days[..k]), |PairedOf(days[..k])|, predicted)
  {
    if k > 0 {
      FactorOfPaired(days, k - 1, predicted);
      assert days[..k][..k - 1] == days[..k - 1];
      var before := PairedOf(days[..k - 1]);
      assert days[..k][k - 1] == days[k - 1];
      if Paired(days[k - 1]) {
        var after := before + [days[k - 1]];
        assert PairedOf(days[..k]) == after;
        assert after[..|before|] == before[..|before|] && after[|before|] == days[k - 1];
        FactorOfPrefix(after, before, |before|, predicted);
      } else {
        assert PairedOf(days[..k]) == before + [];
        assert before + [] == before;
      }
    }
  }

  function PairedOf(days: seq<Day>): (r: seq<Day>)
    ensures forall d :: d in r ==> Paired(d)
  {
    if days == [] then []
    else PairedOf(days[..|days| - 1]) + (if Paired(days[|days| - 1]) then [days[|days| - 1]] else [])
  }

  lemma {:induction false} FactorOfPrefix(a: seq<Day>, b: seq<Day>, k: nat, predicted: bool)
    requires k <= |a| && k <= |b| && a[..k] == b[..k]
    ensures Factor(a, k, predicted) == Factor(b, k, predicted)
  {
    if k > 0 {
      assert a[..k][k - 1] == a[k - 1] && b[..k][k - 1] == b[k - 1];
      assert a[..k - 1] == a[..k][..k - 1] && b[..k - 1] == b[..k][..k - 1];
      FactorOfPrefix(a, b, k - 1, predicted);
    }
  }

  // ---------- the verdict ----------

  datatype Status = CONSISTENT | SLIGHTLY_DIVERGING | LIKELY_EXPOSURE_CHANGED | INSUFFICIENT_DATA | NOT_APPLICABLE

  datatype Rules = Rules(
    minimumObservations: int, likelyMinimumObservations: int, minimumCoverage: real,
    slightlyMae: real, slightlyBias: real, slightlyCorrelation: real,
    likelyMae: real, likelyBias: real, likelyStreak: int, likelyCumulative: real)

  datatype Evidence = Evidence(
    observations: int, coverage: Option<real>, mae: Option<real>, bias: Option<real>,
    cumulative: Option<real>, correlation: Option<real>, streak: int)

  predicate AtLeast(x: Option<real>, bound: real)
  {
    x.Some? && x.value >= bound
  }

  predicate AbsAtLeast(x: Option<real>, bound: real)
  {
    x.Some? && Abs(x.value) >= bound
  }

  predicate Below(x: Option<real>, bound: real)
  {
    x.Some? && x.value < bound
  }

  predicate Enough(e: Evidence, rules: Rules)
  {
    e.observations >= rules.minimumObservations && AtLeast(e.coverage, rules.minimumCoverage)
  }

  predicate LikelyCumulative(e: Evidence, rules: Rules)
  {
    AbsAtLeast(e.cumulative, rules.likelyCumulative) && Below(e.correlation, rules.slightlyCorrelation)
  }

  function Verdict(e: Evidence, rules: Rules): (s: Status)
    ensures s != NOT_APPLICABLE && (s == INSUFFICIENT_DATA <==> !Enough(e, rules))
  {
    if !Enough(e, rules) then INSUFFICIENT_DATA
    else
      var likelyStreak := e.streak >= rules.likelyStreak
                          && (AtLeast(e.mae, rules.likelyMae) || AbsAtLeast(e.bias, rules.likelyBias));
      var slightly :=
        AtLeast(e.mae, rules.slightlyMae) || AbsAtLeast(e.bias, rules.slightlyBias)
        || Below(e.correlation, rules.slightlyCorrelation);
      if e.observations >= rules.likelyMinimumObservations && (likelyStreak || LikelyCumulative(e, rules))
      then LIKELY_EXPOSURE_CHANGED
      else if slightly
      then SLIGHTLY_DIVERGING
      else CONSISTENT
  }

  function Severity(s: Status): int
  {
    match s
    case CONSISTENT => 1
    case SLIGHTLY_DIVERGING => 2
    case LIKELY_EXPOSURE_CHANGED => 3
    case _ => 0
  }

  /** `b` holds everything against the baseline that `a` holds, and at least as strongly. */
  ghost predicate Worse(a: Evidence, b: Evidence)
  {
    && (a.mae.Some? ==> b.mae.Some? && a.mae.value <= b.mae.value)
    && (a.bias.Some? ==> b.bias.Some? && Abs(a.bias.value) <= Abs(b.bias.value))
    && (a.cumulative.Some? ==> b.cumulative.Some? && Abs(a.cumulative.value) <= Abs(b.cumulative.value))
    && (a.correlation.Some? ==> b.correlation.Some? && b.correlation.value <= a.correlation.value)
    && a.streak <= b.streak && a.observations <= b.observations
    && (a.coverage.Some? ==> b.coverage.Some? && a.coverage.value <= b.coverage.value)
  }

  /** Worse evidence never earns a milder verdict. */
  lemma VerdictMonotone(a: Evidence, b: Evidence, rules: Rules)
    requires Worse(a, b)
    ensures Severity(Verdict(a, rules)) <= Severity(Verdict(b, rules))
  {
  }

  // ---------- the evaluation ----------

  function Residuals(days: seq<Day>): (r: seq<Option<real>>)
    ensures |r| == |days|
  {
    seq(|days|, i requires 0 <= i < |days| =>
      if Paired(days[i]) then Some(days[i].actual.value - days[i].predicted.value) else None)
  }

  function Actuals(days: seq<Day>): (r: seq<real>)
    requires forall d :: d in days ==> Paired(d)
    ensures |r| == |days|
  {
    seq(|days|, i requires 0 <= i < |days| && Paired(days[i]) => days[i].actual.value)
  }

  function Predicteds(days: seq<Day>): (r: seq<real>)
    requires forall d :: d in days ==> Paired(d)
    ensures |r| == |days|
  {
    seq(|days|, i requires 0 <= i < |days| && Paired(days[i]) => days[i].predicted.value)
  }

  function Differences(days: seq<Day>): (r: seq<real>)
    requires forall d :: d in days ==> Paired(d)
    ensures |r| == |days|
  {
    seq(|days|, i requires 0 <= i < |days| && Paired(days[i]) => days[i].actual.value - days[i].predicted.value)
  }

  function RecentCoverage(days: seq<Day>): Option<real>
  {
    if days == [] then None
    else
      var recent := LastOf(days, if |days| < 5 then |days| else 5);
      Some(Quantize(Mean(seq(|recent|, i requires 0 <= i < |recent| => recent[i].explained)), QUANTITY_SCALE))
  }

  /** The longer windows are reported beside the evidence that the verdict uses. */
  datatype Assessment = Assessment(
    status: Status, evidence: Evidence, correlation: Option<PearsonSums>,
    maeTen: Option<real>, maeTwenty: Option<real>, biasTen: Option<real>)

  /** The report for days already in date order. `Ratio` stands for numerator over the root of
      the two variance sums, which the source takes in floating point. */
  function Evaluate(days: seq<Day>, rules: Rules, ratio: PearsonSums -> real, streak: int): Assessment
  {
    var paired := PairedOf(days);
    var residuals := Differences(paired);
    var sums := Pearson(Actuals(paired), Predicteds(paired));
    var evidence := Evidence(
      |paired|, RecentCoverage(days), Mae(residuals, 5), Bias(residuals, 5),
      if residuals == [] then None else Some(Quantize(Sum(residuals), QUANTITY_SCALE)),
      if sums.Some? then Some(Quantize(ratio(sums.value), QUANTITY_SCALE)) else None,
      streak);
    Assessment(Verdict(evidence, rules), evidence, sums, Mae(residuals, 10), Mae(residuals, 20), Bias(residuals, 10))
  }

  method EvaluateConsistency(
      predictions: seq<Day>, rules: Rules, ratio: PearsonSums -> real, notApplicable: bool) returns (a: Assessment)
    ensures a.status == NOT_APPLICABLE <==> notApplicable
    ensures notApplicable ==>
      a == Assessment(NOT_APPLICABLE, Evidence(0, None, None, None, None, None, 0), None, None, None, None)
    ensures !notApplicable ==> a == Evaluate(Sorted(predictions), rules, ratio, a.evidence.streak)
    ensures !notApplicable ==> LongestRun(Residuals(Sorted(predictions)), a.evidence.streak)
  {
    hide Verdict, Sorted, PairedOf, Pearson, Mae, Bias, RecentCoverage, LongestRun, Quantize;
    if notApplicable {
      return Assessment(NOT_APPLICABLE, Evidence(0, None, None, None, None, None, 0), None, None, None, None);
    }
    var ordered := Sorted(predictions);
    var streak := ResidualStreak(Residuals(ordered));
    a := Evaluate(ordered, rules, ratio, streak);
  }

  /** The cumulative residual is the total actual less the total predicted return of the paired
      days, up to half a step; it exists exactly when there is a paired day. */
  lemma CumulativeIsDifference(days: seq<Day>, rules: Rules, ratio: PearsonSums -> real, streak: int)
    ensures var paired, cumulative := PairedOf(days), Evaluate(days, rules, ratio, streak).evidence.cumulative;
            && (cumulative.Some? <==> paired != [])
            && (cumulative.Some?
                ==> Abs(cumulative.value - (Sum(Actuals(paired)) - Sum(Predicteds(paired)))) <= 0.000000005)
  {
    hide Mae, Bias, Pearson, RecentCoverage, Verdict, Quantize, Sum, PairedOf;
    var paired := PairedOf(days);
    SumSeqAdded(Predicteds(paired), Differences(paired), Actuals(paired));
    QuantizeError(Sum(Differences(paired)), QUANTITY_SCALE);
    assert FromSteps(0.5, QUANTITY_SCALE) == 0.000000005;
  }

  /** Enough coverage on each of the last five days is enough recent coverage, for a minimum of
      eight digits; for any other up to its own rounding. */
  lemma CoveredDaysSuffice(days: seq<Day>, minimum: real)
    requires days != []
    requires forall i :: 0 <= i < |days| && i >= |days| - 5 ==> days[i].explained >= minimum
    ensures AtLeast(RecentCoverage(days), Quantize(minimum, QUANTITY_SCALE))
    ensures OnGrid(minimum, QUANTITY_SCALE) ==> AtLeast(RecentCoverage(days), minimum)
  {
    hide Quantize, Sum, OnGrid;
    var recent := LastOf(days, if |days| < 5 then |days| else 5);
    var xs := seq(|recent|, i requires 0 <= i < |recent| => recent[i].explained);
    MeanAtLeast(xs, minimum);
    QuantizeMonotone(minimum, Mean(xs), QUANTITY_SCALE);
    QuantizeOnGrid(minimum, QUANTITY_SCALE);
  }

  lemma MeanAtLeast(xs: seq<real>, bound: real)
    requires xs != [] && forall i :: 0 <= i < |xs| ==> xs[i] >= bound
    ensures Mean(xs) >= bound
  {
    SumAtLeast(xs, bound);
    FromStepsOrder(bound * |xs| as real, Sum(xs), |xs| as real);
    assert bound * |xs| as real / |xs| as real == bound;
  }

  lemma {:induction false} SumAtLeast(xs: seq<real>, bound: real)
    requires forall i :: 0 <= i < |xs| ==> xs[i] >= bound
    ensures Sum(xs) >= bound * |xs| as real
  {
    if xs != [] { SumAtLeast(xs[..|xs| - 1], bound); }
  }

  lemma LongestRunIsUnique(residuals: seq<Option<real>>, j: int, k: int)
    requires LongestRun(residuals, j) && LongestRun(residuals, k)
    ensures j == k
  {
    var p :| IsRun(residuals, j, p);
    var q :| IsRun(residuals, k, q);
  }

  /** With one prediction per date, the whole assessment is a function of the set of predictions. */
  lemma AssessmentIgnoresOrder(x: seq<Day>, y: seq<Day>, rules: Rules, ratio: PearsonSums -> real, j: nat, k: nat)
    requires multiset(x) == multiset(y) && DatesDiffer(x)
    requires LongestRun(Residuals(Sorted(x)), j) && LongestRun(Residuals(Sorted(y)), k)
    ensures Evaluate(Sorted(x), rules, ratio, j) == Evaluate(Sorted(y), rules, ratio, k)
  {
    hide Evaluate, Sorted;
    SortingForgetsOrder(x, y);
    LongestRunIsUnique(Residuals(Sorted(x)), j, k);
  }

  // ---------- what a streak says about the error measures ----------

  ghost predicate SameSign(xs: seq<real>, positive: bool)
  {
    forall i :: 0 <= i < |xs| ==> xs[i] != 0.0 && (xs[i] > 0.0) == positive
  }

  lemma SuffixExtends(before: seq<real>, x: real, k: nat, positive: bool)
    requires k <= |before| && SameSign(LastOf(before, k), positive)
    requires x != 0.0 && (x > 0.0) == positive
    ensures SameSign(LastOf(before + [x], k + 1), positive)
  {
    assert LastOf(before + [x], k + 1) == LastOf(before, k) + [x];
  }

  /** A run of `k` days in date order is the suffix of `k` paired residuals, all of one sign. */
  lemma {:induction false} RunIsPairedSuffix(days: seq<Day>, k: nat, positive: bool)
    requires k <= |days| && IsRun(Residuals(days), k, positive)
    ensures k <= |PairedOf(days)| && SameSign(LastOf(Differences(PairedOf(days)), k), positive)
    decreases k
  {
    if k > 0 {
      var last := |days| - 1;
      var d := days[last];
      assert Signed(Residuals(days)[last], positive);
      assert Residuals(days[..last]) == Residuals(days)[..last];
      RunIsPairedSuffix(days[..last], k - 1, positive);
      var before := PairedOf(days[..last]);
      assert PairedOf(days) == before + [d];
      hide SameSign, LastOf, IsRun;
      SuffixExtends(Differences(before), d.actual.value - d.predicted.value, k - 1, positive);
      assert Differences(before + [d]) == Differences(before) + [d.actual.value - d.predicted.value];
    }
  }

  lemma {:induction false} SameSignSum(xs: seq<real>, positive: bool)
    requires SameSign(xs, positive)
    ensures Sum(AbsAll(xs)) == (if positive then Sum(xs) else -Sum(xs))
    ensures xs != [] ==> (Sum(xs) != 0.0 && (Sum(xs) > 0.0) == positive)
  {
    if xs != [] {
      var last := |xs| - 1;
      SameSignSum(xs[..last], positive);
      assert AbsAll(xs)[..last] == AbsAll(xs[..last]);
    }
  }

  lemma BiasOfSameSign(residuals: seq<real>, window: nat, positive: bool)
    requires 0 < window <= |residuals| && SameSign(LastOf(residuals, window), positive)
    ensures Bias(residuals, window).value
         == (if positive then Mae(residuals, window).value else -Mae(residuals, window).value)
  {
    hide Quantize, Sum, LastOf;
    var xs := LastOf(residuals, window);
    SameSignSum(xs, positive);
    var n := |xs| as real;
    FromStepsLinear(Sum(xs), 0.0, n);
    QuantizeOdd(Mean(xs), QUANTITY_SCALE);
  }

  lemma ShorterSuffix(xs: seq<real>, window: nat, k: nat, positive: bool)
    requires window <= k <= |xs| && SameSign(LastOf(xs, k), positive)
    ensures SameSign(LastOf(xs, window), positive)
  {
    var a, b := LastOf(xs, window), LastOf(xs, k);
    assert forall i :: 0 <= i < window ==> a[i] == b[k - window + i];
  }

  /** Over a window inside the streak the bias carries the whole error: it equals the mean
      absolute error, with the sign of the streak. */
  lemma StreakFixesBias(days: seq<Day>, k: nat, positive: bool, window: nat)
    requires 0 < window <= k <= |days| && IsRun(Residuals(days), k, positive)
    ensures var residuals := Differences(PairedOf(days));
            Mae(residuals, window).Some? && Bias(residuals, window).Some?
            && Bias(residuals, window).value
               == (if positive then Mae(residuals, window).value else -Mae(residuals, window).value)
  {
    hide Quantize, Mean, PairedOf, LastOf, SameSign, IsRun, AbsAll;
    RunIsPairedSuffix(days, k, positive);
    ShorterSuffix(Differences(PairedOf(days)), window, k, positive);
    BiasOfSameSign(Differences(PairedOf(days)), window, positive);
  }

  /** After a streak of at least five days the two error tests of the verdict are one test: the
      exposure counts as changed exactly when the mean absolute error reaches the smaller of the
      two thresholds, or the cumulative residual and the correlation both say so. */
  lemma StreakVerdict(days: seq<Day>, rules: Rules, ratio: PearsonSums -> real, streak: nat)
    requires LongestRun(Residuals(days), streak) && streak >= 5 && streak >= rules.likelyStreak
    requires |PairedOf(days)| >= rules.likelyMinimumObservations
    requires Enough(Evaluate(days, rules, ratio, streak).evidence, rules)
    ensures var a, mae := Evaluate(days, rules, ratio, streak), Mae(Differences(PairedOf(days)), 5);
            mae.Some?
            && (a.status == LIKELY_EXPOSURE_CHANGED <==>
                  mae.value >= MinReal(rules.likelyMae, rules.likelyBias) || LikelyCumulative(a.evidence, rules))
  {
    hide Mae, Bias, Pearson, PairedOf, RecentCoverage, Quantize, Sum, IsRun;
    var positive :| IsRun(Residuals(days), streak, positive);
    StreakFixesBias(days, streak, positive, 5);
    MaeNonNegative(Differences(PairedOf(days)), 5);
  }

  lemma MaeNonNegative(residuals: seq<real>, window: nat)
    requires window > 0
    ensures Mae(residuals, window).Some? ==> Mae(residuals, window).value >= 0.0
  {
    BiasWithinMae(residuals, window);
  }
}
