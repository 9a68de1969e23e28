/** What an assessment says, in terms of the days alone. */
module ConsistencyMeaning {
  import opened Sums
  import opened Decimals
  import opened DayOrder
  import opened Consistency

  /** `reported` has eight digits and is the mean of the values up to half a step. */
  ghost predicate IsMean(reported: real, values: seq<real>)
    requires values != []
  {
    && OnGrid(reported, QUANTITY_SCALE)
    && Abs(reported * |values| as real - Sum(values)) <= 0.000000005 * |values| as real
  }

  lemma MeanIs(values: seq<real>)
    requires values != []
    ensures IsMean(Quantize(Mean(values), QUANTITY_SCALE), values)
  {
    hide Quantize, OnGrid, Sum;
    var n := |values| as real;
    QuantizeError(Mean(values), QUANTITY_SCALE);
    QuantizeOnGrid(Mean(values), QUANTITY_SCALE);
    assert FromSteps(0.5, QUANTITY_SCALE) == 0.000000005;
    assert Mean(values) * n == Sum(values);
    Scaled(Quantize(Mean(values), QUANTITY_SCALE), Mean(values), n);
  }

  lemma Scaled(a: real, b: real, n: real)
    requires n > 0.0 && Abs(a - b) <= 0.000000005
    ensures Abs(a * n - b * n) <= 0.000000005 * n
  {
    var low, high := 0.000000005 + (a - b), 0.000000005 - (a - b);
    assert low * n >= 0.0;
    assert high * n >= 0.0;
  }

  // ---------- the paired days ----------

  /** The days with both returns, each once and in order. */
  ghost predicate PairedAt(days: seq<Day>, at: seq<int>)
  {
    && (forall k :: 0 <= k < |at| ==>
          0 <= at[k] < |days| && days[at[k]].actual.Some? && days[at[k]].predicted.Some?)
    && (forall j, k :: 0 <= j < k < |at| ==> at[j] < at[k])
    && (forall i :: 0 <= i < |days| && days[i].actual.Some? && days[i].predicted.Some? ==> i in at)
  }

  lemma {:induction false} PairedAre(days: seq<Day>) returns (at: seq<int>)
    ensures PairedAt(days, at) && TakenAt(PairedOf(days), days, at)
  {
    if days == [] {
      at := [];
    } else {
      hide PairedAt, TakenAt;
      var n := |days| - 1;
      at := PairedAre(days[..n]);
      if days[n].actual.Some? && days[n].predicted.Some? {
        OneMorePaired(days, PairedOf(days[..n]), at);
        at := at + [n];
      } else {
        OneUnpaired(days, PairedOf(days[..n]), at);
        assert PairedOf(days) == PairedOf(days[..n]) by { assert PairedOf(days[..n]) + [] == PairedOf(days[..n]); }
      }
    }
  }

  ghost predicate TakenAt(taken: seq<Day>, days: seq<Day>, at: seq<int>)
  {
    |taken| == |at| && forall k :: 0 <= k < |at| ==> 0 <= at[k] < |days| && taken[k] == days[at[k]]
  }

  lemma OneMorePaired(days: seq<Day>, taken: seq<Day>, at: seq<int>)
    requires days != [] && PairedAt(days[..|days| - 1], at) && TakenAt(taken, days[..|days| - 1], at)
    requires days[|days| - 1].actual.Some? && days[|days| - 1].predicted.Some?
    ensures PairedAt(days, at + [|days| - 1]) && TakenAt(taken + [days[|days| - 1]], days, at + [|days| - 1])
  {
    var n, front := |days| - 1, days[..|days| - 1];
    assert forall i :: 0 <= i < n ==> days[i] == front[i];
    forall i | 0 <= i < |days| && days[i].actual.Some? && days[i].predicted.Some? ensures i in at + [n] {
      if i < n { assert front[i].actual.Some? && front[i].predicted.Some?; }
    }
  }

  lemma OneUnpaired(days: seq<Day>, taken: seq<Day>, at: seq<int>)
    requires days != [] && PairedAt(days[..|days| - 1], at) && TakenAt(taken, days[..|days| - 1], at)
    requires days[|days| - 1].actual.None? || days[|days| - 1].predicted.None?
    ensures PairedAt(days, at) && TakenAt(taken, days, at)
  {
    var n, front := |days| - 1, days[..|days| - 1];
    assert forall i :: 0 <= i < n ==> days[i] == front[i];
    forall i | 0 <= i < |days| && days[i].actual.Some? && days[i].predicted.Some? ensures i in at {
      assert front[i].actual.Some? && front[i].predicted.Some?;
    }
  }

  /** Actual less predicted return of the paired days. */
  ghost function Gaps(days: seq<Day>, at: seq<int>): (r: seq<real>)
    requires PairedAt(days, at)
    ensures |r| == |at|
  {
    seq(|at|, k requires 0 <= k < |at| => days[at[k]].actual.value - days[at[k]].predicted.value)
  }

  function Sizes(xs: seq<real>): (r: seq<real>)
    ensures |r| == |xs|
  {
    seq(|xs|, i requires 0 <= i < |xs| => if xs[i] >= 0.0 then xs[i] else -xs[i])
  }

  /** A window of the last gaps: their mean, and the mean of their sizes, exist from as many paired
      days on as the window is long. */
  ghost predicate Windowed(mean: Option<real>, gaps: seq<real>, window: nat, sizes: bool)
    requires window > 0
  {
    && (mean.Some? <==> |gaps| >= window)
    && (mean.Some? ==> IsMean(mean.value, if sizes then Sizes(gaps[|gaps| - window..]) else gaps[|gaps| - window..]))
  }

  lemma WindowsAre(gaps: seq<real>, window: nat)
    requires window > 0
    ensures Windowed(Mae(gaps, window), gaps, window, true) && Windowed(Bias(gaps, window), gaps, window, false)
  {
    if |gaps| >= window {
      var last := gaps[|gaps| - window..];
      assert AbsAll(last) == Sizes(last);
      hide Quantize, Mean, IsMean, Sizes, AbsAll;
      MeanIs(last);
      MeanIs(Sizes(last));
    }
  }

  /** The evidence of days in date order: how many are paired; mean size and mean of the last five
      gaps, and of ten and twenty beside them; the total of all gaps; and the mean of what was
      explained on the last five days, paired or not. */
  lemma EvidenceIs(days: seq<Day>, rules: Rules, ratio: PearsonSums -> real, streak: int) returns (at: seq<int>)
    ensures PairedAt(days, at)
    ensures var a, gaps := Evaluate(days, rules, ratio, streak), Gaps(days, at);
            && a.evidence.observations == |at|
            && Windowed(a.evidence.mae, gaps, 5, true) && Windowed(a.evidence.bias, gaps, 5, false)
            && Windowed(a.maeTen, gaps, 10, true) && Windowed(a.maeTwenty, gaps, 20, true)
            && Windowed(a.biasTen, gaps, 10, false)
            && (a.evidence.cumulative.Some? <==> at != [])
            && (at != [] ==> Abs(a.evidence.cumulative.value - Sum(gaps)) <= 0.000000005)
            && CoverageIs(a.evidence.coverage, days)
            && a.evidence.streak == streak
  {
    hide Verdict, Pearson, Mae, Bias, Quantize, Sum, PairedOf, RecentCoverage, Windowed, CoverageIs, PairedAt;
    at := PairedAre(days);
    GapsAre(days, at);
    var gaps := Gaps(days, at);
    WindowsAre(gaps, 5);
    WindowsAre(gaps, 10);
    WindowsAre(gaps, 20);
    RecentIs(days);
    QuantizeError(Sum(gaps), QUANTITY_SCALE);
    assert FromSteps(0.5, QUANTITY_SCALE) == 0.000000005;
  }

  lemma GapsAre(days: seq<Day>, at: seq<int>)
    requires PairedAt(days, at) && TakenAt(PairedOf(days), days, at)
    ensures Differences(PairedOf(days)) == Gaps(days, at)
  {
    hide PairedOf;
    assert forall k :: 0 <= k < |at| ==> PairedOf(days)[k] in PairedOf(days);
  }

  ghost function Explained(days: seq<Day>): (r: seq<real>)
    ensures |r| == |days|
  {
    seq(|days|, i requires 0 <= i < |days| => days[i].explained)
  }

  ghost predicate CoverageIs(coverage: Option<real>, days: seq<Day>)
  {
    if days == [] then coverage == None
    else coverage.Some? && IsMean(coverage.value, Explained(if |days| <= 5 then days else days[|days| - 5..]))
  }

  lemma RecentIs(days: seq<Day>)
    ensures CoverageIs(RecentCoverage(days), days)
  {
    if days != [] {
      var recent := LastOf(days, if |days| < 5 then |days| else 5);
      assert recent == if |days| <= 5 then days else days[|days| - 5..];
      assert Explained(recent) == seq(|recent|, i requires 0 <= i < |recent| => recent[i].explained);
      hide Quantize, Mean, IsMean, Explained;
      MeanIs(Explained(recent));
    }
  }

  // ---------- the streak ----------

  /** On each of the last `k` days the actual return was above the predicted one, or below it. */
  ghost predicate OneSided(days: seq<Day>, k: int, above: bool)
    requires 0 <= k <= |days|
  {
    forall i :: |days| - k <= i < |days| ==>
      && days[i].actual.Some? && days[i].predicted.Some?
      && if above then days[i].actual.value > days[i].predicted.value
         else days[i].actual.value < days[i].predicted.value
  }

  lemma RunIsOneSided(days: seq<Day>, k: nat, above: bool)
    requires k <= |days|
    ensures IsRun(Residuals(days), k, above) <==> OneSided(days, k, above)
  {
    forall i | 0 <= i < |days|
      ensures Signed(Residuals(days)[i], above)
         <==> (days[i].actual.Some? && days[i].predicted.Some?
               && if above then days[i].actual.value > days[i].predicted.value
                  else days[i].actual.value < days[i].predicted.value)
    {
    }
  }

  /** The streak is the greatest number of last days that lie on one side. */
  lemma StreakIs(days: seq<Day>, count: int)
    requires LongestRun(Residuals(days), count)
    ensures 0 <= count <= |days| && (OneSided(days, count, true) || OneSided(days, count, false))
    ensures forall k, above :: count < k <= |days| ==> !OneSided(days, k, above)
  {
    hide IsRun, OneSided;
    var above :| IsRun(Residuals(days), count, above);
    RunIsOneSided(days, count, above);
    forall k, p | count < k <= |days| ensures !OneSided(days, k, p) {
      RunIsOneSided(days, k, p);
    }
  }

  // ---------- the correlation ----------

  /** The products of the deviations of two lists from `l` and `r`. */
  function Deviations(a: seq<real>, l: real, b: seq<real>, r: real): (s: seq<real>)
    requires |a| == |b|
    ensures |s| == |a|
  {
    seq(|a|, i requires 0 <= i < |a| => Times(a[i] - l, b[i] - r))
  }

  lemma MeanTimes(xs: seq<real>)
    requires xs != []
    ensures Times(Mean(xs), |xs| as real) == Sum(xs)
  {
  }

  /** Numerator and variances are taken about the two means. */
  lemma SumsAre(left: seq<real>, right: seq<real>, p: PearsonSums) returns (l: real, r: real)
    requires Pearson(left, right) == Some(p)
    ensures |left| == |right| >= 2
    ensures Times(l, |left| as real) == Sum(left) && Times(r, |left| as real) == Sum(right)
    ensures p.numerator == Sum(Deviations(left, l, right, r))
    ensures p.leftVariance == Sum(Deviations(left, l, left, l))
    ensures p.rightVariance == Sum(Deviations(right, r, right, r))
  {
    hide Sum, Mean, Times;
    l, r := Mean(left), Mean(right);
    MeanTimes(left);
    MeanTimes(right);
    var x, y := Centred(left), Centred(right);
    assert Products(x, y) == Deviations(left, l, right, r);
    assert Products(x, x) == Deviations(left, l, left, l);
    assert Products(y, y) == Deviations(right, r, right, r);
  }

  ghost predicate Varies(xs: seq<real>)
  {
    exists i, j :: 0 <= i < |xs| && 0 <= j < |xs| && xs[i] != xs[j]
  }

  lemma SquareSign(x: real)
    ensures Times(x, x) >= 0.0 && (Times(x, x) == 0.0 <==> x == 0.0)
  {
    var y := -x;
    assert Times(0.0, 0.0) == 0.0 && Times(x, x) == Times(y, y);
    if x > 0.0 { PositiveSquare(x); }
    if x < 0.0 { PositiveSquare(y); }
  }

  lemma PositiveSquare(x: real)
    requires x > 0.0
    ensures Times(x, x) > 0.0
  {
    ProductGrows(0.0, x, x);
    assert Times(0.0, x) == 0.0;
  }

  lemma {:induction false} SquaresVanish(xs: seq<real>)
    ensures Sum(Products(xs, xs)) >= 0.0
    ensures Sum(Products(xs, xs)) == 0.0 <==> forall i :: 0 <= i < |xs| ==> xs[i] == 0.0
  {
    if xs != [] {
      hide Times;
      var n := |xs| - 1;
      SquaresVanish(xs[..n]);
      assert Products(xs, xs)[..n] == Products(xs[..n], xs[..n]);
      SquareSign(xs[n]);
      assert forall i :: 0 <= i < n ==> xs[..n][i] == xs[i];
    }
  }

  lemma {:induction false} ConstantSum(xs: seq<real>, c: real)
    requires forall i :: 0 <= i < |xs| ==> xs[i] == c
    ensures Sum(xs) == c * |xs| as real
  {
    if xs != [] { ConstantSum(xs[..|xs| - 1], c); }
  }

  lemma VariesIff(xs: seq<real>)
    requires xs != []
    ensures Sum(Products(Centred(xs), Centred(xs))) == 0.0 <==> !Varies(xs)
  {
    SquaresVanish(Centred(xs));
    if !Varies(xs) {
      assert forall i :: 0 <= i < |xs| ==> xs[i] == xs[0];
      ConstantSum(xs, xs[0]);
      assert Mean(xs) == xs[0] by { assert xs[0] * |xs| as real / |xs| as real == xs[0]; }
    } else {
      var i, j :| 0 <= i < |xs| && 0 <= j < |xs| && xs[i] != xs[j];
      assert Centred(xs)[i] != Centred(xs)[j];
    }
  }

  /** There is a correlation exactly of two lists of one length, at least two, neither of them constant. */
  lemma CorrelatedIff(left: seq<real>, right: seq<real>)
    ensures Pearson(left, right).Some? <==> |left| == |right| && |left| >= 2 && Varies(left) && Varies(right)
  {
    hide Sum, Products, Centred, Varies;
    if |left| == |right| && |left| >= 2 {
      VariesIff(left);
      VariesIff(right);
    }
  }

  // ---------- the verdict ----------

  ghost predicate Reaches(x: Option<real>, bound: real)
  {
    x.Some? && x.value >= bound
  }

  ghost predicate ReachesEitherWay(x: Option<real>, bound: real)
  {
    x.Some? && (x.value >= bound || -x.value >= bound)
  }

  ghost predicate DataSuffices(e: Evidence, rules: Rules)
  {
    e.observations >= rules.minimumObservations && Reaches(e.coverage, rules.minimumCoverage)
  }

  /** A long streak with a large error or bias, or a large total with a low correlation. */
  ghost predicate LooksChanged(e: Evidence, rules: Rules)
  {
    && e.observations >= rules.likelyMinimumObservations
    && (|| (e.streak >= rules.likelyStreak
            && (Reaches(e.mae, rules.likelyMae) || ReachesEitherWay(e.bias, rules.likelyBias)))
        || (ReachesEitherWay(e.cumulative, rules.likelyCumulative)
            && e.correlation.Some? && e.correlation.value < rules.slightlyCorrelation))
  }

  ghost predicate LooksOff(e: Evidence, rules: Rules)
  {
    || Reaches(e.mae, rules.slightlyMae) || ReachesEitherWay(e.bias, rules.slightlyBias)
    || (e.correlation.Some? && e.correlation.value < rules.slightlyCorrelation)
  }

  /** Each verdict is given exactly on its own evidence. */
  lemma VerdictIff(e: Evidence, rules: Rules)
    ensures Verdict(e, rules) == INSUFFICIENT_DATA <==> !DataSuffices(e, rules)
    ensures Verdict(e, rules) == LIKELY_EXPOSURE_CHANGED <==> DataSuffices(e, rules) && LooksChanged(e, rules)
    ensures Verdict(e, rules) == SLIGHTLY_DIVERGING
       <==> DataSuffices(e, rules) && !LooksChanged(e, rules) && LooksOff(e, rules)
    ensures Verdict(e, rules) == CONSISTENT
       <==> DataSuffices(e, rules) && !LooksChanged(e, rules) && !LooksOff(e, rules)
  {
  }

  // ---------- the compounded returns ----------

  function Product(xs: seq<real>): real
  {
    if xs == [] then 1.0 else Times(Product(xs[..|xs| - 1]), xs[|xs| - 1])
  }

  /** One plus the return of a paired day, and one for any other. */
  ghost function Factors(days: seq<Day>, predicted: bool): (r: seq<real>)
    ensures |r| == |days|
  {
    seq(|days|, i requires 0 <= i < |days| =>
      if days[i].actual.Some? && days[i].predicted.Some?
      then 1.0 + (if predicted then days[i].predicted.value else days[i].actual.value) / 100.0 else 1.0)
  }

  lemma {:induction false} FactorIsProduct(days: seq<Day>, k: nat, predicted: bool)
    requires k <= |days|
    ensures Factor(days, k, predicted) == Product(Factors(days, predicted)[..k])
  {
    if k > 0 {
      FactorIsProduct(days, k - 1, predicted);
      var f := Factors(days, predicted);
      assert f[..k][..k - 1] == f[..k - 1];
    }
  }

  /** A point's cumulative return is the product of the factors up to its day less one, up to half a
      step; days without both returns have none. */
  lemma PointsAre(points: seq<CumulativePoint>, days: seq<Day>, i: nat)
    requires Cumulated(points, days) && i < |days|
    ensures points[i].day == days[i]
    ensures var both := days[i].actual.Some? && days[i].predicted.Some?;
            && (points[i].actual.Some? <==> both) && (points[i].predicted.Some? <==> both)
            && (both ==>
                  && Abs(points[i].actual.value - (Product(Factors(days, false)[..i + 1]) - 1.0) * 100.0) <= 0.000000005
                  && Abs(points[i].predicted.value - (Product(Factors(days, true)[..i + 1]) - 1.0) * 100.0)
                     <= 0.000000005)
  {
    hide Factor, Product, Factors, Quantize;
    if Paired(days[i]) {
      FactorIsProduct(days, i + 1, false);
      FactorIsProduct(days, i + 1, true);
      PctIs(Factor(days, i + 1, false));
      PctIs(Factor(days, i + 1, true));
    }
  }

  lemma PctIs(factor: real)
    ensures Abs(CumulativePct(factor) - (factor - 1.0) * 100.0) <= 0.000000005
  {
    hide Quantize;
    QuantizeError((factor - 1.0) * 100.0, QUANTITY_SCALE);
    assert FromSteps(0.5, QUANTITY_SCALE) == 0.000000005;
  }
}
