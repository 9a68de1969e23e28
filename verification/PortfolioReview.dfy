/** The review of a fund and of the portfolio (backend/app/q2_analysis/portfolio_review.py). */
module PortfolioReview {
  import opened Sums
  import opened Decimals
  import opened Calendar
  import opened DayOrder
  import opened Consistency
  import opened Predictor
  import opened PredictorProperties

  // ---------- the prediction loop of a fund ----------

  /** The residuals present so far, the history of the next prediction. */
  function History(ps: seq<Prediction>): seq<real>
  {
    if ps == [] then []
    else
      var last := ps[|ps| - 1];
      History(ps[..|ps| - 1]) + (if last.residual.Some? then [last.residual.value] else [])
  }

  /** Each day is predicted from the residuals of the days before it. */
  function Analysis(days: seq<DayInput>, n: nat): (r: Result<seq<Prediction>, PredictionError>)
    requires n <= |days|
    ensures r.Ok? ==> |r.value| == n
  {
    if n == 0 then Ok([])
    else
      var before := Analysis(days, n - 1);
      if before.Err? then before
      else
        var p := Predict(days[n - 1], History(before.value));
        if p.Err? then Err(p.error) else Ok(before.value + [p.value])
  }

  method AnalyzeDays(days: seq<DayInput>) returns (r: Result<seq<Prediction>, PredictionError>)
    ensures r == Analysis(days, |days|)
  {
    hide Predict, Analysis, History;
    AnalysisStart(days);
    var predictions: seq<Prediction> := [];
    var residuals: seq<real> := [];
    for n := 0 to |days|
      invariant Analysis(days, n) == Ok(predictions)
      invariant residuals == History(predictions)
    {
      var p := PredictDay(days[n], residuals);
      AnalysisStep(days, n, predictions);
      if p.Err? {
        ErrorStays(days, n + 1, |days|);
        return Err(p.error);
      }
      HistoryStep(predictions, p.value);
      predictions := predictions + [p.value];
      if p.value.residual.Some? {
        residuals := residuals + [p.value.residual.value];
      }
    }
    return Ok(predictions);
  }

  lemma AnalysisStart(days: seq<DayInput>)
    ensures Analysis(days, 0) == Ok([]) && History([]) == []
  {
  }

  lemma AnalysisStep(days: seq<DayInput>, n: nat, ps: seq<Prediction>)
    requires n < |days| && Analysis(days, n) == Ok(ps)
    ensures var p := Predict(days[n], History(ps));
            Analysis(days, n + 1) == if p.Err? then Err(p.error) else Ok(ps + [p.value])
  {
    hide Predict, History;
  }

  lemma HistoryStep(ps: seq<Prediction>, p: Prediction)
    ensures History(ps + [p]) == History(ps) + (if p.residual.Some? then [p.residual.value] else [])
  {
    assert (ps + [p])[..|ps|] == ps;
  }

  lemma {:induction false} ErrorStays(days: seq<DayInput>, k: nat, n: nat)
    requires k <= n <= |days| && Analysis(days, k).Err?
    ensures Analysis(days, n) == Analysis(days, k)
  {
    hide Predict, History;
    if k < n { ErrorStays(days, k, n - 1); }
  }

  lemma {:induction false} AnalysisPrefix(days: seq<DayInput>, k: nat, n: nat)
    requires k <= n <= |days| && Analysis(days, n).Ok?
    ensures Analysis(days, k).Ok? && Analysis(days, n).value[..k] == Analysis(days, k).value
  {
    hide Predict, History;
    if k < n {
      AnalysisPrefix(days, k, n - 1);
      assert Analysis(days, n).value[..n - 1] == Analysis(days, n - 1).value;
    }
  }

  lemma {:induction false} AnalysisAgrees(a: seq<DayInput>, b: seq<DayInput>, k: nat)
    requires k <= |a| && k <= |b| && a[..k] == b[..k]
    ensures Analysis(a, k) == Analysis(b, k)
  {
    hide Predict, History;
    if k > 0 {
      assert a[..k][k - 1] == a[k - 1] && b[..k][k - 1] == b[k - 1];
      assert a[..k - 1] == a[..k][..k - 1] && b[..k - 1] == b[..k][..k - 1];
      AnalysisAgrees(a, b, k - 1);
    }
  }

  ghost predicate IsFirstRejected(days: seq<DayInput>, i: nat)
    requires i < |days|
  {
    Rejection(days[i]).Some? && forall j :: 0 <= j < i ==> Rejection(days[j]).None?
  }

  lemma RejectedFails(d: DayInput, prior: seq<real>)
    ensures Predict(d, prior).Err? <==> Rejection(d).Some?
    ensures Rejection(d).Some? ==> Predict(d, prior) == Err(Rejection(d).value)
  {
    hide Rejection, Predicted, DayHalfWidth, CoverageOf, SumOptional, Q;
  }

  lemma {:induction false} AcceptedSucceeds(days: seq<DayInput>, n: nat)
    requires n <= |days| && forall i :: 0 <= i < n ==> Rejection(days[i]).None?
    ensures Analysis(days, n).Ok?
  {
    hide Rejection, Predict, History;
    if n > 0 {
      AcceptedSucceeds(days, n - 1);
      RejectedFails(days[n - 1], History(Analysis(days, n - 1).value));
    }
  }

  lemma {:induction false} FirstRejected(days: seq<DayInput>, n: nat) returns (i: nat)
    requires n <= |days| && exists j :: 0 <= j < n && Rejection(days[j]).Some?
    ensures i < n && IsFirstRejected(days, i)
  {
    hide Rejection;
    if exists j :: 0 <= j < n - 1 && Rejection(days[j]).Some? {
      i := FirstRejected(days, n - 1);
    } else {
      i := n - 1;
    }
  }

  lemma FirstRejectionReported(days: seq<DayInput>, i: nat)
    requires i < |days| && IsFirstRejected(days, i)
    ensures Analysis(days, |days|) == Err(Rejection(days[i]).value)
  {
    hide Rejection, Predict, History, Analysis;
    AcceptedSucceeds(days, i);
    var before := Analysis(days, i).value;
    AnalysisStep(days, i, before);
    RejectedFails(days[i], History(before));
    ErrorStays(days, i + 1, |days|);
  }

  /** The review fails exactly when some day's weights are rejected, with the first such error:
      whether it fails never depends on the residuals. */
  lemma FailsIffRejected(days: seq<DayInput>)
    ensures Analysis(days, |days|).Err? <==> exists i :: 0 <= i < |days| && Rejection(days[i]).Some?
    ensures forall i :: 0 <= i < |days| && IsFirstRejected(days, i)
              ==> Analysis(days, |days|) == Err(Rejection(days[i]).value)
  {
    hide Rejection, Analysis;
    forall i | 0 <= i < |days| && IsFirstRejected(days, i)
      ensures Analysis(days, |days|) == Err(Rejection(days[i]).value)
    {
      FirstRejectionReported(days, i);
    }
    if exists i :: 0 <= i < |days| && Rejection(days[i]).Some? {
      var first := FirstRejected(days, |days|);
    } else {
      AcceptedSucceeds(days, |days|);
    }
  }

  /** No look-ahead. Two histories that share the first `k` days, and on the next day differ in
      no more than its actual return, get the same prediction, bounds and coverage for that day,
      whatever the later days hold. */
  lemma NoLookAhead(a: seq<DayInput>, b: seq<DayInput>, k: nat)
    requires k < |a| && k < |b| && a[..k] == b[..k] && b[k] == a[k].(actual := b[k].actual)
    requires Analysis(a, |a|).Ok? && Analysis(b, |b|).Ok?
    ensures var p, q := Analysis(a, |a|).value[k], Analysis(b, |b|).value[k];
            q == p.(actual := q.actual, residual := q.residual)
    ensures Analysis(a, |a|).value[..k] == Analysis(b, |b|).value[..k]
  {
    AnalysisAgrees(a, b, k);
    DayFromPast(a, k);
    DayFromPast(b, k);
    ActualIsNotUsed(a[k], b[k].actual, History(Analysis(a, k).value));
  }

  lemma DayFromPast(days: seq<DayInput>, k: nat)
    requires k < |days| && Analysis(days, |days|).Ok?
    ensures Analysis(days, k).Ok? && Analysis(days, |days|).value[..k] == Analysis(days, k).value
    ensures Predict(days[k], History(Analysis(days, k).value)) == Ok(Analysis(days, |days|).value[k])
  {
    hide Predict;
    AnalysisPrefix(days, k, |days|);
    AnalysisPrefix(days, k + 1, |days|);
    assert Analysis(days, |days|).value[..k + 1][k] == Analysis(days, |days|).value[k];
  }

  // ---------- residuals of the review and of the consistency check ----------

  function AsDay(p: Prediction): Day
  {
    Day(p.navDate, p.actual, p.predicted, p.coverage.explained)
  }

  predicate ResidualAgrees(p: Prediction)
  {
    Paired(AsDay(p)) && p.residual.Some? && p.actual.value - p.predicted.value == p.residual.value
  }

  /** The consistency check subtracts the stored returns again. Its residual is the stored one
      exactly when the actual return lies on no half step of the grid, or actual return and
      residual lie on one side of zero; otherwise it is one step off. */
  lemma ResidualsAgreeIff(d: DayInput, prior: seq<real>)
    requires Predict(d, prior).Ok? && d.actual.Some? && Predicted(d).Some?
    ensures var p, actual, predicted := Predict(d, prior).value, d.actual.value, Predicted(d).value;
            && Paired(AsDay(p)) && p.residual.Some?
            && (ResidualAgrees(p)
                <==> (!OnHalfStep(actual, QUANTITY_SCALE) || (actual >= 0.0 <==> actual - predicted >= 0.0)))
            && Abs((p.actual.value - p.predicted.value) - p.residual.value) <= 2.0 * HALF_STEP
  {
    hide Quantize, OnHalfStep, OnGrid, Rejection, Predicted, DayHalfWidth, CoverageOf, SumOptional;
    var actual, predicted := d.actual.value, Predicted(d).value;
    QError(actual);
    QError(actual - predicted);
    PredictedOnGrid(d);
    QuantizeShiftIff(actual, predicted, QUANTITY_SCALE);
  }

  /** Actual returns read back from their columns of eight decimals always agree. */
  lemma StoredReturnsAgree(d: DayInput, prior: seq<real>)
    requires Predict(d, prior).Ok? && d.actual.Some? && Predicted(d).Some?
    requires OnGrid(d.actual.value, QUANTITY_SCALE)
    ensures var p := Predict(d, prior).value;
            ResidualAgrees(p) && p.actual == d.actual
  {
    hide Quantize, OnHalfStep, OnGrid, Rejection, Predicted, DayHalfWidth, CoverageOf, SumOptional;
    ResidualsAgreeIff(d, prior);
    GridIsNoHalfStep(d.actual.value, QUANTITY_SCALE);
    QError(d.actual.value);
  }

  /** A day on which one priced security is all there is. */
  ghost predicate OnlyHolds(d: DayInput, weight: real, ret: real)
  {
    && d.holdings == [SecurityInput(weight, true, Some(ret))] && d.equity == weight
    && d.funds == [] && d.cash == 0.0 && d.proxies.None?
  }

  lemma OneTerm(terms: seq<Term>, weight: real, ret: real)
    requires terms == [Term(weight, Some(ret))]
    ensures Sum(AllWeights(terms)) == Sum(Priced(terms)) == weight
    ensures Sum(Rounded(terms)) == Q(Contribution(terms[0]))
  {
    hide Q, Contribution;
    SumPrefix(AllWeights(terms), 0);
    SumAll(AllWeights(terms));
    SumPrefix(Priced(terms), 0);
    SumAll(Priced(terms));
    SumPrefix(Rounded(terms), 0);
    SumAll(Rounded(terms));
  }

  lemma NoTerm(terms: seq<Term>)
    requires terms == []
    ensures Sum(AllWeights(terms)) == Sum(Priced(terms)) == Sum(Rounded(terms)) == 0.0
  {
  }

  lemma OnlyHoldsTerms(d: DayInput, weight: real, ret: real)
    requires OnlyHolds(d, weight, ret)
    ensures SecurityTerms(d.holdings) == [Term(weight, Some(ret))]
    ensures FundTerms(d.funds) == [] && DayProxies(d) == []
  {
  }

  lemma OnlyHoldsAccepted(d: DayInput, weight: real, ret: real)
    requires OnlyHolds(d, weight, ret) && 0.0 < weight <= LIMIT
    ensures Rejection(d).None? && Modelled(d) == weight
  {
    hide Sum, Priced, AllWeights, SecurityTerms, FundTerms, DayProxies;
    OnlyHoldsTerms(d, weight, ret);
    OneTerm(SecurityTerms(d.holdings), weight, ret);
    NoTerm(FundTerms(d.funds));
  }

  lemma OnlyHoldsPredicted(d: DayInput, weight: real, ret: real)
    requires OnlyHolds(d, weight, ret) && 0.0 < weight <= LIMIT
    ensures Predicted(d) == Some(Q(Contribution(Term(weight, Some(ret)))))
  {
    OnlyHoldsTerms(d, weight, ret);
    OnlyHoldsAccepted(d, weight, ret);
    hide Sum, Rounded, SecurityTerms, FundTerms, DayProxies, Modelled, Q, Contribution, SumOptional, OnlyHolds;
    PredictionBound(d);
    OneTerm(SecurityTerms(d.holdings), weight, ret);
    NoTerm(FundTerms(d.funds));
  }

  /** After one residual of ten points, a day fully priced keeps two and a quarter points only. */
  lemma ShortHistoryNotCovered(d: DayInput)
    requires OnlyHolds(d, 100.0, 0.0)
    ensures RecentError([10.0]) == 10.0 && Predict(d, [10.0]).Ok?
    ensures var r := Predict(d, [10.0]).value;
            r.predicted == Some(0.0) && r.lower == Some(-2.25) && r.upper == Some(2.25)
  {
    hide Predicted, Rejection, DayHalfWidth, Q, RecentError, OnlyHolds, Contribution, Predict, Modelled;
    OnlyHoldsAccepted(d, 100.0, 0.0);
    OnlyHoldsPredicted(d, 100.0, 0.0);
    OnlyHoldsWidth(d, 100.0, 0.0, [10.0]);
    ShortMargins();
    OneResidual();
    BoundsOf(d, [10.0], 0.0, 2.25);
  }

  lemma BoundsOf(d: DayInput, prior: seq<real>, p: real, h: real)
    requires Rejection(d).None? && Predicted(d) == Some(p) && DayHalfWidth(d, prior) == h
    ensures Predict(d, prior).Ok?
    ensures var r := Predict(d, prior).value;
            r.predicted == Some(p) && r.lower == Some(Q(p - h)) && r.upper == Some(Q(p + h))
  {
    hide Predicted, Rejection, DayHalfWidth, Q, CoverageOf, RoundedOption, SumOptional, ConfidenceOf;
  }

  lemma OneResidual()
    ensures RecentError([10.0]) == 10.0
  {
    var xs := AbsAll([10.0]);
    SumPrefix(xs, 0);
    SumAll(xs);
  }

  lemma ShortMargins()
    ensures Contribution(Term(100.0, Some(0.0))) == 0.0
    ensures Q(0.0) == 0.0 && Q(-2.25) == -2.25 && Q(2.25) == 2.25
  {
    assert Steps(0.0, QUANTITY_SCALE) == 0.0 && Steps(2.25, QUANTITY_SCALE) == 225000000.0;
    assert Steps(-2.25, QUANTITY_SCALE) == -225000000.0;
  }

  lemma OnlyHoldsWidth(d: DayInput, weight: real, ret: real, prior: seq<real>)
    requires OnlyHolds(d, weight, ret) && 0.0 < weight <= LIMIT && |prior| < 3
    ensures DayHalfWidth(d, prior) == 2.25
  {
    OnlyHoldsTerms(d, weight, ret);
    OnlyHoldsAccepted(d, weight, ret);
    ShortHistory(prior);
    hide BaseError, Rejection, Sum, Priced, AllWeights, ProxyTerms, LastTen;
    HalfWidthIs(d, prior);
    OneTerm(SecurityTerms(d.holdings), weight, ret);
    NoTerm(FundTerms(d.funds));
    NoProxies(Undisclosed(d));
  }

  /** An actual return of half a step against a prediction of one step. No stored return has
      that many digits. */
  lemma ResidualsDiffer(d: DayInput)
    requires OnlyHolds(d, 1.0, 0.000001) && d.actual == Some(0.000000005)
    ensures Predict(d, []).Ok? && Predicted(d) == Some(0.00000001) && !ResidualAgrees(Predict(d, []).value)
  {
    OnlyHoldsAccepted(d, 1.0, 0.000001);
    OnlyHoldsPredicted(d, 1.0, 0.000001);
    OneStep();
    assert Predict(d, []).Ok? by { RejectedFails(d, []); }
    hide Predict, Predicted, OnlyHolds, Q, Contribution, OnHalfStep, ResidualAgrees;
    ResidualsAgreeIff(d, []);
  }

  lemma OneStep()
    ensures Q(Contribution(Term(1.0, Some(0.000001)))) == 0.00000001
    ensures OnHalfStep(0.000000005, QUANTITY_SCALE)
  {
    assert Steps(0.00000001, QUANTITY_SCALE) == 1.0 && Steps(0.000000005, QUANTITY_SCALE) == 0.5;
    assert (1.0 + 0.5).Floor == 1 && (0.5 + 0.5).Floor == 1;
  }

  // ---------- the weighted prediction of the portfolio ----------

  datatype Range = Range(predicted: real, lower: real, upper: real)

  /** A fund result: its share and the latest prediction, if that has a value and both bounds. */
  datatype FundResult = FundResult(share: int, latest: Option<Range>)

  datatype PortfolioPrediction = PortfolioPrediction(range: Option<Range>, analyzed: Option<real>)

  function WeightOf(weights: map<int, real>, r: FundResult): real
  {
    if r.share in weights then weights[r.share] else 0.0
  }

  ghost predicate Usable(weights: map<int, real>, r: FundResult)
  {
    WeightOf(weights, r) != 0.0 && r.latest.Some?
  }

  ghost function Available(results: seq<FundResult>, weights: map<int, real>): (s: seq<real>)
    ensures |s| == |results|
  {
    seq(|results|, i requires 0 <= i < |results| =>
      if Usable(weights, results[i]) then WeightOf(weights, results[i]) else 0.0)
  }

  function Part(r: Range, part: int): real
  {
    if part == 0 then r.predicted else if part < 0 then r.lower else r.upper
  }

  /** The weighted values of one part of the ranges: the prediction (0) or a bound (-1, 1). */
  ghost function Weighted(results: seq<FundResult>, weights: map<int, real>, part: int): (s: seq<real>)
    ensures |s| == |results|
  {
    seq(|results|, i requires 0 <= i < |results| =>
      if Usable(weights, results[i])
      then Times(WeightOf(weights, results[i]), Part(results[i].latest.value, part))
      else 0.0)
  }

  ghost predicate AllUsable(results: seq<FundResult>, weights: map<int, real>)
  {
    forall r :: r in results ==> WeightOf(weights, r) == 0.0 || r.latest.Some?
  }

  ghost predicate FullyWeighted(results: seq<FundResult>, weights: map<int, real>)
  {
    Abs(Sum(Available(results, weights)) - 1.0) <= 2.0 * HALF_STEP
  }

  method PredictPortfolio(results: seq<FundResult>, weights: map<int, real>, valuationComplete: bool)
      returns (r: PortfolioPrediction)
    ensures r.analyzed == if valuationComplete then Some(Q(Sum(Available(results, weights)) * 100.0)) else None
    ensures r.range.Some? <==> valuationComplete && AllUsable(results, weights) && FullyWeighted(results, weights)
    ensures r.range.Some? ==>
      r.range.value == Range(Q(Sum(Weighted(results, weights, 0))), Q(Sum(Weighted(results, weights, -1))),
                             Q(Sum(Weighted(results, weights, 1))))
  {
    hide Times, Q, Sum;
    var available, predicted, lower, upper := 0.0, 0.0, 0.0, 0.0;
    var complete := true;
    NothingSummed(results, weights);
    for i := 0 to |results|
      invariant available == Sum(Available(results, weights)[..i])
      invariant predicted == Sum(Weighted(results, weights, 0)[..i])
      invariant lower == Sum(Weighted(results, weights, -1)[..i]) && upper == Sum(Weighted(results, weights, 1)[..i])
      invariant complete <==> forall j :: 0 <= j < i ==> WeightOf(weights, results[j]) == 0.0 || results[j].latest.Some?
    {
      OneMore(results, weights, i);
      var weight := WeightOf(weights, results[i]);
      if weight == 0.0 {
        continue;
      }
      if results[i].latest.None? {
        complete := false;
        continue;
      }
      var latest := results[i].latest.value;
      available := available + weight;
      predicted := predicted + Times(weight, latest.predicted);
      lower := lower + Times(weight, latest.lower);
      upper := upper + Times(weight, latest.upper);
    }
    AllSummed(results, weights);
    var analyzed := if valuationComplete then Some(Q(available * 100.0)) else None;
    if !valuationComplete || !complete || Abs(available - 1.0) > 0.00000001 {
      return PortfolioPrediction(None, analyzed);
    }
    return PortfolioPrediction(Some(Range(Q(predicted), Q(lower), Q(upper))), analyzed);
  }

  lemma NothingSummed(results: seq<FundResult>, weights: map<int, real>)
    ensures Sum(Available(results, weights)[..0]) == 0.0
    ensures forall part :: Sum(Weighted(results, weights, part)[..0]) == 0.0
  {
  }

  lemma OneMore(results: seq<FundResult>, weights: map<int, real>, i: nat)
    requires i < |results|
    ensures Sum(Available(results, weights)[..i + 1])
            == Sum(Available(results, weights)[..i]) + Available(results, weights)[i]
    ensures forall part :: Sum(Weighted(results, weights, part)[..i + 1])
                        == Sum(Weighted(results, weights, part)[..i]) + Weighted(results, weights, part)[i]
  {
    hide Sum, Times;
    SumPrefix(Available(results, weights), i);
    forall part { SumPrefix(Weighted(results, weights, part), i); }
  }

  lemma AllSummed(results: seq<FundResult>, weights: map<int, real>)
    ensures Available(results, weights)[..|results|] == Available(results, weights)
    ensures forall part :: Weighted(results, weights, part)[..|results|] == Weighted(results, weights, part)
  {
  }

  // ---------- the order of the bounds survives aggregation ----------

  /** What every fund's own interval guarantees. */
  ghost predicate Ordered(r: Range)
  {
    r.lower <= r.predicted - 0.5 && r.predicted + 0.5 <= r.upper
  }

  ghost predicate Sound(results: seq<FundResult>, weights: map<int, real>)
  {
    && (forall r :: r in results ==> WeightOf(weights, r) >= 0.0)
    && forall r :: r in results && r.latest.Some? ==> Ordered(r.latest.value)
  }

  lemma WeightedGap(w: real, x: real, y: real, gap: real)
    requires w >= 0.0 && x + gap <= y
    ensures Times(w, x) + w * gap <= Times(w, y)
  {
    assert w * (y - x - gap) >= 0.0;
  }

  lemma {:induction false} SumGap(x: seq<real>, a: seq<real>, y: seq<real>)
    requires |x| == |a| == |y| && forall i :: 0 <= i < |x| ==> x[i] + 0.5 * a[i] <= y[i]
    ensures Sum(x) + 0.5 * Sum(a) <= Sum(y)
  {
    if x != [] {
      var n := |x| - 1;
      SumGap(x[..n], a[..n], y[..n]);
    }
  }

  lemma WeightedOrder(results: seq<FundResult>, weights: map<int, real>, low: int, high: int)
    requires Sound(results, weights)
    requires forall r :: Ordered(r) ==> Part(r, low) + 0.5 <= Part(r, high)
    ensures Sum(Weighted(results, weights, low)) + 0.5 * Sum(Available(results, weights))
         <= Sum(Weighted(results, weights, high))
  {
    hide Times, Part, Sum, Ordered;
    var x, a, y := Weighted(results, weights, low), Available(results, weights), Weighted(results, weights, high);
    forall i | 0 <= i < |results| ensures x[i] + 0.5 * a[i] <= y[i] {
      var r := results[i];
      assert r in results;
      if Usable(weights, r) {
        WeightedGap(WeightOf(weights, r), Part(r.latest.value, low), Part(r.latest.value, high), 0.5);
      }
    }
    SumGap(x, a, y);
  }

  /** A whole number of steps from minus one and a half steps on is one from minus one on. */
  lemma GapOnGrid(x: real)
    requires OnGrid(x, QUANTITY_SCALE) && x >= -3.0 * HALF_STEP
    ensures x >= -2.0 * HALF_STEP
  {
    var n := GridSteps(x, QUANTITY_SCALE);
    assert Steps(x, QUANTITY_SCALE) == x * 100000000.0;
    assert n > -2;
  }

  lemma HalfPointApart(low: real, high: real)
    requires low + 0.5 <= high + HALF_STEP
    ensures Q(low) <= Q(high) - 0.5 + 2.0 * HALF_STEP
  {
    hide Q, OnGrid;
    QError(low);
    QError(high);
    MarginsOnGrid();
    GridClosed(Q(high), 0.5, QUANTITY_SCALE);
    GridClosed(Q(high) - 0.5, Q(low), QUANTITY_SCALE);
    GapOnGrid(Q(high) - 0.5 - Q(low));
  }

  /** Where the unrounded values are half a point apart, so are the rounded ones. */
  lemma HalfPointKept(low: real, high: real)
    requires low + 0.5 <= high
    ensures Q(low) <= Q(high) - 0.5
  {
    hide Quantize, OnGrid;
    MarginsOnGrid();
    QMonotone(low, high - 0.5);
    QuantizeShiftOrder(high, 0.5, QUANTITY_SCALE);
  }

  /** The portfolio bounds keep half a point on both sides of its prediction when the weights
      total at least one, and up to one step of the grid when they total one only up to a step. */
  lemma BoundsSurvive(results: seq<FundResult>, weights: map<int, real>, range: Range)
    requires Sound(results, weights) && FullyWeighted(results, weights)
    requires range == Range(Q(Sum(Weighted(results, weights, 0))), Q(Sum(Weighted(results, weights, -1))),
                            Q(Sum(Weighted(results, weights, 1))))
    ensures range.lower <= range.predicted - 0.5 + 2.0 * HALF_STEP
    ensures range.predicted + 0.5 - 2.0 * HALF_STEP <= range.upper
    ensures Sum(Available(results, weights)) >= 1.0 ==> Ordered(range)
  {
    hide Q, Sum, Weighted, Available, Sound;
    WeightedOrder(results, weights, -1, 0);
    WeightedOrder(results, weights, 0, 1);
    HalfPointApart(Sum(Weighted(results, weights, -1)), Sum(Weighted(results, weights, 0)));
    HalfPointApart(Sum(Weighted(results, weights, 0)), Sum(Weighted(results, weights, 1)));
    if Sum(Available(results, weights)) >= 1.0 {
      HalfPointKept(Sum(Weighted(results, weights, -1)), Sum(Weighted(results, weights, 0)));
      HalfPointKept(Sum(Weighted(results, weights, 0)), Sum(Weighted(results, weights, 1)));
    }
  }

  /** A whole number of which the part e lies just above one half. */
  lemma JustAboveHalf(e: real) returns (n: int)
    requires 0.0 < e <= 0.00000001
    ensures 0.5 < Times(n as real, e) <= 0.5 + e && n > 50000000
  {
    var x := 0.5 / e;
    n := x.Floor + 1;
    assert x < n as real <= x + 1.0;
    assert Times(x, e) == 0.5;
    TimesGrows(x, n as real, e);
    assert Times(x + 1.0, e) == 0.5 + e;
    if n as real < x + 1.0 { TimesGrows(n as real, x + 1.0, e); }
    if x < 50000000.0 { TimesGrows(x, 50000000.0, e); }
  }

  lemma TimesGrows(x: real, y: real, e: real)
    requires x < y && e > 0.0
    ensures Times(x, e) < Times(y, e)
  {
    assert (y - x) * e > 0.0;
  }

  /** A percentage of n steps. */
  function InSteps(n: int): real
  {
    n as real / QUANTITY_SCALE
  }

  lemma InStepsIs(n: int)
    ensures OnGrid(InSteps(n), QUANTITY_SCALE)
    ensures InSteps(n + 50000000) == InSteps(n) + 0.5 && InSteps(n - 50000000) == InSteps(n) - 0.5
  {
    assert Steps(InSteps(n), QUANTITY_SCALE) == n as real;
    FloorOfInteger(n);
  }

  lemma RoundedPart(n: int, w: real, m: int)
    requires n >= 0 && m >= 1 && m as real - 0.5 <= n as real - Times(n as real, 1.0 - w) < m as real + 0.5
    ensures Q(Times(w, InSteps(n))) == InSteps(m)
  {
    var x := n as real - Times(n as real, 1.0 - w);
    assert Times(n as real, 1.0 - w) == n as real - n as real * w;
    assert x == n as real * w;
    assert Steps(Times(w, InSteps(n)), QUANTITY_SCALE) == x by {
      assert w * (n as real / QUANTITY_SCALE) * QUANTITY_SCALE == n as real * w;
    }
    assert (x + 0.5).Floor == m;
  }

  lemma OneResult(share: int, w: real, r: Range)
    requires w > 0.0
    ensures var results, weights := [FundResult(share, Some(r))], map[share := w];
            && Sum(Available(results, weights)) == w
            && forall part :: Sum(Weighted(results, weights, part)) == Times(w, Part(r, part))
  {
    hide Times;
    var results, weights := [FundResult(share, Some(r))], map[share := w];
    forall part ensures Sum(Weighted(results, weights, part)) == Times(w, Part(r, part)) {
      SumPrefix(Weighted(results, weights, part), 0);
      SumAll(Weighted(results, weights, part));
    }
    SumPrefix(Available(results, weights), 0);
    SumAll(Available(results, weights));
  }

  /** The half point is not guaranteed for any smaller total: for every accepted total below one,
      one fund with that weight has a prediction of whole steps half a point from its bounds, for
      which the lower bound of the portfolio is one step less than half a point away. */
  lemma HalfPointLost(share: int, w: real) returns (r: Range)
    requires 1.0 - 2.0 * HALF_STEP <= w < 1.0
    ensures OnGrid(r.predicted, QUANTITY_SCALE) && OnGrid(r.lower, QUANTITY_SCALE) && OnGrid(r.upper, QUANTITY_SCALE)
    ensures var results, weights := [FundResult(share, Some(r))], map[share := w];
            && Sound(results, weights) && FullyWeighted(results, weights)
            && Q(Sum(Weighted(results, weights, -1)))
               == Q(Sum(Weighted(results, weights, 0))) - 0.5 + 2.0 * HALF_STEP
  {
    var e := 1.0 - w;
    var n := JustAboveHalf(e);
    var m := n - 50000000;
    r := Range(InSteps(n), InSteps(m), InSteps(n + 50000000));
    InStepsIs(n);
    InStepsIs(m);
    InStepsIs(n + 50000000);
    InStepsIs(n - 1);
    hide OnGrid, Q;
    OneResult(share, w, r);
    assert Times(m as real, e) == Times(n as real, e) - 50000000.0 * e;
    RoundedPart(n, w, n - 1);
    RoundedPart(m, w, m);
    assert InSteps(n - 1) == InSteps(n) - 2.0 * HALF_STEP;
    assert Part(r, 0) == InSteps(n) && Part(r, -1) == InSteps(m);
  }

  // ---------- from the days of the funds to the bounds of the portfolio ----------

  /** A fund under review: its share and the days analysed. */
  datatype Fund = Fund(share: int, days: seq<DayInput>)

  function RangeOf(p: Prediction): Option<Range>
  {
    if p.predicted.Some? && p.lower.Some? && p.upper.Some?
    then Some(Range(p.predicted.value, p.lower.value, p.upper.value))
    else None
  }

  /** The last prediction of the fund's review. */
  function ResultOf(f: Fund): FundResult
    requires Analysis(f.days, |f.days|).Ok?
  {
    var ps := Analysis(f.days, |f.days|).value;
    FundResult(f.share, if ps == [] then None else RangeOf(ps[|ps| - 1]))
  }

  ghost predicate Reviewed(funds: seq<Fund>)
  {
    forall f :: f in funds ==>
      Analysis(f.days, |f.days|).Ok? && forall d :: d in f.days ==> ProxiesPositive(d)
  }

  function ResultsOf(funds: seq<Fund>): (r: seq<FundResult>)
    requires forall f :: f in funds ==> Analysis(f.days, |f.days|).Ok?
    ensures |r| == |funds|
  {
    seq(|funds|, i requires 0 <= i < |funds| && funds[i] in funds => ResultOf(funds[i]))
  }

  lemma ResultOrdered(f: Fund)
    requires Analysis(f.days, |f.days|).Ok? && forall d :: d in f.days ==> ProxiesPositive(d)
    ensures ResultOf(f).latest.Some? ==> Ordered(ResultOf(f).latest.value)
  {
    hide Analysis, Predict, History, ProxiesPositive;
    if f.days != [] {
      var k := |f.days| - 1;
      assert f.days[k] in f.days;
      DayFromPast(f.days, k);
      IntervalContains(f.days[k], History(Analysis(f.days, k).value));
    }
  }

  /** End to end: whatever the days of the funds, a portfolio prediction made from their reviews
      with non-negative weights lies between its bounds, half a point from each up to a step. */
  lemma PortfolioBounds(funds: seq<Fund>, weights: map<int, real>, range: Range)
    requires Reviewed(funds) && FullyWeighted(ResultsOf(funds), weights)
    requires forall share :: share in weights ==> weights[share] >= 0.0
    requires range == Range(Q(Sum(Weighted(ResultsOf(funds), weights, 0))),
                            Q(Sum(Weighted(ResultsOf(funds), weights, -1))),
                            Q(Sum(Weighted(ResultsOf(funds), weights, 1))))
    ensures range.lower <= range.predicted - 0.5 + 2.0 * HALF_STEP
    ensures range.predicted + 0.5 - 2.0 * HALF_STEP <= range.upper
  {
    hide Analysis, ResultOf, Weighted, Available, Q, Sum, ProxiesPositive, Ordered, FullyWeighted;
    forall r | r in ResultsOf(funds)
      ensures WeightOf(weights, r) >= 0.0 && (r.latest.Some? ==> Ordered(r.latest.value))
    {
      var i :| 0 <= i < |funds| && ResultsOf(funds)[i] == r;
      assert funds[i] in funds;
      ResultOrdered(funds[i]);
    }
    BoundsSurvive(ResultsOf(funds), weights, range);
  }

  // ---------- cumulative points over common dates ----------

  ghost predicate PairedOn(series: seq<Day>, date: Date)
  {
    exists d :: d in series && d.navDate == date && Paired(d)
  }

  /** The dates up to `limit` on which every series has both returns. */
  ghost predicate Common(series: seq<seq<Day>>, limit: Date, date: Date)
  {
    series != [] && date <= limit && forall s :: s in series ==> PairedOn(s, date)
  }

  function PairedDates(series: seq<Day>, limit: Date): (r: set<Date>)
    ensures forall x :: x in r <==> x <= limit && PairedOn(series, x)
  {
    set d | d in series && d.navDate <= limit && Paired(d) :: d.navDate
  }

  function OnDates(series: seq<Day>, dates: set<Date>): (r: seq<Day>)
    ensures forall d :: d in r <==> d in series && d.navDate in dates
  {
    if series == [] then []
    else
      var last := series[|series| - 1];
      var before := OnDates(series[..|series| - 1], dates);
      assert series == series[..|series| - 1] + [last];
      if last.navDate in dates then before + [last] else before
  }

  method CommonDates(series: seq<seq<Day>>, limit: Date) returns (dates: set<Date>)
    ensures forall x :: x in dates <==> Common(series, limit, x)
  {
    if series == [] {
      return {};
    }
    dates := PairedDates(series[0], limit);
    for i := 1 to |series|
      invariant forall x :: x in dates <==> x <= limit && forall j :: 0 <= j < i ==> PairedOn(series[j], x)
    {
      hide PairedOn;
      dates := dates * PairedDates(series[i], limit);
    }
  }

  /** The points of the first `n` series, each the last of its own over the common `dates`. */
  ghost predicate LastPoints(
    points: seq<CumulativePoint>, series: seq<seq<Day>>, n: nat, dates: set<Date>, comparison: Date)
    requires n <= |series|
  {
    && |points| == n
    && forall i :: 0 <= i < n ==> LastPoint(points[i], Sorted(OnDates(series[i], dates)), dates, comparison)
  }

  method CommonCumulativePoints(series: seq<seq<Day>>, comparison: Date)
      returns (r: Option<(seq<CumulativePoint>, nat)>)
    requires forall s :: s in series ==> DatesDiffer(s)
    ensures r.Some? <==> Common(series, comparison, comparison)
    ensures r.Some? ==> exists dates: set<Date> ::
      && (forall x :: x in dates <==> Common(series, comparison, x)) && r.value.1 == |dates|
      && LastPoints(r.value.0, series, |series|, dates, comparison)
  {
    hide Common, LastPoint, Sorted, Cumulated, OnDates, DatesDiffer;
    var dates := CommonDates(series, comparison);
    if comparison !in dates {
      return None;
    }
    var points: seq<CumulativePoint> := [];
    for i := 0 to |series|
      invariant LastPoints(points, series, i, dates, comparison)
    {
      var all := CumulativePoints(OnDates(series[i], dates));
      assert series[i] in series;
      EndsAtComparison(series, i, dates, comparison, all);
      points := points + [all[|all| - 1]];
    }
    return Some((points, |dates|));
  }

  /** The point is the last of its series: on the comparison date, compounding one paired day
      for every one of `dates` and no other. */
  ghost predicate LastPoint(p: CumulativePoint, days: seq<Day>, dates: set<Date>, comparison: Date)
  {
    && DatesIncrease(days) && (set d | d in days :: d.navDate) == dates
    && days != [] && days[|days| - 1].navDate == comparison && p.day == days[|days| - 1]
    && (forall d :: d in days ==> Paired(d))
    && p.actual == Some(CumulativePct(Factor(days, |days|, false)))
    && p.predicted == Some(CumulativePct(Factor(days, |days|, true)))
  }

  lemma EndsAtComparison(
    series: seq<seq<Day>>, i: nat, dates: set<Date>, comparison: Date, points: seq<CumulativePoint>)
    requires i < |series| && DatesDiffer(series[i]) && comparison in dates
    requires forall x :: x in dates <==> Common(series, comparison, x)
    requires Cumulated(points, Sorted(OnDates(series[i], dates)))
    ensures points != []
    ensures LastPoint(points[|points| - 1], Sorted(OnDates(series[i], dates)), dates, comparison)
  {
    hide Sorted, Factor, CumulativePct, InDateOrder, OnDates, Common, DatesDiffer, DatesIncrease;
    var days := Sorted(OnDates(series[i], dates));
    SortedKeeps(OnDates(series[i], dates));
    OnDatesDiffer(series[i], dates);
    SortedIncreases(OnDates(series[i], dates));
    forall e | e in days ensures Paired(e) && e.navDate <= comparison { OnlyPaired(series, i, dates, comparison, e); }
    forall x | x in dates ensures exists d :: d in days && d.navDate == x { HasDate(series, i, comparison, x); }
    assert (set d | d in days :: d.navDate) == dates;
    EndsLatest(days, comparison);
  }

  lemma {:induction false} OnDatesDiffer(series: seq<Day>, dates: set<Date>)
    requires DatesDiffer(series)
    ensures DatesDiffer(OnDates(series, dates))
  {
    if series != [] {
      var n := |series| - 1;
      OnDatesDiffer(series[..n], dates);
      assert forall d :: d in series[..n] ==> d.navDate != series[n].navDate;
    }
  }

  lemma HasDate(series: seq<seq<Day>>, i: nat, comparison: Date, x: Date)
    requires i < |series| && Common(series, comparison, x)
    ensures exists d :: d in series[i] && d.navDate == x
  {
    assert series[i] in series && PairedOn(series[i], x);
  }

  lemma EndsLatest(days: seq<Day>, comparison: Date)
    requires InDateOrder(days) && (forall e :: e in days ==> e.navDate <= comparison)
    requires exists d :: d in days && d.navDate == comparison
    ensures days != [] && days[|days| - 1].navDate == comparison && days[|days| - 1] in days
  {
    var d :| d in days && d.navDate == comparison;
    assert days[|days| - 1] in days;
  }

  lemma OnlyPaired(series: seq<seq<Day>>, i: nat, dates: set<Date>, comparison: Date, e: Day)
    requires i < |series| && DatesDiffer(series[i]) && e in series[i] && e.navDate in dates
    requires forall x :: x in dates <==> Common(series, comparison, x)
    ensures Paired(e) && e.navDate <= comparison
  {
    assert series[i] in series && Common(series, comparison, e.navDate);
    assert PairedOn(series[i], e.navDate);
    var d :| d in series[i] && d.navDate == e.navDate && Paired(d);
    SameDate(series[i], d, e);
  }

  lemma SameDate(s: seq<Day>, d: Day, e: Day)
    requires DatesDiffer(s) && d in s && e in s && d.navDate == e.navDate
    ensures d == e
  {
    var j :| 0 <= j < |s| && s[j] == d;
    var k :| 0 <= k < |s| && s[k] == e;
  }
}
