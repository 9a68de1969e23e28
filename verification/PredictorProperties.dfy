/** What a day's prediction guarantees, for every input the predictor accepts. */
module PredictorProperties {
  import opened Sums
  import opened Decimals
  import opened Predictor

  const HALF_STEP: real := 0.000000005

  lemma QError(x: real)
    ensures Abs(Q(x) - x) <= HALF_STEP && OnGrid(Q(x), QUANTITY_SCALE)
    ensures OnGrid(x, QUANTITY_SCALE) ==> Q(x) == x
  {
    hide Quantize, OnGrid;
    QuantizeError(x, QUANTITY_SCALE);
    QuantizeOnGrid(x, QUANTITY_SCALE);
  }

  // ---------- accuracy of the predicted return ----------

  lemma {:induction false} RoundedClose(terms: seq<Term>)
    ensures Abs(Sum(Rounded(terms)) - Sum(Exact(terms))) <= HALF_STEP * PricedCount(terms) as real
  {
    if terms != [] {
      hide Contribution, Q;
      var n := |terms| - 1;
      RoundedClose(terms[..n]);
      assert Rounded(terms)[..n] == Rounded(terms[..n]) && Exact(terms)[..n] == Exact(terms[..n]);
      if terms[n].ret.Some? { QError(Contribution(terms[n])); }
    }
  }

  lemma RoundedOnGrid(terms: seq<Term>)
    ensures OnGrid(Sum(Rounded(terms)), QUANTITY_SCALE)
  {
    hide OnGrid, Contribution, Sum;
    forall i | 0 <= i < |terms| ensures OnGrid(Rounded(terms)[i], QUANTITY_SCALE) {
      if terms[i].ret.Some? { QError(Contribution(terms[i])); } else { ZeroOnGrid(QUANTITY_SCALE); }
    }
    GridSum(Rounded(terms), QUANTITY_SCALE);
  }

  /** Treating an absent total as zero is summing no priced line. */
  lemma {:induction false} AbsentIsZero(terms: seq<Term>)
    ensures OrZero(SumOptional(terms)) == Sum(Rounded(terms))
  {
    if SumOptional(terms).None? { NothingPriced(terms); }
  }

  lemma {:induction false} NothingPriced(terms: seq<Term>)
    requires forall i :: 0 <= i < |terms| ==> terms[i].ret.None?
    ensures Sum(Rounded(terms)) == 0.0 && Sum(Priced(terms)) == 0.0
  {
    if terms != [] {
      var n := |terms| - 1;
      NothingPriced(terms[..n]);
      assert Rounded(terms)[..n] == Rounded(terms[..n]) && Priced(terms)[..n] == Priced(terms[..n]);
    }
  }

  ghost function ExactReturn(d: DayInput): real
  {
    Sum(Exact(SecurityTerms(d.holdings))) + Sum(Exact(DayProxies(d))) + Sum(Exact(FundTerms(d.funds)))
  }

  ghost function PricedLines(d: DayInput): nat
  {
    PricedCount(SecurityTerms(d.holdings)) + PricedCount(DayProxies(d)) + PricedCount(FundTerms(d.funds))
  }

  /** The predicted return is exactly the sum of the stored contributions, so it misses the
      unrounded sum of weight times return by at most half a step for each priced line. */
  lemma PredictionBound(d: DayInput)
    requires Predicted(d).Some?
    ensures OnGrid(Predicted(d).value, QUANTITY_SCALE)
    ensures Predicted(d).value
         == Sum(Rounded(SecurityTerms(d.holdings))) + Sum(Rounded(DayProxies(d))) + Sum(Rounded(FundTerms(d.funds)))
    ensures Abs(Predicted(d).value - ExactReturn(d)) <= HALF_STEP * PricedLines(d) as real
  {
    var s, p, f := SecurityTerms(d.holdings), DayProxies(d), FundTerms(d.funds);
    hide Sum, Rounded, Exact, SumOptional, PricedCount, DayProxies, SecurityTerms, FundTerms, OnGrid, Q, Modelled;
    AbsentIsZero(s);
    AbsentIsZero(p);
    AbsentIsZero(f);
    RoundedOnGrid(s);
    RoundedOnGrid(p);
    RoundedOnGrid(f);
    GridClosed(Sum(Rounded(s)), Sum(Rounded(p)), QUANTITY_SCALE);
    GridClosed(Sum(Rounded(s)) + Sum(Rounded(p)), Sum(Rounded(f)), QUANTITY_SCALE);
    QError(Sum(Rounded(s)) + Sum(Rounded(p)) + Sum(Rounded(f)));
    RoundedClose(s);
    RoundedClose(p);
    RoundedClose(f);
  }

  lemma ReportedIsSum(terms: seq<Term>)
    ensures OrZero(RoundedOption(SumOptional(terms))) == Sum(Rounded(terms))
  {
    hide Sum, Rounded, Q;
    AbsentIsZero(terms);
    RoundedOnGrid(terms);
    QError(Sum(Rounded(terms)));
  }

  /** The three reported contributions add up to the reported prediction, without any rest. */
  lemma ContributionsAddUp(d: DayInput, prior: seq<real>)
    requires Predict(d, prior).Ok? && Predict(d, prior).value.predicted.Some?
    ensures var r := Predict(d, prior).value;
            r.predicted.value == OrZero(r.known) + OrZero(r.proxy) + OrZero(r.fund)
  {
    hide Sum, Rounded, Q, SumOptional, RoundedOption, Rejection, DayHalfWidth, CoverageOf, DayProxies, Predicted;
    hide SecurityTerms, FundTerms, OrZero;
    PredictionBound(d);
    ReportedIsSum(SecurityTerms(d.holdings));
    ReportedIsSum(DayProxies(d));
    ReportedIsSum(FundTerms(d.funds));
  }

  // ---------- when there is a prediction ----------

  ghost predicate NonNegative(terms: seq<Term>)
  {
    forall i :: 0 <= i < |terms| ==> terms[i].weight >= 0.0
  }

  ghost predicate HasRisk(terms: seq<Term>)
  {
    exists i :: 0 <= i < |terms| && terms[i].ret.Some? && terms[i].weight > 0.0
  }

  lemma {:induction false} PricedPositive(terms: seq<Term>)
    requires NonNegative(terms)
    ensures Sum(Priced(terms)) >= 0.0 && Sum(Unpriced(terms)) >= 0.0
    ensures Sum(Priced(terms)) > 0.0 <==> HasRisk(terms)
  {
    if terms != [] {
      var n := |terms| - 1;
      PricedPositive(terms[..n]);
      assert Priced(terms)[..n] == Priced(terms[..n]) && Unpriced(terms)[..n] == Unpriced(terms[..n]);
      assert HasRisk(terms[..n]) ==> HasRisk(terms) by {
        if HasRisk(terms[..n]) {
          var i :| 0 <= i < n && terms[..n][i].ret.Some? && terms[..n][i].weight > 0.0;
          assert terms[i].ret.Some? && terms[i].weight > 0.0;
        }
      }
      assert HasRisk(terms) && !(terms[n].ret.Some? && terms[n].weight > 0.0) ==> HasRisk(terms[..n]) by {
        if HasRisk(terms) && !(terms[n].ret.Some? && terms[n].weight > 0.0) {
          var i :| 0 <= i < |terms| && terms[i].ret.Some? && terms[i].weight > 0.0;
          assert terms[..n][i] == terms[i];
        }
      }
    }
  }

  /** The proxy file only admits positive proxy weights. */
  ghost predicate ProxiesPositive(d: DayInput)
  {
    d.proxies.Some? ==> forall i :: 0 <= i < |d.proxies.value| ==> d.proxies.value[i].weight > 0.0
  }

  lemma TermsNonNegative(d: DayInput)
    requires Rejection(d).None? && ProxiesPositive(d)
    ensures NonNegative(SecurityTerms(d.holdings)) && NonNegative(DayProxies(d)) && NonNegative(FundTerms(d.funds))
  {
    hide Disclosed, FundWeight, Modelled;
    if d.proxies.Some? {
      forall i | 0 <= i < |d.proxies.value| ensures DayProxies(d)[i].weight >= 0.0 {
        ProductNonNegative(Undisclosed(d), d.proxies.value[i].weight);
      }
    }
  }

  lemma ProductNonNegative(a: real, b: real)
    requires a >= 0.0 && b >= 0.0
    ensures Times(a, b) >= 0.0
  {
  }

  /** A return is predicted exactly when some line with positive weight has a return. */
  lemma PredictedIffRisk(d: DayInput)
    requires Rejection(d).None? && ProxiesPositive(d)
    ensures Predicted(d).Some? <==>
      HasRisk(SecurityTerms(d.holdings)) || HasRisk(DayProxies(d)) || HasRisk(FundTerms(d.funds))
  {
    hide Sum, Priced, Unpriced, SumOptional, Q, HasRisk, Rejection, DayProxies, SecurityTerms, FundTerms;
    TermsNonNegative(d);
    PricedPositive(SecurityTerms(d.holdings));
    PricedPositive(DayProxies(d));
    PricedPositive(FundTerms(d.funds));
  }

  // ---------- the interval ----------

  lemma HalfWidthAtLeast(d: DayInput, prior: seq<real>)
    requires Rejection(d).None? && ProxiesPositive(d)
    ensures DayHalfWidth(d, prior) >= 0.5 && DayHalfWidth(d, prior) >= BaseError(prior)
    ensures |prior| < 3 ==> DayHalfWidth(d, prior) >= 2.25
  {
    hide Sum, Priced, Unpriced, BaseError, Rejection, DayProxies, SecurityTerms, FundTerms, MappedWeights, Disclosed;
    TermsNonNegative(d);
    PricedPositive(DayProxies(d));
    PricedPositive(FundTerms(d.funds));
    if |prior| < 3 { assert BaseError(prior) == 1.50 by { ShortHistory(prior); } }
  }

  lemma ShortHistory(prior: seq<real>)
    requires |prior| < 3
    ensures BaseError(prior) == 1.50 && LastTen(prior) == prior
  {
  }

  lemma GridMargin(p: real, h: real, margin: real)
    requires OnGrid(p, QUANTITY_SCALE) && OnGrid(margin, QUANTITY_SCALE) && h >= margin
    ensures Q(p - h) <= p - margin && Q(p + h) >= p + margin
  {
    hide Quantize, OnGrid;
    GridClosed(p, margin, QUANTITY_SCALE);
    QuantizeOnGrid(p - margin, QUANTITY_SCALE);
    QuantizeOnGrid(p + margin, QUANTITY_SCALE);
    QuantizeMonotone(p - h, p - margin, QUANTITY_SCALE);
    QuantizeMonotone(p + margin, p + h, QUANTITY_SCALE);
  }

  lemma MarginsOnGrid()
    ensures OnGrid(0.5, QUANTITY_SCALE) && OnGrid(2.25, QUANTITY_SCALE)
  {
    assert Steps(0.5, QUANTITY_SCALE) == 50000000.0 && Steps(2.25, QUANTITY_SCALE) == 225000000.0;
  }

  lemma PredictedOnGrid(d: DayInput)
    requires Predicted(d).Some?
    ensures OnGrid(Predicted(d).value, QUANTITY_SCALE)
  {
    hide OnGrid, Predicted;
    PredictionBound(d);
  }

  lemma Margins(d: DayInput, prior: seq<real>)
    requires Rejection(d).None? && ProxiesPositive(d) && Predicted(d).Some?
    ensures var p, h := Predicted(d).value, DayHalfWidth(d, prior);
            && Q(p - h) <= p - 0.5 && p + 0.5 <= Q(p + h)
            && (|prior| < 3 ==> Q(p - h) <= p - 2.25 && p + 2.25 <= Q(p + h))
  {
    hide Q, OnGrid, Predicted, DayHalfWidth, Rejection, ProxiesPositive, BaseError;
    PredictedOnGrid(d);
    HalfWidthAtLeast(d, prior);
    MarginsOnGrid();
    GridMargin(Predicted(d).value, DayHalfWidth(d, prior), 0.5);
    if |prior| < 3 { GridMargin(Predicted(d).value, DayHalfWidth(d, prior), 2.25); }
  }

  /** Bounds are given exactly with a prediction and keep half a point on both sides of it,
      rounding included; two and a quarter points while the history is shorter than three. */
  lemma IntervalContains(d: DayInput, prior: seq<real>)
    requires Predict(d, prior).Ok? && ProxiesPositive(d)
    ensures var r := Predict(d, prior).value;
            && (r.lower.Some? <==> r.predicted.Some?) && (r.upper.Some? <==> r.predicted.Some?)
            && (r.predicted.Some? ==> r.lower.value <= r.predicted.value - 0.5
                                      && r.predicted.value + 0.5 <= r.upper.value)
            && (r.predicted.Some? && |prior| < 3 ==> r.lower.value <= r.predicted.value - 2.25
                                                     && r.predicted.value + 2.25 <= r.upper.value)
  {
    hide Q, Predicted, DayHalfWidth, CoverageOf, RoundedOption, Rejection, ProxiesPositive, ExactReturn, PricedLines;
    hide Sum;
    if Predicted(d).Some? { Margins(d, prior); }
  }

  /** The mean absolute error of the last ten residuals. */
  function RecentError(prior: seq<real>): real
    requires prior != []
  {
    var recent := if |prior| > 10 then prior[|prior| - 10..] else prior;
    Sum(AbsAll(recent)) / |recent| as real
  }

  /** From three residuals on, the bounds lie the mean absolute error of the last ten away from the
      prediction, up to half a step. */
  lemma IntervalCoversRecentError(d: DayInput, prior: seq<real>)
    requires Predict(d, prior).Ok? && ProxiesPositive(d) && Predict(d, prior).value.predicted.Some?
    requires |prior| >= 3
    ensures var r := Predict(d, prior).value;
            r.lower.value <= r.predicted.value - RecentError(prior) + HALF_STEP
            && r.predicted.value + RecentError(prior) - HALF_STEP <= r.upper.value
  {
    assert BaseError(prior) == RecentError(prior);
    hide Q, BaseError, RecentError, DayHalfWidth, CoverageOf, RoundedOption, Rejection, Predicted;
    HalfWidthAtLeast(d, prior);
    QError(Predicted(d).value - DayHalfWidth(d, prior));
    QError(Predicted(d).value + DayHalfWidth(d, prior));
  }

  /** One or two residuals are ignored altogether: the day is predicted as with none. */
  lemma ShortHistoryIgnored(d: DayInput, prior: seq<real>)
    requires |prior| < 3
    ensures Predict(d, prior) == Predict(d, [])
  {
    hide Rejection, Predicted, CoverageOf, Q, RoundedOption, SumOptional, BaseError;
    ShortHistory(prior);
    ShortHistory([]);
  }

  // ---------- no look-ahead ----------

  /** The day's own actual return enters nothing but the actual return and the residual. */
  lemma ActualIsNotUsed(d: DayInput, actual: Option<real>, prior: seq<real>)
    requires Predict(d, prior).Ok?
    ensures var r, r' := Predict(d, prior), Predict(d.(actual := actual), prior);
            r'.Ok? && r'.value == r.value.(actual := r'.value.actual, residual := r'.value.residual)
  {
    hide Sum, Priced, Unpriced, AllWeights, SumOptional, Q, ProxyTerms, MappedWeights, FundTerms, SecurityTerms;
    hide BaseError;
    hide ValidWeight, LastTen, RoundedOption, ConfidenceIn;
    var d' := d.(actual := actual);
    assert Rejection(d') == Rejection(d) && Predicted(d') == Predicted(d) && CoverageOf(d') == CoverageOf(d);
    assert DayHalfWidth(d', prior) == DayHalfWidth(d, prior) && DayProxies(d') == DayProxies(d);
  }

  /** History moves the bounds and the confidence only: acceptance, prediction and coverage do not
      depend on it. */
  lemma HistoryOnlyWidens(d: DayInput, prior: seq<real>, prior': seq<real>)
    ensures Predict(d, prior).Ok? <==> Predict(d, prior').Ok?
    ensures Predict(d, prior).Err? ==> Predict(d, prior') == Predict(d, prior)
    ensures Predict(d, prior).Ok? ==>
      var r, r' := Predict(d, prior).value, Predict(d, prior').value;
      r' == r.(lower := r'.lower, upper := r'.upper, confidence := r'.confidence)
  {
    hide Rejection, Predicted, CoverageOf, DayHalfWidth, Q, RoundedOption, SumOptional, ConfidenceOf;
  }

  function Rank(c: Confidence): int
  {
    match c case LOW_CONFIDENCE => 0 case MEDIUM => 1 case HIGH => 2
  }

  /** A longer history never lowers the confidence, nor does more explained weight. */
  lemma ConfidenceGrows(
    explained: real, explained': real, history: nat, history': nat, proxy: Option<ProxyConfidence>, proxyWeight: real)
    requires explained <= explained' && history <= history'
    ensures Rank(ConfidenceIn(explained, history, proxy, proxyWeight))
         <= Rank(ConfidenceIn(explained', history', proxy, proxyWeight))
  {
  }

  // ---------- weights ----------

  lemma {:induction false} PricedAndUnpriced(terms: seq<Term>)
    ensures Sum(Priced(terms)) + Sum(Unpriced(terms)) == Sum(AllWeights(terms))
  {
    if terms != [] {
      var n := |terms| - 1;
      PricedAndUnpriced(terms[..n]);
      assert Priced(terms)[..n] == Priced(terms[..n]) && Unpriced(terms)[..n] == Unpriced(terms[..n]);
      assert AllWeights(terms)[..n] == AllWeights(terms[..n]);
    }
  }

  /** Returns exist only for mapped securities, as the caller looks prices up by their symbol. */
  ghost predicate PricedAreMapped(d: DayInput)
  {
    forall i :: 0 <= i < |d.holdings| ==> d.holdings[i].ret.Some? ==> d.holdings[i].mapped
  }

  /** Every disclosed weight is priced, missing market data or unresolved, never two of them;
      every fund weight is resolved or not. */
  lemma WeightsAccounted(d: DayInput)
    requires Rejection(d).None? && PricedAreMapped(d)
    ensures Disclosed(d) == Sum(Priced(SecurityTerms(d.holdings))) + Missing(d) + UnresolvedSecurity(d)
    ensures FundWeight(d) == Sum(Priced(FundTerms(d.funds))) + Sum(Unpriced(FundTerms(d.funds)))
  {
    PricedAndUnpriced(FundTerms(d.funds));
    hide Sum, DayProxies, Modelled;
    var p, m, a := Priced(SecurityTerms(d.holdings)), MappedWeights(d.holdings), AllWeights(SecurityTerms(d.holdings));
    assert forall i :: 0 <= i < |m| ==> p[i] <= m[i] && m[i] <= a[i];
    SumSeqMonotone(p, m);
    SumSeqMonotone(m, a);
  }

  /** The reported coverage keeps the accounts up to the rounding of its own fields: disclosed
      weight splits into priced, missing and unresolved, fund weight into resolved and
      unresolved; priced is within mapped is within disclosed; explained never exceeds 100. */
  lemma CoverageAccounts(d: DayInput, prior: seq<real>)
    requires Predict(d, prior).Ok? && PricedAreMapped(d)
    ensures var c := Predict(d, prior).value.coverage;
            && Abs(c.disclosed - (c.priced + c.missing + c.unresolvedSecurity)) <= 4.0 * HALF_STEP
            && Abs(c.fund - (c.resolvedFund + c.unresolvedFund)) <= 3.0 * HALF_STEP
            && c.priced <= c.mapped <= c.disclosed
            && c.explained <= 100.0
            && (d.equity >= Disclosed(d) ==> Abs(c.disclosed + c.undisclosed - d.equity) <= 2.0 * HALF_STEP)
  {
    hide Q, Sum, Rejection, Predicted, DayHalfWidth, RoundedOption, SumOptional, SecurityTerms, FundTerms, Modelled;
    WeightsAccounted(d);
    CoverageError(d);
    CoverageOrder(d);
  }

  lemma CoverageError(d: DayInput)
    ensures var c := CoverageOf(d);
            && Abs(c.disclosed - Disclosed(d)) <= HALF_STEP && Abs(c.undisclosed - Undisclosed(d)) <= HALF_STEP
            && Abs(c.priced - Sum(Priced(SecurityTerms(d.holdings)))) <= HALF_STEP
            && Abs(c.missing - Missing(d)) <= HALF_STEP
            && Abs(c.unresolvedSecurity - UnresolvedSecurity(d)) <= HALF_STEP
            && Abs(c.fund - FundWeight(d)) <= HALF_STEP
            && Abs(c.resolvedFund - Sum(Priced(FundTerms(d.funds)))) <= HALF_STEP
            && Abs(c.unresolvedFund - Sum(Unpriced(FundTerms(d.funds)))) <= HALF_STEP
  {
    hide Q, Sum, SecurityTerms, FundTerms, Modelled, Disclosed, Undisclosed, Missing, UnresolvedSecurity, FundWeight;
    hide MappedWeights, Priced, Unpriced;
    QError(Disclosed(d));
    QError(Undisclosed(d));
    QError(Sum(Priced(SecurityTerms(d.holdings))));
    QError(Missing(d));
    QError(UnresolvedSecurity(d));
    QError(FundWeight(d));
    QError(Sum(Priced(FundTerms(d.funds))));
    QError(Sum(Unpriced(FundTerms(d.funds))));
  }

  lemma CoverageOrder(d: DayInput)
    requires Rejection(d).None? && PricedAreMapped(d)
    ensures var c := CoverageOf(d); c.priced <= c.mapped <= c.disclosed && c.explained <= 100.0
  {
    var p, m, a := Priced(SecurityTerms(d.holdings)), MappedWeights(d.holdings), AllWeights(SecurityTerms(d.holdings));
    hide Q, Sum, DayProxies, Modelled;
    assert forall i :: 0 <= i < |m| ==> p[i] <= m[i] && m[i] <= a[i];
    SumSeqMonotone(p, m);
    SumSeqMonotone(m, a);
    QMonotone(Sum(p), Sum(m));
    QMonotone(Sum(m), Sum(a));
    QMonotone(MinReal(100.0, Modelled(d) + d.cash), 100.0);
    assert Q(100.0) == 100.0 by { HundredOnGrid(); }
  }

  lemma QMonotone(x: real, y: real)
    requires x <= y
    ensures Q(x) <= Q(y)
  {
    hide Quantize;
    QuantizeMonotone(x, y, QUANTITY_SCALE);
  }

  lemma HundredOnGrid()
    ensures Q(100.0) == 100.0
  {
    assert Steps(100.0, QUANTITY_SCALE) == 10000000000.0;
    assert OnGrid(100.0, QUANTITY_SCALE);
    hide Q, OnGrid;
    QError(100.0);
  }

  function ProxyTotal(d: DayInput): real
  {
    if d.proxies.Some? then Sum(ProxyWeights(d.proxies.value)) else 0.0
  }

  function ProxyWeights(proxies: seq<ProxyDefinition>): (r: seq<real>)
    ensures |r| == |proxies|
  {
    seq(|proxies|, i requires 0 <= i < |proxies| => proxies[i].weight)
  }

  lemma {:induction false} ProxiesWithin(undisclosed: real, proxies: seq<ProxyDefinition>, entries: seq<ProxyReturn>)
    requires undisclosed >= 0.0 && forall i :: 0 <= i < |proxies| ==> proxies[i].weight > 0.0
    ensures Sum(Priced(ProxyTerms(undisclosed, proxies, entries))) <= Times(undisclosed, Sum(ProxyWeights(proxies)))
  {
    if proxies != [] {
      var n := |proxies| - 1;
      ProxiesWithin(undisclosed, proxies[..n], entries);
      var terms := ProxyTerms(undisclosed, proxies, entries);
      assert terms[..n] == ProxyTerms(undisclosed, proxies[..n], entries);
      assert Priced(terms)[..n] == Priced(terms[..n]);
      assert ProxyWeights(proxies)[..n] == ProxyWeights(proxies[..n]);
      ProductNonNegative(undisclosed, proxies[n].weight);
      hide Times;
      Distribute(undisclosed, Sum(ProxyWeights(proxies[..n])), proxies[n].weight);
    }
  }

  /** Unless the securities exceed the reported equity or the proxy weights exceed one, the
      explained weight stays within the reported equity, funds and cash. */
  lemma ExplainedWithinReported(d: DayInput)
    requires EarlierChecksPass(d) && ProxiesPositive(d) && Disclosed(d) <= d.equity && ProxyTotal(d) <= 1.0
    ensures Modelled(d) <= d.equity + FundWeight(d)
  {
    ModelledWithin(d);
    AtMostOne(Undisclosed(d), ProxyTotal(d));
  }

  /** Priced securities and funds are part of all, priced proxies of the undisclosed equity. */
  lemma ModelledWithin(d: DayInput)
    requires EarlierChecksPass(d) && ProxiesPositive(d)
    ensures Modelled(d) <= Disclosed(d) + Times(Undisclosed(d), ProxyTotal(d)) + FundWeight(d)
  {
    PricedAndUnpriced(SecurityTerms(d.holdings));
    PricedAndUnpriced(FundTerms(d.funds));
    PricedPositive(SecurityTerms(d.holdings));
    PricedPositive(FundTerms(d.funds));
    if d.proxies.Some? { ProxiesWithin(Undisclosed(d), d.proxies.value, d.proxyReturns); }
  }

  // ---------- the last weight check ----------

  /** The three checks before the last one. */
  ghost predicate EarlierChecksPass(d: DayInput)
  {
    && ValidWeight(d.equity) && ValidWeight(d.cash)
    && (forall i :: 0 <= i < |d.holdings| ==> ValidWeight(d.holdings[i].weight))
    && (forall i :: 0 <= i < |d.funds| ==> ValidWeight(d.funds[i].weight))
    && Disclosed(d) <= d.equity + TOLERANCE
    && d.equity + FundWeight(d) + d.cash <= LIMIT
  }

  /** The weights of the proxies whose symbol has a return. */
  function PricedProxyWeights(proxies: seq<ProxyDefinition>, entries: seq<ProxyReturn>): (r: seq<real>)
    ensures |r| == |proxies|
  {
    seq(|proxies|, i requires 0 <= i < |proxies| =>
      if LastReturn(entries, proxies[i].symbol).Some? then proxies[i].weight else 0.0)
  }

  function PricedProxyTotal(d: DayInput): real
  {
    if d.proxies.Some? then Sum(PricedProxyWeights(d.proxies.value, d.proxyReturns)) else 0.0
  }

  lemma {:induction false} ProxiesPriced(undisclosed: real, proxies: seq<ProxyDefinition>, entries: seq<ProxyReturn>)
    ensures Sum(Priced(ProxyTerms(undisclosed, proxies, entries)))
         == Times(undisclosed, Sum(PricedProxyWeights(proxies, entries)))
  {
    if proxies != [] {
      var n := |proxies| - 1;
      ProxiesPriced(undisclosed, proxies[..n], entries);
      var terms, weights := ProxyTerms(undisclosed, proxies, entries), PricedProxyWeights(proxies, entries);
      assert terms[..n] == ProxyTerms(undisclosed, proxies[..n], entries);
      assert Priced(terms)[..n] == Priced(terms[..n]);
      assert weights[..n] == PricedProxyWeights(proxies[..n], entries);
      assert Times(undisclosed, 0.0) == 0.0;
      hide Times;
      Distribute(undisclosed, Sum(weights[..n]), weights[n]);
    }
  }

  /** Once the earlier checks pass, the last one fires exactly when the priced securities, the
      undisclosed equity spread over the priced proxies, the resolved funds and the cash
      together exceed the limit. */
  lemma ExplainedFiresIff(d: DayInput)
    requires EarlierChecksPass(d)
    ensures Rejection(d) == Some(ExplainedExceeds)
       <==> Sum(Priced(SecurityTerms(d.holdings))) + Times(Undisclosed(d), PricedProxyTotal(d))
            + Sum(Priced(FundTerms(d.funds))) + d.cash > LIMIT
  {
    hide Sum, Times, Priced, SecurityTerms, FundTerms, ProxyTerms, PricedProxyWeights, Disclosed, FundWeight;
    hide ValidWeight;
    if d.proxies.Some? {
      ProxiesPriced(Undisclosed(d), d.proxies.value, d.proxyReturns);
    } else {
      NoProxies(Undisclosed(d));
    }
  }

  lemma NoProxies(undisclosed: real)
    ensures Sum(Priced([])) == 0.0 && Times(undisclosed, 0.0) == 0.0
  {
  }

  /** So it needs securities above the reported equity, or proxy weights above one. */
  lemma FiringNeeds(d: DayInput)
    requires ProxiesPositive(d) && Rejection(d) == Some(ExplainedExceeds)
    ensures Disclosed(d) > d.equity || ProxyTotal(d) > 1.0
  {
    hide Modelled, Disclosed, FundWeight, ProxyTotal, ProxiesPositive, ValidWeight;
    assert EarlierChecksPass(d);
    if Disclosed(d) <= d.equity && ProxyTotal(d) <= 1.0 { ExplainedWithinReported(d); }
  }

  /** What the proxy file admits: positive weights that total one up to a millionth. */
  ghost predicate ProxiesLoaded(d: DayInput)
  {
    ProxiesPositive(d) && (d.proxies.Some? ==> Abs(ProxyTotal(d) - 1.0) <= 0.000001)
  }

  /** With proxies from the file it fires only when the reported weights themselves exceed 100,
      within their tolerance. */
  lemma FiringIsNearLimit(d: DayInput)
    requires ProxiesLoaded(d) && Rejection(d) == Some(ExplainedExceeds)
    ensures d.equity + FundWeight(d) + d.cash > 100.0
  {
    assert EarlierChecksPass(d) by { hide Modelled, Disclosed, FundWeight, ProxyTotal, ProxiesPositive, ValidWeight; }
    ModelledWithin(d);
    SlightlyMore(Undisclosed(d), ProxyTotal(d));
    assert Undisclosed(d) <= LIMIT by { DisclosedNonNegative(d); }
  }

  lemma DisclosedNonNegative(d: DayInput)
    requires EarlierChecksPass(d)
    ensures Disclosed(d) >= 0.0
  {
    SumSeqNonNegative(AllWeights(SecurityTerms(d.holdings)));
  }

  lemma SlightlyMore(a: real, w: real)
    requires a >= 0.0 && w <= 1.000001
    ensures Times(a, w) <= a + a * 0.000001
  {
    ProductNonNegative(a, 1.000001 - w);
    assert Times(a, 1.000001 - w) == a + a * 0.000001 - Times(a, w);
  }

  lemma AtMostOne(a: real, w: real)
    requires a >= 0.0 && w <= 1.0
    ensures Times(a, w) <= a
  {
    ProductNonNegative(a, 1.0 - w);
    assert Times(a, 1.0 - w) == a - Times(a, w);
  }

  /** Securities over the reported equity, within tolerance, can trip the last check although
      equity, funds and cash together pass theirs. */
  lemma OverDisclosureRejected()
    ensures var d := DayInput(0, 0, None, [SecurityInput(100.0, true, Some(1.0)), SecurityInput(0.09, true, Some(1.0))],
                              100.05, [], 0.0, None, PROXY_HIGH, []);
            Rejection(d) == Some(ExplainedExceeds)
  {
    var holdings := [SecurityInput(100.0, true, Some(1.0)), SecurityInput(0.09, true, Some(1.0))];
    var terms := SecurityTerms(holdings);
    TwoTerms(AllWeights(terms));
    TwoTerms(Priced(terms));
    assert FundTerms([]) == [] && Priced([]) == [] && AllWeights([]) == [];
  }

  /** So can two priced proxies whose weights the file admits although they exceed one. */
  lemma ProxyTotalRejected()
    ensures var proxies := [ProxyDefinition("A", 0.5), ProxyDefinition("B", 0.500001)];
            var entries := [ProxyReturn("A", Some(1.0)), ProxyReturn("B", Some(1.0))];
            var d := DayInput(0, 0, None, [], 100.05, [], 0.0, Some(proxies), PROXY_HIGH, entries);
            ProxiesLoaded(d) && Disclosed(d) <= d.equity && Rejection(d) == Some(ExplainedExceeds)
  {
    var proxies := [ProxyDefinition("A", 0.5), ProxyDefinition("B", 0.500001)];
    var entries := [ProxyReturn("A", Some(1.0)), ProxyReturn("B", Some(1.0))];
    var d := DayInput(0, 0, None, [], 100.05, [], 0.0, Some(proxies), PROXY_HIGH, entries);
    assert AllWeights(SecurityTerms([])) == [] && AllWeights(FundTerms([])) == [];
    assert Priced(SecurityTerms([])) == [] && Priced(FundTerms([])) == [];
    assert Disclosed(d) == 0.0 && FundWeight(d) == 0.0 && Undisclosed(d) == 100.05;
    assert entries[..1] == [ProxyReturn("A", Some(1.0))];
    assert LastReturn(entries[..1], "A") == Some(1.0) && LastReturn(entries, "B") == Some(1.0);
    TwoTerms(ProxyWeights(proxies));
    TwoTerms(PricedProxyWeights(proxies, entries));
    ExplainedFiresIff(d);
  }

  lemma TwoTerms(xs: seq<real>)
    requires |xs| == 2
    ensures Sum(xs) == xs[0] + xs[1]
  {
    SumPrefix(xs, 0);
    SumPrefix(xs, 1);
    SumAll(xs);
  }

  // ---------- knowing more ----------

  /** Two days with the same reported weights and proxies, of which the second has a return for
      every line that has one on the first. */
  ghost predicate KnowsMore(d: DayInput, d': DayInput)
  {
    && d'.equity == d.equity && d'.proxies == d.proxies
    && AllWeights(SecurityTerms(d'.holdings)) == AllWeights(SecurityTerms(d.holdings))
    && AllWeights(FundTerms(d'.funds)) == AllWeights(FundTerms(d.funds))
    && MorePriced(SecurityTerms(d.holdings), SecurityTerms(d'.holdings))
    && MorePriced(FundTerms(d.funds), FundTerms(d'.funds))
    && MorePriced(DayProxies(d), DayProxies(d'))
  }

  ghost predicate MorePriced(terms: seq<Term>, terms': seq<Term>)
  {
    |terms| == |terms'| && forall i :: 0 <= i < |terms| ==> terms[i].ret.Some? ==> terms'[i].ret.Some?
  }

  function PricedSecurity(d: DayInput): real
  {
    Sum(Priced(SecurityTerms(d.holdings)))
  }

  function PricedFund(d: DayInput): real
  {
    Sum(Priced(FundTerms(d.funds)))
  }

  /** What each percent of undisclosed equity adds to the half width when the priced proxy weight
      grows from a to b: the charge for priced proxies less the relief on the rest. */
  function ProxyRise(a: real, b: real): real
  {
    0.015 * (b - a) - 0.04 * (MaxReal(0.0, 1.0 - a) - MaxReal(0.0, 1.0 - b))
  }

  lemma ProxyRiseSign(a: real, b: real)
    requires a <= b
    ensures ProxyRise(a, b) <= 0.0 <==> a == b || 3.0 * (b - 1.0) <= 5.0 * (1.0 - a)
    ensures b <= 1.0 ==> ProxyRise(a, b) <= 0.0
  {
  }

  lemma HalfWidthIs(d: DayInput, prior: seq<real>)
    requires Rejection(d).None? && PricedAreMapped(d)
    ensures DayHalfWidth(d, prior)
         == HalfWidth(prior, Disclosed(d) - PricedSecurity(d), Undisclosed(d),
                      Times(Undisclosed(d), PricedProxyTotal(d)), FundWeight(d) - PricedFund(d))
  {
    hide Sum, Times, Priced, Unpriced, SecurityTerms, FundTerms, ProxyTerms, PricedProxyWeights, HalfWidth, Rejection;
    hide MappedWeights;
    WeightsAccounted(d);
    if d.proxies.Some? {
      ProxiesPriced(Undisclosed(d), d.proxies.value, d.proxyReturns);
    } else {
      NoProxies(Undisclosed(d));
    }
  }

  /** The charges for proxies scale with the undisclosed equity. */
  lemma ProxyCharges(u: real, a: real, b: real)
    requires u >= 0.0
    ensures 0.015 * (Times(u, b) - Times(u, a))
            - 0.04 * (MaxReal(0.0, u - Times(u, a)) - MaxReal(0.0, u - Times(u, b)))
         == Times(u, ProxyRise(a, b))
  {
    MaxScaled(u, 1.0 - a);
    MaxScaled(u, 1.0 - b);
    var x, y := MaxReal(0.0, 1.0 - a), MaxReal(0.0, 1.0 - b);
    assert Times(u, ProxyRise(a, b)) == 0.015 * (u * b - u * a) - 0.04 * (u * x - u * y);
    assert u * (1.0 - a) == u - u * a && u * (1.0 - b) == u - u * b;
  }

  lemma MaxScaled(u: real, x: real)
    requires u >= 0.0
    ensures MaxReal(0.0, u * x) == u * MaxReal(0.0, x)
  {
    if x >= 0.0 { assert u * x >= 0.0; } else { assert u * x <= 0.0; }
  }

  lemma {:induction false} PricedGrows(terms: seq<Term>, terms': seq<Term>)
    requires MorePriced(terms, terms') && NonNegative(terms') && AllWeights(terms) == AllWeights(terms')
    ensures Sum(Priced(terms)) <= Sum(Priced(terms'))
  {
    forall i | 0 <= i < |terms| ensures Priced(terms)[i] <= Priced(terms')[i] {
      assert AllWeights(terms)[i] == AllWeights(terms')[i];
    }
    SumSeqMonotone(Priced(terms), Priced(terms'));
  }

  lemma KnownGrows(d: DayInput, d': DayInput)
    requires Rejection(d').None? && ProxiesPositive(d) && KnowsMore(d, d')
    ensures Disclosed(d') == Disclosed(d) && Undisclosed(d') == Undisclosed(d) && FundWeight(d') == FundWeight(d)
    ensures PricedSecurity(d) <= PricedSecurity(d') && PricedFund(d) <= PricedFund(d')
    ensures PricedProxyTotal(d) <= PricedProxyTotal(d')
  {
    TermsNonNegative(d');
    hide Sum, Times, Rejection;
    PricedGrows(SecurityTerms(d.holdings), SecurityTerms(d'.holdings));
    PricedGrows(FundTerms(d.funds), FundTerms(d'.funds));
    if d.proxies.Some? {
      var w, w' := PricedProxyWeights(d.proxies.value, d.proxyReturns),
                   PricedProxyWeights(d.proxies.value, d'.proxyReturns);
      forall i | 0 <= i < |w| ensures w[i] <= w'[i] {
        assert DayProxies(d)[i].ret.Some? ==> DayProxies(d')[i].ret.Some?;
      }
      SumSeqMonotone(w, w');
    }
  }

  /** Of two accepted days the better known one has the narrower interval exactly when the rise of
      the proxy charges, spread over the undisclosed equity, is covered by what the newly priced
      securities and funds save. The proxies rise only if the weight priced before and after,
      a < b, satisfy 3 (b - 1) > 5 (1 - a); never while it totals at most one. */
  lemma MoreInformationNarrowsIff(d: DayInput, d': DayInput, prior: seq<real>)
    requires Rejection(d).None? && Rejection(d').None? && ProxiesPositive(d) && KnowsMore(d, d')
    requires PricedAreMapped(d) && PricedAreMapped(d')
    ensures var a, b := PricedProxyTotal(d), PricedProxyTotal(d');
            var saved := PricedSecurity(d') - PricedSecurity(d) + PricedFund(d') - PricedFund(d);
            && a <= b && saved >= 0.0
            && (DayHalfWidth(d', prior) <= DayHalfWidth(d, prior)
                <==> Times(Undisclosed(d), ProxyRise(a, b)) <= 0.03 * saved)
            && (a == b || 3.0 * (b - 1.0) <= 5.0 * (1.0 - a) ==> DayHalfWidth(d', prior) <= DayHalfWidth(d, prior))
            && (b <= 1.0 ==> DayHalfWidth(d', prior) <= DayHalfWidth(d, prior))
  {
    hide Rejection, Disclosed, Undisclosed, FundWeight, PricedSecurity, PricedFund, PricedProxyTotal, DayHalfWidth;
    hide BaseError, ProxyRise, Times, ProxiesPositive, PricedAreMapped, KnowsMore;
    KnownGrows(d, d');
    HalfWidthIs(d, prior);
    HalfWidthIs(d', prior);
    var u, a, b := Undisclosed(d), PricedProxyTotal(d), PricedProxyTotal(d');
    assert u >= 0.0 by { UndisclosedNonNegative(d); }
    ProxyCharges(u, a, b);
    ProxyRiseSign(a, b);
    if ProxyRise(a, b) <= 0.0 { NotPositiveTimes(u, ProxyRise(a, b)); }
  }

  /** With proxies as the file admits them, knowing more can only widen the interval once proxies
      of more than 0.9999994 are priced. */
  lemma WideningNeedsNearlyAllPriced(d: DayInput, d': DayInput, prior: seq<real>)
    requires Rejection(d).None? && Rejection(d').None? && ProxiesLoaded(d) && KnowsMore(d, d')
    requires PricedAreMapped(d) && PricedAreMapped(d')
    requires DayHalfWidth(d', prior) > DayHalfWidth(d, prior)
    ensures PricedProxyTotal(d) > 0.9999994
  {
    if d.proxies.Some? {
      SumSeqMonotone(PricedProxyWeights(d'.proxies.value, d'.proxyReturns), ProxyWeights(d'.proxies.value));
    }
    assert PricedProxyTotal(d') <= 1.000001;
    hide Rejection, PricedProxyTotal, PricedSecurity, PricedFund, Undisclosed, DayHalfWidth, KnowsMore, Times;
    hide ProxyTotal, PricedAreMapped, ProxyRise;
    MoreInformationNarrowsIff(d, d', prior);
  }

  lemma UndisclosedNonNegative(d: DayInput)
    ensures Undisclosed(d) >= 0.0
  {
  }

  lemma NotPositiveTimes(u: real, x: real)
    requires u >= 0.0 && x <= 0.0
    ensures Times(u, x) <= 0.0
  {
    ProductNonNegative(u, -x);
    assert Times(u, -x) == -Times(u, x);
  }

  /** A day with undisclosed equity of 90 and two proxies that the file admits, the second of which
      is priced or not. */
  function TwoProxies(second: Option<real>): DayInput
  {
    DayInput(0, 0, None, [], 90.0, [], 0.0, Some([ProxyDefinition("A", 1.0), ProxyDefinition("B", 0.000001)]),
             PROXY_HIGH, [ProxyReturn("A", Some(0.0)), ProxyReturn("B", second)])
  }

  lemma TwoProxiesWeights(second: Option<real>)
    ensures var d := TwoProxies(second);
            && ProxyTotal(d) == 1.000001 && PricedProxyTotal(d) == (if second.Some? then 1.000001 else 1.0)
  {
    var d := TwoProxies(second);
    assert d.proxyReturns[..1] == [ProxyReturn("A", Some(0.0))];
    assert LastReturn(d.proxyReturns[..1], "A") == Some(0.0) && LastReturn(d.proxyReturns, "B") == second;
    assert LastReturn(d.proxyReturns, "A") == Some(0.0);
    TwoTerms(ProxyWeights(d.proxies.value));
    TwoTerms(PricedProxyWeights(d.proxies.value, d.proxyReturns));
  }

  /** A day of proxies alone. */
  lemma ProxiesAlone(d: DayInput)
    requires d.holdings == [] && d.funds == [] && d.cash == 0.0 && ValidWeight(d.equity)
    ensures Disclosed(d) == FundWeight(d) == PricedSecurity(d) == PricedFund(d) == 0.0 && Undisclosed(d) == d.equity
    ensures Times(d.equity, PricedProxyTotal(d)) <= LIMIT ==> Rejection(d).None?
  {
    assert AllWeights(SecurityTerms([])) == [] && AllWeights(FundTerms([])) == [];
    assert Priced(SecurityTerms([])) == [] && Priced(FundTerms([])) == [];
    hide PricedProxyTotal, Times;
    ExplainedFiresIff(d);
  }

  lemma TwoProxiesIs(second: Option<real>)
    ensures var d := TwoProxies(second);
            && ProxiesLoaded(d) && Rejection(d).None? && Disclosed(d) == 0.0 && FundWeight(d) == 0.0
            && PricedProxyTotal(d) == (if second.Some? then 1.000001 else 1.0)
            && PricedSecurity(d) == PricedFund(d) == 0.0
  {
    assert Times(90.0, 1.0) == 90.0 && Times(90.0, 1.000001) == 90.00009;
    hide PricedProxyTotal, ProxyTotal, Times, LastReturn, Rejection, Disclosed, FundWeight, PricedSecurity, PricedFund;
    TwoProxiesWeights(second);
    ProxiesAlone(TwoProxies(second));
  }

  lemma TwoProxiesWidth(second: Option<real>, prior: seq<real>)
    ensures DayHalfWidth(TwoProxies(second), prior)
         == HalfWidth(prior, 0.0, 90.0, if second.Some? then 90.00009 else 90.0, 0.0)
  {
    var d := TwoProxies(second);
    TwoProxiesIs(second);
    assert Undisclosed(d) == 90.0 && PricedAreMapped(d);
    assert Times(90.0, 1.0) == 90.0 && Times(90.0, 1.000001) == 90.00009;
    hide TwoProxies, Rejection, Disclosed, Undisclosed, PricedProxyTotal, FundWeight, PricedFund, PricedSecurity, Times;
    hide HalfWidth, DayHalfWidth, PricedAreMapped;
    HalfWidthIs(d, prior);
  }

  /** Pricing the second one too widens the interval, whatever the history. */
  lemma MoreInformationWidens(prior: seq<real>)
    ensures var d, d' := TwoProxies(None), TwoProxies(Some(0.0));
            && ProxiesLoaded(d) && Rejection(d).None? && Rejection(d').None? && KnowsMore(d, d')
            && DayHalfWidth(d', prior) == DayHalfWidth(d, prior) + 0.00000135
  {
    TwoProxiesIs(None);
    TwoProxiesIs(Some(0.0));
    TwoProxiesKnown();
    hide Rejection, TwoProxies, KnowsMore, ProxiesLoaded, PricedProxyTotal, PricedSecurity, PricedFund, Disclosed;
    hide FundWeight, DayHalfWidth, BaseError, LastTen;
    TwoProxiesWidth(None, prior);
    TwoProxiesWidth(Some(0.0), prior);
  }

  lemma TwoProxiesKnown()
    ensures KnowsMore(TwoProxies(None), TwoProxies(Some(0.0)))
  {
    var d, d' := TwoProxies(None), TwoProxies(Some(0.0));
    assert d.proxyReturns[..1] == [ProxyReturn("A", Some(0.0))] == d'.proxyReturns[..1];
    hide Sum, Times;
  }
}
