/** What a fund's review and the portfolio's prediction are made of. */
module PortfolioMeaning {
  import opened Sums
  import opened Decimals
  import opened Predictor
  import opened PredictorProperties
  import opened PortfolioReview

  // ---------- the history of a day ----------

  /** The predictions that have a residual, each once and in order. */
  ghost predicate ResidualsAt(ps: seq<Prediction>, at: seq<int>)
  {
    && (forall k :: 0 <= k < |at| ==> 0 <= at[k] < |ps| && ps[at[k]].residual.Some?)
    && (forall j, k :: 0 <= j < k < |at| ==> at[j] < at[k])
    && (forall i :: 0 <= i < |ps| && ps[i].residual.Some? ==> i in at)
  }

  ghost predicate TakenFrom(history: seq<real>, ps: seq<Prediction>, at: seq<int>)
  {
    |history| == |at| && forall k :: 0 <= k < |at| ==> 0 <= at[k] < |ps| && ps[at[k]].residual == Some(history[k])
  }

  lemma {:induction false} HistoryIs(ps: seq<Prediction>) returns (at: seq<int>)
    ensures ResidualsAt(ps, at) && TakenFrom(History(ps), ps, at)
  {
    if ps == [] {
      at := [];
    } else {
      hide ResidualsAt, TakenFrom;
      var n := |ps| - 1;
      at := HistoryIs(ps[..n]);
      if ps[n].residual.Some? {
        OneMoreResidual(ps, History(ps[..n]), at);
        at := at + [n];
      } else {
        NoResidual(ps, History(ps[..n]), at);
        assert History(ps) == History(ps[..n]) by { assert History(ps[..n]) + [] == History(ps[..n]); }
      }
    }
  }

  lemma OneMoreResidual(ps: seq<Prediction>, history: seq<real>, at: seq<int>)
    requires ps != [] && ResidualsAt(ps[..|ps| - 1], at) && TakenFrom(history, ps[..|ps| - 1], at)
    requires ps[|ps| - 1].residual.Some?
    ensures ResidualsAt(ps, at + [|ps| - 1])
    ensures TakenFrom(history + [ps[|ps| - 1].residual.value], ps, at + [|ps| - 1])
  {
    var n, front := |ps| - 1, ps[..|ps| - 1];
    assert forall i :: 0 <= i < n ==> ps[i] == front[i];
    forall i | 0 <= i < |ps| && ps[i].residual.Some? ensures i in at + [n] {
      if i < n { assert front[i].residual.Some?; }
    }
  }

  lemma NoResidual(ps: seq<Prediction>, history: seq<real>, at: seq<int>)
    requires ps != [] && ResidualsAt(ps[..|ps| - 1], at) && TakenFrom(history, ps[..|ps| - 1], at)
    requires ps[|ps| - 1].residual.None?
    ensures ResidualsAt(ps, at) && TakenFrom(history, ps, at)
  {
    var n, front := |ps| - 1, ps[..|ps| - 1];
    assert forall i :: 0 <= i < n ==> ps[i] == front[i];
    forall i | 0 <= i < |ps| && ps[i].residual.Some? ensures i in at {
      assert front[i].residual.Some?;
    }
  }

  /** A review has one prediction per day, in order, each made from exactly the residuals of the
      predictions before it. */
  lemma ReviewIs(days: seq<DayInput>, i: nat) returns (history: seq<real>, at: seq<int>)
    requires Analysis(days, |days|).Ok? && i < |days|
    ensures var ps := Analysis(days, |days|).value;
            && |ps| == |days| && Predict(days[i], history) == Ok(ps[i])
            && ResidualsAt(ps[..i], at) && TakenFrom(history, ps[..i], at)
  {
    hide Predict, History, ResidualsAt, TakenFrom;
    var ps := Analysis(days, |days|).value;
    AnalysisPrefix(days, i, |days|);
    AnalysisPrefix(days, i + 1, |days|);
    AnalysisStep(days, i, ps[..i]);
    history := History(ps[..i]);
    at := HistoryIs(ps[..i]);
    assert ps[..i + 1][i] == ps[i];
  }

  // ---------- the portfolio ----------

  /** A fund that carries weight and has a latest prediction. */
  predicate Carries(weights: map<int, real>, r: FundResult)
  {
    r.share in weights && weights[r.share] != 0.0 && r.latest.Some?
  }

  ghost function CarriedWeights(results: seq<FundResult>, weights: map<int, real>): (s: seq<real>)
    ensures |s| == |results|
  {
    seq(|results|, i requires 0 <= i < |results| =>
      if Carries(weights, results[i]) then weights[results[i].share] else 0.0)
  }

  datatype Value = PREDICTED | LOWER | UPPER

  function ValueOf(r: Range, v: Value): real
  {
    match v
    case PREDICTED => r.predicted
    case LOWER => r.lower
    case UPPER => r.upper
  }

  ghost function CarriedValues(results: seq<FundResult>, weights: map<int, real>, v: Value): (s: seq<real>)
    ensures |s| == |results|
  {
    seq(|results|, i requires 0 <= i < |results| =>
      if Carries(weights, results[i])
      then Times(weights[results[i].share], ValueOf(results[i].latest.value, v))
      else 0.0)
  }

  /** The weights that are added up, and the values: weight times the fund's own, over the funds that
      carry weight and have a prediction. */
  lemma CarriedAre(results: seq<FundResult>, weights: map<int, real>)
    ensures Available(results, weights) == CarriedWeights(results, weights)
    ensures Weighted(results, weights, 0) == CarriedValues(results, weights, PREDICTED)
    ensures Weighted(results, weights, -1) == CarriedValues(results, weights, LOWER)
    ensures Weighted(results, weights, 1) == CarriedValues(results, weights, UPPER)
  {
    hide Times;
  }
}
