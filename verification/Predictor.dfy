/** The return baseline from disclosed holdings (backend/app/q2_analysis/predictor.py). */
module Predictor {
  import opened Sums
  import opened Decimals
  import opened Calendar

  // ---------- inputs: weights and returns in percent ----------

  datatype SecurityInput = SecurityInput(weight: real, mapped: bool, ret: Option<real>)

  datatype FundInput = FundInput(weight: real, unresolved: bool, ret: Option<real>)

  datatype ProxyDefinition = ProxyDefinition(symbol: string, weight: real)

  datatype ProxyReturn = ProxyReturn(symbol: string, ret: Option<real>)

  datatype ProxyConfidence = PROXY_HIGH | PROXY_MEDIUM | PROXY_LOW

  /** `published` is the day the report became public. */
  datatype DayInput = DayInput(
    navDate: Date, published: Date, actual: Option<real>, holdings: seq<SecurityInput>, equity: real,
    funds: seq<FundInput>, cash: real, proxies: Option<seq<ProxyDefinition>>, proxyConfidence: ProxyConfidence,
    proxyReturns: seq<ProxyReturn>)

  datatype Confidence = LOW_CONFIDENCE | MEDIUM | HIGH

  datatype AnalysisMode = Q2_EX_POST | Q2_LIVE

  datatype Coverage = Coverage(
    disclosed: real, mapped: real, priced: real, unresolvedSecurity: real, missing: real, undisclosed: real,
    proxy: real, fund: real, resolvedFund: real, unresolvedFund: real, cash: real, explained: real)

  datatype Prediction = Prediction(
    navDate: Date, actual: Option<real>, predicted: Option<real>, lower: Option<real>, upper: Option<real>,
    known: Option<real>, proxy: Option<real>, fund: Option<real>, residual: Option<real>, mode: AnalysisMode,
    confidence: Confidence, coverage: Coverage)

  datatype PredictionError = InvalidWeight | SecuritiesExceedEquity | WeightsExceed | ExplainedExceeds

  const LIMIT: real := 100.05
  const TOLERANCE: real := 0.05

  function Q(x: real): real
  {
    Quantize(x, QUANTITY_SCALE)
  }

  // ---------- weighted returns ----------

  /** One line of the prediction: a weight and, if it could be priced, its return. */
  datatype Term = Term(weight: real, ret: Option<real>)

  function Contribution(t: Term): real
    requires t.ret.Some?
  {
    Times(t.weight, t.ret.value) / 100.0
  }

  function Priced(terms: seq<Term>): (r: seq<real>)
    ensures |r| == |terms|
  {
    seq(|terms|, i requires 0 <= i < |terms| => if terms[i].ret.Some? then terms[i].weight else 0.0)
  }

  function Unpriced(terms: seq<Term>): (r: seq<real>)
    ensures |r| == |terms|
  {
    seq(|terms|, i requires 0 <= i < |terms| => if terms[i].ret.Some? then 0.0 else terms[i].weight)
  }

  function AllWeights(terms: seq<Term>): (r: seq<real>)
    ensures |r| == |terms|
  {
    seq(|terms|, i requires 0 <= i < |terms| => terms[i].weight)
  }

  /** What the lines contribute before rounding. */
  ghost function Exact(terms: seq<Term>): (r: seq<real>)
    ensures |r| == |terms|
  {
    seq(|terms|, i requires 0 <= i < |terms| => if terms[i].ret.Some? then Contribution(terms[i]) else 0.0)
  }

  /** What they contribute as stored, line by line on the eight-digit grid. */
  function Rounded(terms: seq<Term>): (r: seq<real>)
    ensures |r| == |terms|
  {
    seq(|terms|, i requires 0 <= i < |terms| => if terms[i].ret.Some? then Q(Contribution(terms[i])) else 0.0)
  }

  ghost function PricedCount(terms: seq<Term>): nat
  {
    if terms == [] then 0
    else PricedCount(terms[..|terms| - 1]) + (if terms[|terms| - 1].ret.Some? then 1 else 0)
  }

  function SumOptional(terms: seq<Term>): Option<real>
  {
    if exists i :: 0 <= i < |terms| && terms[i].ret.Some? then Some(Sum(Rounded(terms))) else None
  }

  function OrZero(x: Option<real>): real
  {
    if x.Some? then x.value else 0.0
  }

  function RoundedOption(x: Option<real>): Option<real>
  {
    if x.Some? then Some(Q(x.value)) else None
  }

  function SecurityTerms(holdings: seq<SecurityInput>): (r: seq<Term>)
    ensures |r| == |holdings|
  {
    seq(|holdings|, i requires 0 <= i < |holdings| => Term(holdings[i].weight, holdings[i].ret))
  }

  function FundTerms(funds: seq<FundInput>): (r: seq<Term>)
    ensures |r| == |funds|
  {
    seq(|funds|, i requires 0 <= i < |funds| =>
      Term(funds[i].weight, if funds[i].unresolved then None else funds[i].ret))
  }

  function MappedWeights(holdings: seq<SecurityInput>): (r: seq<real>)
    ensures |r| == |holdings|
  {
    seq(|holdings|, i requires 0 <= i < |holdings| => if holdings[i].mapped then holdings[i].weight else 0.0)
  }

  // ---------- proxies ----------

  /** The return of the last entry for a symbol. */
  function LastReturn(entries: seq<ProxyReturn>, symbol: string): Option<real>
  {
    if entries == [] then None
    else if entries[|entries| - 1].symbol == symbol then entries[|entries| - 1].ret
    else LastReturn(entries[..|entries| - 1], symbol)
  }

  function ProxyTerms(undisclosed: real, proxies: seq<ProxyDefinition>, entries: seq<ProxyReturn>): (r: seq<Term>)
    ensures |r| == |proxies|
  {
    seq(|proxies|, i requires 0 <= i < |proxies| =>
      Term(Times(undisclosed, proxies[i].weight), LastReturn(entries, proxies[i].symbol)))
  }

  method BySymbol(entries: seq<ProxyReturn>) returns (table: map<string, Option<real>>)
    ensures forall symbol ::
      LastReturn(entries, symbol) == (if symbol in table then table[symbol] else None)
  {
    table := map[];
    for i := 0 to |entries|
      invariant forall symbol ::
        LastReturn(entries[..i], symbol) == (if symbol in table then table[symbol] else None)
    {
      assert entries[..i + 1][..i] == entries[..i];
      table := table[entries[i].symbol := entries[i].ret];
    }
    assert entries[..|entries|] == entries;
  }

  /** Spreads the undisclosed equity over the proxies, adding up what could be priced. */
  method AllocateProxies(undisclosed: real, proxies: seq<ProxyDefinition>, entries: seq<ProxyReturn>)
      returns (terms: seq<Term>, priced: real)
    ensures terms == ProxyTerms(undisclosed, proxies, entries) && priced == Sum(Priced(terms))
  {
    hide Times;
    terms, priced := [], 0.0;
    var table := BySymbol(entries);
    for i := 0 to |proxies|
      invariant |terms| == i && forall j :: 0 <= j < i ==> terms[j] == ProxyTerms(undisclosed, proxies, entries)[j]
      invariant priced == Sum(Priced(terms))
    {
      var symbol := proxies[i].symbol;
      var t := Term(Times(undisclosed, proxies[i].weight), if symbol in table then table[symbol] else None);
      if t.ret.Some? {
        priced := priced + t.weight;
      }
      assert Priced(terms + [t])[..i] == Priced(terms);
      terms := terms + [t];
    }
  }

  // ---------- the prediction interval ----------

  function LastTen(prior: seq<real>): seq<real>
  {
    if |prior| <= 10 then prior else prior[|prior| - 10..]
  }

  function BaseError(prior: seq<real>): real
  {
    var recent := LastTen(prior);
    if |recent| >= 3 then Sum(AbsAll(recent)) / |recent| as real else 1.50
  }

  function HalfWidth(prior: seq<real>, unpriced: real, undisclosed: real, pricedProxy: real, unresolvedFund: real): real
  {
    MaxReal(BaseError(prior), 0.50) + unpriced * 0.03 + pricedProxy * 0.015
    + MaxReal(0.0, undisclosed - pricedProxy) * 0.04 + unresolvedFund * 0.03
    + (if |LastTen(prior)| < 3 then 0.75 else 0.0)
  }

  // ---------- one day ----------

  predicate ValidWeight(w: real)
  {
    0.0 <= w <= LIMIT
  }

  function Disclosed(d: DayInput): real
  {
    Sum(AllWeights(SecurityTerms(d.holdings)))
  }

  function Undisclosed(d: DayInput): real
  {
    MaxReal(0.0, d.equity - Disclosed(d))
  }

  function DayProxies(d: DayInput): seq<Term>
  {
    if d.proxies.Some? then ProxyTerms(Undisclosed(d), d.proxies.value, d.proxyReturns) else []
  }

  /** The weight that got a return: the only reason to predict anything. */
  function Modelled(d: DayInput): real
  {
    Sum(Priced(SecurityTerms(d.holdings))) + Sum(Priced(DayProxies(d))) + Sum(Priced(FundTerms(d.funds)))
  }

  function FundWeight(d: DayInput): real
  {
    Sum(AllWeights(FundTerms(d.funds)))
  }

  function Rejection(d: DayInput): Option<PredictionError>
  {
    if !ValidWeight(d.equity) || !ValidWeight(d.cash)
       || (exists i :: 0 <= i < |d.holdings| && !ValidWeight(d.holdings[i].weight))
       || (exists i :: 0 <= i < |d.funds| && !ValidWeight(d.funds[i].weight)) then Some(InvalidWeight)
    else if Disclosed(d) > d.equity + TOLERANCE then Some(SecuritiesExceedEquity)
    else if d.equity + FundWeight(d) + d.cash > LIMIT then Some(WeightsExceed)
    else if Modelled(d) + d.cash > LIMIT then Some(ExplainedExceeds)
    else None
  }

  function UnresolvedSecurity(d: DayInput): real
  {
    MaxReal(0.0, Disclosed(d) - Sum(MappedWeights(d.holdings)))
  }

  function Missing(d: DayInput): real
  {
    MaxReal(0.0, Sum(MappedWeights(d.holdings)) - Sum(Priced(SecurityTerms(d.holdings))))
  }

  function CoverageOf(d: DayInput): Coverage
  {
    Coverage(
      Q(Disclosed(d)), Q(Sum(MappedWeights(d.holdings))), Q(Sum(Priced(SecurityTerms(d.holdings)))),
      Q(UnresolvedSecurity(d)), Q(Missing(d)), Q(Undisclosed(d)),
      Q(if d.proxies.Some? then Undisclosed(d) else 0.0), Q(FundWeight(d)), Q(Sum(Priced(FundTerms(d.funds)))),
      Q(Sum(Unpriced(FundTerms(d.funds)))), Q(d.cash), Q(MinReal(100.0, Modelled(d) + d.cash)))
  }

  function Predicted(d: DayInput): Option<real>
  {
    if Modelled(d) > 0.0
    then Some(Q(OrZero(SumOptional(SecurityTerms(d.holdings))) + OrZero(SumOptional(DayProxies(d)))
                + OrZero(SumOptional(FundTerms(d.funds)))))
    else None
  }

  function DayHalfWidth(d: DayInput, prior: seq<real>): real
  {
    HalfWidth(prior, UnresolvedSecurity(d) + Missing(d), Undisclosed(d), Sum(Priced(DayProxies(d))),
              Sum(Unpriced(FundTerms(d.funds))))
  }

  function ModeOf(d: DayInput): AnalysisMode
  {
    if d.navDate < d.published then Q2_EX_POST else Q2_LIVE
  }

  function ConfidenceIn(explained: real, history: nat, proxy: Option<ProxyConfidence>, proxyWeight: real): Confidence
  {
    if proxyWeight > 0.0 && proxy == Some(PROXY_LOW) then LOW_CONFIDENCE
    else if history < 5 || explained < 50.0 then LOW_CONFIDENCE
    else if history < 10 || explained < 80.0 || (proxyWeight > 0.0 && proxy == Some(PROXY_MEDIUM)) then MEDIUM
    else HIGH
  }

  function ConfidenceOf(d: DayInput, prior: seq<real>): Confidence
  {
    ConfidenceIn(MinReal(100.0, Modelled(d) + d.cash), |prior|,
                 if d.proxies.Some? then Some(d.proxyConfidence) else None,
                 if d.proxies.Some? then Undisclosed(d) else 0.0)
  }

  function Predict(d: DayInput, prior: seq<real>): Result<Prediction, PredictionError>
  {
    if Rejection(d).Some? then Err(Rejection(d).value)
    else
      var p, h := Predicted(d), DayHalfWidth(d, prior);
      Ok(Prediction(
           d.navDate, RoundedOption(d.actual), p,
           if p.Some? then Some(Q(p.value - h)) else None, if p.Some? then Some(Q(p.value + h)) else None,
           RoundedOption(SumOptional(SecurityTerms(d.holdings))), RoundedOption(SumOptional(DayProxies(d))),
           RoundedOption(SumOptional(FundTerms(d.funds))),
           if d.actual.Some? && p.Some? then Some(Q(d.actual.value - p.value)) else None,
           ModeOf(d), ConfidenceOf(d, prior), CoverageOf(d)))
  }

  method PredictDay(d: DayInput, prior: seq<real>) returns (r: Result<Prediction, PredictionError>)
    ensures r == Predict(d, prior)
  {
    hide Sum, Times, Priced, Unpriced, Rounded, AllWeights, MappedWeights, SumOptional, ProxyTerms, HalfWidth, Quantize;
    hide ValidWeight, SecurityTerms, FundTerms, ConfidenceIn;
    if !ValidWeight(d.equity) || !ValidWeight(d.cash) {
      return Err(InvalidWeight);
    }
    var ok := WeightsValid(AllWeights(SecurityTerms(d.holdings)));
    HoldingsValid(d.holdings);
    if !ok {
      return Err(InvalidWeight);
    }
    ok := WeightsValid(AllWeights(FundTerms(d.funds)));
    FundsValid(d.funds);
    if !ok {
      return Err(InvalidWeight);
    }
    var securities := SecurityTerms(d.holdings);
    var disclosed := Sum(AllWeights(securities));
    if disclosed > d.equity + TOLERANCE {
      return Err(SecuritiesExceedEquity);
    }
    var undisclosed := MaxReal(0.0, d.equity - disclosed);
    var proxies, pricedProxy := [], 0.0;
    if d.proxies.Some? {
      proxies, pricedProxy := AllocateProxies(undisclosed, d.proxies.value, d.proxyReturns);
    }
    assert pricedProxy == Sum(Priced(DayProxies(d))) by { NoTerms(); }
    var funds := FundTerms(d.funds);
    if d.equity + Sum(AllWeights(funds)) + d.cash > LIMIT {
      return Err(WeightsExceed);
    }
    var modelled := Sum(Priced(securities)) + pricedProxy + Sum(Priced(funds));
    if modelled + d.cash > LIMIT {
      return Err(ExplainedExceeds);
    }
    assert Rejection(d).None?;
    var known, proxy, fund := SumOptional(securities), SumOptional(proxies), SumOptional(funds);
    var predicted: Option<real> := None;
    if modelled > 0.0 {
      predicted := Some(Q(OrZero(known) + OrZero(proxy) + OrZero(fund)));
    }
    var lower, upper := PredictionInterval(
      predicted, prior, UnresolvedSecurity(d) + Missing(d), undisclosed, pricedProxy, Sum(Unpriced(funds)));
    var residual: Option<real> := None;
    if d.actual.Some? && predicted.Some? {
      residual := Some(Q(d.actual.value - predicted.value));
    }
    var confidence := ConfidenceIn(MinReal(100.0, modelled + d.cash), |prior|,
                                   if d.proxies.Some? then Some(d.proxyConfidence) else None,
                                   if d.proxies.Some? then undisclosed else 0.0);
    r := Ok(Prediction(d.navDate, RoundedOption(d.actual), predicted, lower, upper,
                       RoundedOption(known), RoundedOption(proxy), RoundedOption(fund), residual,
                       ModeOf(d), confidence, CoverageOf(d)));
  }

  method PredictionInterval(
      predicted: Option<real>, prior: seq<real>, unpriced: real, undisclosed: real, pricedProxy: real,
      unresolvedFund: real)
      returns (lower: Option<real>, upper: Option<real>)
    ensures predicted.None? ==> lower == None && upper == None
    ensures predicted.Some? ==>
      var h := HalfWidth(prior, unpriced, undisclosed, pricedProxy, unresolvedFund);
      lower == Some(Q(predicted.value - h)) && upper == Some(Q(predicted.value + h))
  {
    if predicted.None? {
      return None, None;
    }
    var recent := LastTen(prior);
    var halfWidth := MaxReal(BaseError(prior), 0.50) + unpriced * 0.03 + pricedProxy * 0.015
    + MaxReal(0.0, undisclosed - pricedProxy) * 0.04 + unresolvedFund * 0.03;
    if |recent| < 3 {
      halfWidth := halfWidth + 0.75;
    }
    return Some(Q(predicted.value - halfWidth)), Some(Q(predicted.value + halfWidth));
  }

  method WeightsValid(weights: seq<real>) returns (ok: bool)
    ensures ok <==> forall i :: 0 <= i < |weights| ==> ValidWeight(weights[i])
  {
    for i := 0 to |weights|
      invariant forall j :: 0 <= j < i ==> ValidWeight(weights[j])
    {
      if !ValidWeight(weights[i]) {
        return false;
      }
    }
    return true;
  }

  lemma HoldingsValid(holdings: seq<SecurityInput>)
    ensures (forall i :: 0 <= i < |holdings| ==> ValidWeight(AllWeights(SecurityTerms(holdings))[i]))
       <==> !(exists i :: 0 <= i < |holdings| && !ValidWeight(holdings[i].weight))
  {
    var ws := AllWeights(SecurityTerms(holdings));
    assert forall i :: 0 <= i < |holdings| ==> ws[i] == holdings[i].weight;
  }

  lemma FundsValid(funds: seq<FundInput>)
    ensures (forall i :: 0 <= i < |funds| ==> ValidWeight(AllWeights(FundTerms(funds))[i]))
       <==> !(exists i :: 0 <= i < |funds| && !ValidWeight(funds[i].weight))
  {
    var ws := AllWeights(FundTerms(funds));
    assert forall i :: 0 <= i < |funds| ==> ws[i] == funds[i].weight;
  }

  lemma NoTerms()
    ensures Sum(Priced([])) == 0.0
  {
  }
}
