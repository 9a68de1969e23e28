/** What a day's prediction is, said of the day's holdings, funds and proxies alone. */
module PredictorMeaning {
  import opened Sums
  import opened Decimals
  import opened Predictor
  import opened PredictorProperties

  // ---------- weights and returns of the day ----------

  datatype Line = EVERY | MAPPED | PRICED

  predicate HoldingCounts(h: SecurityInput, line: Line)
  {
    match line
    case EVERY => true
    case MAPPED => h.mapped
    case PRICED => h.ret.Some?
  }

  ghost function HeldWeights(holdings: seq<SecurityInput>, line: Line): (r: seq<real>)
    ensures |r| == |holdings|
  {
    seq(|holdings|, i requires 0 <= i < |holdings| =>
      if HoldingCounts(holdings[i], line) then holdings[i].weight else 0.0)
  }

  /** The weight of all holdings, of the mapped ones, or of those with a return. */
  ghost function Held(d: DayInput, line: Line): real
  {
    Sum(HeldWeights(d.holdings, line))
  }

  /** A fund counts as priced if it is resolved and has a return. */
  predicate FundCounts(f: FundInput, line: Line)
  {
    line == PRICED ==> !f.unresolved && f.ret.Some?
  }

  ghost function FundWeights(funds: seq<FundInput>, line: Line): (r: seq<real>)
    ensures |r| == |funds|
  {
    seq(|funds|, i requires 0 <= i < |funds| => if FundCounts(funds[i], line) then funds[i].weight else 0.0)
  }

  ghost function InFunds(d: DayInput, line: Line): real
  {
    Sum(FundWeights(d.funds, line))
  }

  /** The reported equity that no disclosed holding accounts for. */
  ghost function Rest(d: DayInput): real
  {
    var rest := d.equity - Held(d, EVERY);
    if rest > 0.0 then rest else 0.0
  }

  /** The last entry of the proxy's symbol has a return. */
  ghost predicate HasReturn(entries: seq<ProxyReturn>, symbol: string, ret: real)
  {
    exists j ::
      && 0 <= j < |entries| && entries[j].symbol == symbol && entries[j].ret == Some(ret)
      && forall i :: j < i < |entries| ==> entries[i].symbol != symbol
  }

  lemma {:induction false} LastReturnIs(entries: seq<ProxyReturn>, symbol: string, ret: real)
    ensures LastReturn(entries, symbol) == Some(ret) <==> HasReturn(entries, symbol, ret)
  {
    if entries != [] {
      var n := |entries| - 1;
      if entries[n].symbol != symbol {
        LastReturnIs(entries[..n], symbol, ret);
        if j :| 0 <= j < |entries| && entries[j].symbol == symbol && entries[j].ret == Some(ret)
                && forall i :: j < i < |entries| ==> entries[i].symbol != symbol {
          assert entries[..n][j] == entries[j];
        }
      } else {
        assert entries[n].ret == Some(ret) ==> HasReturn(entries, symbol, ret);
      }
    }
  }

  ghost predicate HasSomeReturn(entries: seq<ProxyReturn>, symbol: string)
  {
    exists ret :: HasReturn(entries, symbol, ret)
  }

  ghost function ProxyShares(d: DayInput): (r: seq<real>)
    requires d.proxies.Some?
    ensures |r| == |d.proxies.value|
  {
    seq(|d.proxies.value|, i requires 0 <= i < |d.proxies.value| =>
      if HasSomeReturn(d.proxyReturns, d.proxies.value[i].symbol) then d.proxies.value[i].weight else 0.0)
  }

  /** The part of the undisclosed equity that went to proxies with a return. */
  ghost function InProxies(d: DayInput): real
  {
    if d.proxies.Some? then Times(Rest(d), Sum(ProxyShares(d))) else 0.0
  }

  lemma SecuritiesAre(d: DayInput)
    ensures Disclosed(d) == Held(d, EVERY) && Undisclosed(d) == Rest(d)
    ensures Sum(MappedWeights(d.holdings)) == Held(d, MAPPED)
    ensures Sum(Priced(SecurityTerms(d.holdings))) == Held(d, PRICED)
  {
    hide Sum;
    assert AllWeights(SecurityTerms(d.holdings)) == HeldWeights(d.holdings, EVERY);
    assert MappedWeights(d.holdings) == HeldWeights(d.holdings, MAPPED);
    assert Priced(SecurityTerms(d.holdings)) == HeldWeights(d.holdings, PRICED);
  }

  lemma FundsAre(d: DayInput)
    ensures FundWeight(d) == InFunds(d, EVERY)
    ensures Sum(Priced(FundTerms(d.funds))) == InFunds(d, PRICED)
    ensures Sum(Unpriced(FundTerms(d.funds))) == InFunds(d, EVERY) - InFunds(d, PRICED)
  {
    PricedAndUnpriced(FundTerms(d.funds));
    hide Sum;
    assert AllWeights(FundTerms(d.funds)) == FundWeights(d.funds, EVERY);
    assert Priced(FundTerms(d.funds)) == FundWeights(d.funds, PRICED);
  }

  lemma LastReturnSome(entries: seq<ProxyReturn>, symbol: string)
    ensures LastReturn(entries, symbol).Some? <==> HasSomeReturn(entries, symbol)
  {
    hide LastReturn, HasReturn;
    if LastReturn(entries, symbol).Some? { LastReturnIs(entries, symbol, LastReturn(entries, symbol).value); }
    if ret :| HasReturn(entries, symbol, ret) { LastReturnIs(entries, symbol, ret); }
  }

  lemma ProxiesAre(d: DayInput)
    ensures Sum(Priced(DayProxies(d))) == InProxies(d)
    ensures d.proxies.Some? ==> PricedProxyWeights(d.proxies.value, d.proxyReturns) == ProxyShares(d)
  {
    SecuritiesAre(d);
    if d.proxies.Some? {
      hide Sum, Times, LastReturn, HasSomeReturn, Undisclosed, Rest;
      ProxiesPriced(Undisclosed(d), d.proxies.value, d.proxyReturns);
      forall i | 0 <= i < |d.proxies.value|
        ensures PricedProxyWeights(d.proxies.value, d.proxyReturns)[i] == ProxyShares(d)[i]
      {
        LastReturnSome(d.proxyReturns, d.proxies.value[i].symbol);
      }
      assert PricedProxyWeights(d.proxies.value, d.proxyReturns) == ProxyShares(d);
    } else {
      NoTerms();
    }
  }

  // ---------- the prediction ----------

  /** Weight times return, in percent, of every holding with a return. */
  ghost function SecurityParts(d: DayInput): (r: seq<real>)
    ensures |r| == |d.holdings|
  {
    seq(|d.holdings|, i requires 0 <= i < |d.holdings| =>
      if d.holdings[i].ret.Some? then d.holdings[i].weight * d.holdings[i].ret.value / 100.0 else 0.0)
  }

  /** The same of every resolved fund. */
  ghost function FundParts(d: DayInput): (r: seq<real>)
    ensures |r| == |d.funds|
  {
    seq(|d.funds|, i requires 0 <= i < |d.funds| =>
      if FundCounts(d.funds[i], PRICED) then d.funds[i].weight * d.funds[i].ret.value / 100.0 else 0.0)
  }

  /** The return of a symbol's last entry, or zero. */
  ghost function ReturnOf(entries: seq<ProxyReturn>, symbol: string): real
  {
    if ret :| HasReturn(entries, symbol, ret) then ret else 0.0
  }

  /** And of every proxy, on its share of the rest of the equity. */
  ghost function ProxyParts(d: DayInput): (r: seq<real>)
    ensures d.proxies.Some? ==> |r| == |d.proxies.value|
  {
    if d.proxies.None? then []
    else
      seq(|d.proxies.value|, i requires 0 <= i < |d.proxies.value| =>
        Rest(d) * d.proxies.value[i].weight * ReturnOf(d.proxyReturns, d.proxies.value[i].symbol) / 100.0)
  }

  lemma SecurityPartsAre(d: DayInput)
    ensures Exact(SecurityTerms(d.holdings)) == SecurityParts(d)
  {
    forall i | 0 <= i < |d.holdings| ensures Exact(SecurityTerms(d.holdings))[i] == SecurityParts(d)[i] {
    }
  }

  lemma FundPartsAre(d: DayInput)
    ensures Exact(FundTerms(d.funds)) == FundParts(d)
  {
    forall i | 0 <= i < |d.funds| ensures Exact(FundTerms(d.funds))[i] == FundParts(d)[i] {
    }
  }

  lemma ReturnOfIs(entries: seq<ProxyReturn>, symbol: string)
    ensures ReturnOf(entries, symbol) == OrZero(LastReturn(entries, symbol))
  {
    hide LastReturn, HasReturn;
    if ret :| HasReturn(entries, symbol, ret) {
      LastReturnIs(entries, symbol, ReturnOf(entries, symbol));
    } else if LastReturn(entries, symbol).Some? {
      LastReturnIs(entries, symbol, LastReturn(entries, symbol).value);
    }
  }

  lemma ProxyPartIs(u: real, w: real, r: Option<real>)
    ensures (if r.Some? then Contribution(Term(Times(u, w), r)) else 0.0) == u * w * OrZero(r) / 100.0
  {
  }

  lemma ProxyPartsAre(d: DayInput)
    ensures Exact(DayProxies(d)) == ProxyParts(d)
  {
    SecuritiesAre(d);
    if d.proxies.Some? {
      hide Rest, Undisclosed, LastReturn, ReturnOf, Contribution, Times;
      forall i | 0 <= i < |d.proxies.value| ensures Exact(DayProxies(d))[i] == ProxyParts(d)[i] {
        var p := d.proxies.value[i];
        ReturnOfIs(d.proxyReturns, p.symbol);
        ProxyPartIs(Rest(d), p.weight, LastReturn(d.proxyReturns, p.symbol));
      }
    }
  }

  /** How many of the lines have a return. */
  ghost function Lines(d: DayInput): nat
  {
    |set i | 0 <= i < |d.holdings| && d.holdings[i].ret.Some?|
    + |set i | 0 <= i < |d.funds| && FundCounts(d.funds[i], PRICED)|
    + (if d.proxies.None? then 0
       else |set i | 0 <= i < |d.proxies.value| && HasSomeReturn(d.proxyReturns, d.proxies.value[i].symbol)|)
  }

  lemma {:induction false} CountIs(terms: seq<Term>, s: set<int>)
    requires forall i :: i in s <==> 0 <= i < |terms| && terms[i].ret.Some?
    ensures PricedCount(terms) == |s|
    decreases |terms|
  {
    if terms == [] {
      assert forall i :: i in s ==> 0 <= i < |terms|;
      assert |s| == 0 by { assert forall i :: i !in s; }
    } else {
      var n := |terms| - 1;
      CountIs(terms[..n], s - {n});
    }
  }

  lemma LinesAre(d: DayInput)
    ensures PricedLines(d) == Lines(d)
  {
    CountIs(SecurityTerms(d.holdings), set i | 0 <= i < |d.holdings| && d.holdings[i].ret.Some?);
    CountIs(FundTerms(d.funds), set i | 0 <= i < |d.funds| && FundCounts(d.funds[i], PRICED));
    if d.proxies.Some? {
      hide LastReturn, HasSomeReturn;
      forall i | 0 <= i < |d.proxies.value|
        ensures HasSomeReturn(d.proxyReturns, d.proxies.value[i].symbol) <==> DayProxies(d)[i].ret.Some?
      {
        LastReturnSome(d.proxyReturns, d.proxies.value[i].symbol);
      }
      CountIs(DayProxies(d),
              set i | 0 <= i < |d.proxies.value| && HasSomeReturn(d.proxyReturns, d.proxies.value[i].symbol));
    }
  }

  /** The predicted return misses the sum of weight times return over all holdings, proxies and
      resolved funds with a return by at most half a step for each of them. */
  lemma PredictionIs(d: DayInput, prior: seq<real>)
    requires Predict(d, prior).Ok? && Predict(d, prior).value.predicted.Some?
    ensures var p := Predict(d, prior).value.predicted.value;
            && OnGrid(p, QUANTITY_SCALE)
            && Abs(p - (Sum(SecurityParts(d)) + Sum(ProxyParts(d)) + Sum(FundParts(d)))) <= HALF_STEP * Lines(d) as real
  {
    hide Sum, Exact, Predicted, Rejection, DayHalfWidth, CoverageOf, SumOptional, RoundedOption, ConfidenceOf, OnGrid;
    hide SecurityParts, ProxyParts, FundParts, PricedLines, Lines, SecurityTerms, FundTerms, DayProxies;
    PredictionBound(d);
    SecurityPartsAre(d);
    ProxyPartsAre(d);
    FundPartsAre(d);
    LinesAre(d);
  }

  /** Each reported contribution is that of its own lines. */
  lemma ContributionsAre(d: DayInput, prior: seq<real>)
    requires Predict(d, prior).Ok?
    ensures var r := Predict(d, prior).value;
            && Abs(OrZero(r.known) - Sum(SecurityParts(d))) <= HALF_STEP * |d.holdings| as real
            && Abs(OrZero(r.fund) - Sum(FundParts(d))) <= HALF_STEP * |d.funds| as real
            && (d.proxies.Some?
                ==> Abs(OrZero(r.proxy) - Sum(ProxyParts(d))) <= HALF_STEP * |d.proxies.value| as real)
  {
    hide Sum, Exact, Predicted, Rejection, DayHalfWidth, CoverageOf, SumOptional, RoundedOption, ConfidenceOf;
    hide SecurityParts, ProxyParts, FundParts, DayProxies;
    SecurityPartsAre(d);
    ProxyPartsAre(d);
    FundPartsAre(d);
    ContributionClose(SecurityTerms(d.holdings));
    ContributionClose(FundTerms(d.funds));
    if d.proxies.Some? { ContributionClose(DayProxies(d)); }
    assert d.proxies.Some? ==> |DayProxies(d)| == |d.proxies.value| by { DayProxiesCount(d); }
  }

  lemma DayProxiesCount(d: DayInput)
    ensures d.proxies.Some? ==> |DayProxies(d)| == |d.proxies.value|
  {
  }

  lemma ContributionClose(terms: seq<Term>)
    ensures Abs(OrZero(RoundedOption(SumOptional(terms))) - Sum(Exact(terms))) <= HALF_STEP * |terms| as real
  {
    hide Sum, Exact, Rounded, SumOptional, RoundedOption, PricedCount;
    ReportedIsSum(terms);
    RoundedClose(terms);
    CountAtMost(terms);
  }

  lemma {:induction false} CountAtMost(terms: seq<Term>)
    ensures PricedCount(terms) <= |terms|
  {
    if terms != [] { CountAtMost(terms[..|terms| - 1]); }
  }

  /** A return is predicted exactly when something with a positive weight has a return: a holding, a
      resolved fund, or a proxy while some of the equity is undisclosed. */
  lemma PredictedIff(d: DayInput, prior: seq<real>)
    requires Predict(d, prior).Ok? && ProxiesPositive(d)
    ensures Predict(d, prior).value.predicted.Some?
       <==> (exists h :: h in d.holdings && h.ret.Some? && h.weight > 0.0)
            || (exists f :: f in d.funds && FundCounts(f, PRICED) && f.weight > 0.0)
            || (d.proxies.Some? && Rest(d) > 0.0
                && exists p :: p in d.proxies.value && HasSomeReturn(d.proxyReturns, p.symbol))
  {
    hide Sum, Predicted, Rejection, DayHalfWidth, CoverageOf, SumOptional, RoundedOption, ConfidenceOf, HasSomeReturn;
    hide Rest, HasRisk, ProxiesPositive;
    PredictedIffRisk(d);
    SecurityRisk(d);
    FundRisk(d);
    ProxyRisk(d);
  }

  lemma SecurityRisk(d: DayInput)
    ensures HasRisk(SecurityTerms(d.holdings)) <==> exists h :: h in d.holdings && h.ret.Some? && h.weight > 0.0
  {
    var terms := SecurityTerms(d.holdings);
    if i :| 0 <= i < |terms| && terms[i].ret.Some? && terms[i].weight > 0.0 { assert d.holdings[i] in d.holdings; }
    if h :| h in d.holdings && h.ret.Some? && h.weight > 0.0 {
      var i :| 0 <= i < |d.holdings| && d.holdings[i] == h;
      assert terms[i].ret.Some? && terms[i].weight > 0.0;
    }
  }

  lemma FundRisk(d: DayInput)
    ensures HasRisk(FundTerms(d.funds)) <==> exists f :: f in d.funds && FundCounts(f, PRICED) && f.weight > 0.0
  {
    var terms := FundTerms(d.funds);
    if i :| 0 <= i < |terms| && terms[i].ret.Some? && terms[i].weight > 0.0 { assert d.funds[i] in d.funds; }
    if f :| f in d.funds && FundCounts(f, PRICED) && f.weight > 0.0 {
      var i :| 0 <= i < |d.funds| && d.funds[i] == f;
      assert terms[i].ret.Some? && terms[i].weight > 0.0;
    }
  }

  lemma ProductSign(u: real, w: real)
    requires u >= 0.0 && w > 0.0
    ensures Times(u, w) > 0.0 <==> u > 0.0
  {
  }

  lemma ProxyRisk(d: DayInput)
    requires ProxiesPositive(d)
    ensures HasRisk(DayProxies(d))
       <==> d.proxies.Some? && Rest(d) > 0.0
            && exists p :: p in d.proxies.value && HasSomeReturn(d.proxyReturns, p.symbol)
  {
    SecuritiesAre(d);
    if d.proxies.Some? {
      var terms, proxies := DayProxies(d), d.proxies.value;
      assert Rest(d) >= 0.0;
      hide Rest, Undisclosed, LastReturn, HasSomeReturn, Times;
      forall i | 0 <= i < |proxies|
        ensures terms[i].weight > 0.0 <==> Rest(d) > 0.0
        ensures terms[i].ret.Some? <==> HasSomeReturn(d.proxyReturns, proxies[i].symbol)
      {
        ProductSign(Rest(d), proxies[i].weight);
        LastReturnSome(d.proxyReturns, proxies[i].symbol);
      }
      if i :| 0 <= i < |terms| && terms[i].ret.Some? && terms[i].weight > 0.0 { assert proxies[i] in proxies; }
      if p :| p in proxies && HasSomeReturn(d.proxyReturns, p.symbol) {
        var i :| 0 <= i < |proxies| && proxies[i] == p;
        assert terms[i].ret.Some?;
      }
    }
  }

  // ---------- which days are accepted ----------

  ghost predicate WeightsWithin(d: DayInput)
  {
    && 0.0 <= d.equity <= 100.05 && 0.0 <= d.cash <= 100.05
    && (forall h :: h in d.holdings ==> 0.0 <= h.weight <= 100.05)
    && (forall f :: f in d.funds ==> 0.0 <= f.weight <= 100.05)
  }

  /** A day is rejected for the first of four reasons that applies: a weight outside 0 to 100.05,
      holdings above the equity by more than 0.05, reported weights above 100.05, or explained ones. */
  lemma RejectedIff(d: DayInput, prior: seq<real>)
    ensures var r := Predict(d, prior);
            if !WeightsWithin(d) then r == Err(InvalidWeight)
            else if Held(d, EVERY) > d.equity + 0.05 then r == Err(SecuritiesExceedEquity)
            else if d.equity + InFunds(d, EVERY) + d.cash > 100.05 then r == Err(WeightsExceed)
            else if Held(d, PRICED) + InProxies(d) + InFunds(d, PRICED) + d.cash > 100.05
            then r == Err(ExplainedExceeds)
            else r.Ok?
  {
    SecuritiesAre(d);
    FundsAre(d);
    ProxiesAre(d);
    WithinIff(d);
    hide Predicted, CoverageOf, DayHalfWidth, RoundedOption, SumOptional, ConfidenceOf, ModeOf, Q, WeightsWithin;
    hide Disclosed, FundWeight, Held, InFunds, InProxies, DayProxies, Priced, Sum, SecurityTerms, FundTerms;
    hide ValidWeight;
  }

  lemma WithinIff(d: DayInput)
    ensures WeightsWithin(d)
       <==> ValidWeight(d.equity) && ValidWeight(d.cash)
            && !(exists i :: 0 <= i < |d.holdings| && !ValidWeight(d.holdings[i].weight))
            && !(exists i :: 0 <= i < |d.funds| && !ValidWeight(d.funds[i].weight))
  {
    if WeightsWithin(d) {
      assert forall i :: 0 <= i < |d.holdings| ==> d.holdings[i] in d.holdings;
      assert forall i :: 0 <= i < |d.funds| ==> d.funds[i] in d.funds;
    }
  }

  // ---------- coverage ----------

  ghost predicate Within(reported: real, exact: real)
  {
    Abs(reported - exact) <= HALF_STEP
  }

  /** Every reported weight is what it is called, up to half a step. */
  lemma CoverageIs(d: DayInput, prior: seq<real>)
    requires Predict(d, prior).Ok? && PricedAreMapped(d)
    ensures var c := Predict(d, prior).value.coverage;
            && Within(c.disclosed, Held(d, EVERY)) && Within(c.mapped, Held(d, MAPPED))
            && Within(c.priced, Held(d, PRICED)) && Within(c.missing, Held(d, MAPPED) - Held(d, PRICED))
            && Within(c.unresolvedSecurity, Held(d, EVERY) - Held(d, MAPPED))
            && Within(c.undisclosed, Rest(d)) && Within(c.proxy, if d.proxies.Some? then Rest(d) else 0.0)
            && Within(c.fund, InFunds(d, EVERY)) && Within(c.resolvedFund, InFunds(d, PRICED))
            && Within(c.unresolvedFund, InFunds(d, EVERY) - InFunds(d, PRICED)) && Within(c.cash, d.cash)
            && Within(c.explained, MinReal(100.0, Held(d, PRICED) + InProxies(d) + InFunds(d, PRICED) + d.cash))
  {
    SecuritiesAre(d);
    FundsAre(d);
    ProxiesAre(d);
    MissingIs(d);
    hide Predicted, DayHalfWidth, RoundedOption, SumOptional, ConfidenceOf, ModeOf, Q, Rejection, PricedAreMapped;
    hide Disclosed, FundWeight, Undisclosed, Missing, UnresolvedSecurity, Held, InFunds, InProxies, Rest, Sum;
    hide DayProxies;
    hide Priced, Unpriced, MappedWeights, SecurityTerms, FundTerms;
    CoverageError(d);
    QError(Held(d, MAPPED));
    QError(if d.proxies.Some? then Rest(d) else 0.0);
    QError(d.cash);
    QError(MinReal(100.0, Held(d, PRICED) + InProxies(d) + InFunds(d, PRICED) + d.cash));
  }

  lemma MissingIs(d: DayInput)
    requires Rejection(d).None? && PricedAreMapped(d)
    ensures Missing(d) == Held(d, MAPPED) - Held(d, PRICED)
    ensures UnresolvedSecurity(d) == Held(d, EVERY) - Held(d, MAPPED)
  {
    SecuritiesAre(d);
    var p, m, a := HeldWeights(d.holdings, PRICED), HeldWeights(d.holdings, MAPPED), HeldWeights(d.holdings, EVERY);
    hide Sum, DayProxies, Modelled, Disclosed, FundWeight;
    assert forall i :: 0 <= i < |m| ==> p[i] <= m[i] && m[i] <= a[i];
    SumSeqMonotone(p, m);
    SumSeqMonotone(m, a);
  }

  // ---------- the interval, the confidence and the mode ----------

  /** The half width: the recent mean error, at least half a point and one and a half without three
      residuals, plus 3 percent of what no return was found for, 4 of the undisclosed equity that
      no proxy covers and 1.5 of that which one does, plus three quarters without three residuals. */
  ghost function Charged(d: DayInput, prior: seq<real>): real
  {
    var error := if |prior| >= 3 then RecentError(prior) else 1.5;
    (if error >= 0.5 then error else 0.5)
    + 0.03 * (Held(d, EVERY) - Held(d, PRICED)) + 0.03 * (InFunds(d, EVERY) - InFunds(d, PRICED))
    + 0.04 * (if Rest(d) > InProxies(d) then Rest(d) - InProxies(d) else 0.0) + 0.015 * InProxies(d)
    + (if |prior| >= 3 then 0.0 else 0.75)
  }

  lemma IntervalIs(d: DayInput, prior: seq<real>)
    requires Predict(d, prior).Ok? && PricedAreMapped(d) && Predict(d, prior).value.predicted.Some?
    ensures var r := Predict(d, prior).value;
            && r.lower.Some? && Within(r.lower.value, r.predicted.value - Charged(d, prior))
            && r.upper.Some? && Within(r.upper.value, r.predicted.value + Charged(d, prior))
  {
    ChargedIs(d, prior);
    hide Predicted, DayHalfWidth, RoundedOption, SumOptional, ConfidenceOf, ModeOf, Q, Rejection, CoverageOf, Charged;
    hide PricedAreMapped;
    QError(Predicted(d).value - DayHalfWidth(d, prior));
    QError(Predicted(d).value + DayHalfWidth(d, prior));
  }

  lemma ChargedIs(d: DayInput, prior: seq<real>)
    requires Rejection(d).None? && PricedAreMapped(d)
    ensures DayHalfWidth(d, prior) == Charged(d, prior)
  {
    SecuritiesAre(d);
    FundsAre(d);
    ProxiesAre(d);
    MissingIs(d);
    hide Rejection, Held, InFunds, InProxies, Rest, Sum, DayProxies, Priced, Unpriced, SecurityTerms, FundTerms;
    hide Undisclosed, Missing, UnresolvedSecurity, PricedAreMapped, AbsAll;
  }

  /** High confidence takes ten residuals, 80 percent explained and proxies of high quality if any
      equity is left to them; low confidence comes from fewer than five, less than 50, or such
      proxies of low quality; anything else is medium. */
  lemma ConfidenceIs(d: DayInput, prior: seq<real>)
    requires Predict(d, prior).Ok?
    ensures var c, explained := Predict(d, prior).value.confidence,
                                Held(d, PRICED) + InProxies(d) + InFunds(d, PRICED) + d.cash;
            var judged := d.proxies.Some? && Rest(d) > 0.0;
            && (c == HIGH <==> |prior| >= 10 && explained >= 80.0 && (judged ==> d.proxyConfidence == PROXY_HIGH))
            && (c == LOW_CONFIDENCE
                <==> |prior| < 5 || explained < 50.0 || (judged && d.proxyConfidence == PROXY_LOW))
  {
    SecuritiesAre(d);
    FundsAre(d);
    ProxiesAre(d);
    hide Predicted, DayHalfWidth, RoundedOption, SumOptional, ModeOf, Q, Rejection, CoverageOf;
    hide Held, InFunds, InProxies, Rest, Sum, DayProxies, Priced, Unpriced, SecurityTerms, FundTerms, Undisclosed;
  }

  /** With both an actual and a predicted return the residual is their difference, and only then. */
  lemma OutcomeIs(d: DayInput, prior: seq<real>)
    requires Predict(d, prior).Ok?
    ensures var r := Predict(d, prior).value;
            && (r.residual.Some? <==> d.actual.Some? && r.predicted.Some?)
            && (r.residual.Some? ==> Within(r.residual.value, d.actual.value - r.predicted.value))
            && (r.actual.Some? <==> d.actual.Some?) && (r.actual.Some? ==> Within(r.actual.value, d.actual.value))
            && r.navDate == d.navDate
  {
    hide Predicted, DayHalfWidth, SumOptional, Q, Rejection, CoverageOf, ConfidenceOf;
    if d.actual.Some? {
      QError(d.actual.value);
      if Predicted(d).Some? { QError(d.actual.value - Predicted(d).value); }
    }
  }

  /** A day before the report was public is predicted after the fact. */
  lemma ModeIs(d: DayInput, prior: seq<real>)
    requires Predict(d, prior).Ok?
    ensures Predict(d, prior).value.mode == Q2_EX_POST <==> d.navDate < d.published
  {
    hide Predicted, DayHalfWidth, RoundedOption, SumOptional, Q, Rejection, CoverageOf, ConfidenceOf;
  }
}
