/** The per-position valuation of the portfolio page (backend/app/api.py:1541-1641).

    A position keeps the amounts its platform reported at a snapshot; later NAVs and recurring
    purchases are added to them. Amounts are rounded to whole cents at every step. */
module Valuation {
  import opened Sums
  import opened Decimals

  /** What one recurring purchase bought and cost. */
  datatype Execution = Execution(units: real, gross: real)

  datatype Position = Position(
    currency: string, units: real, anchorNav: real, market: real, profit: real, returnPct: real,
    cumulativeProfit: Option<real>, executions: seq<Execution>)

  datatype Estimate = Estimate(
    market: real, profit: real, cumulativeProfit: Option<real>, change: real, costBasis: Option<real>, returnPct: real)

  function Money(x: real): real
  {
    Quantize(x, CENTS)
  }

  ghost predicate WholeCents(x: real)
  {
    OnGrid(x, CENTS)
  }

  function Units(executions: seq<Execution>): (r: seq<real>)
    ensures |r| == |executions|
  {
    seq(|executions|, i requires 0 <= i < |executions| => executions[i].units)
  }

  function Grosses(executions: seq<Execution>): (r: seq<real>)
    ensures |r| == |executions|
  {
    seq(|executions|, i requires 0 <= i < |executions| => executions[i].gross)
  }

  /** The cost the platform's own return implies, or else market value less profit. */
  function SnapshotCostBasis(p: Position): Option<real>
  {
    var ordinary := p.market - p.profit;
    if p.returnPct != 0.0 && p.profit * 100.0 / p.returnPct > 0.0 then Some(p.profit * 100.0 / p.returnPct)
    else if ordinary > 0.0 then Some(ordinary)
    else None
  }

  function ReturnPct(p: Position, baseChange: real, gross: real, profit: real): real
  {
    var cost := SnapshotCostBasis(p);
    if baseChange == 0.0 && gross == 0.0 then p.returnPct
    else if cost.Some? && cost.value + gross > 0.0 then profit * 100.0 / (cost.value + gross)
    else p.returnPct
  }

  function Valued(p: Position, nav: real): Estimate
  {
    var gross := Sum(Grosses(p.executions));
    var baseChange := Money(Times(p.units, nav - p.anchorNav));
    var recurringMarket := Money(Times(Sum(Units(p.executions)), nav));
    var market := Money(p.market + baseChange + recurringMarket);
    var recurringProfit := Money(recurringMarket - gross);
    var profit := Money(Money(p.profit + baseChange) + recurringProfit);
    var cumulative := if p.cumulativeProfit.Some?
                      then Some(Money(p.cumulativeProfit.value + baseChange + recurringProfit)) else None;
    var cost := SnapshotCostBasis(p);
    Estimate(market, profit, cumulative, Money(market - p.market),
             if cost.Some? then Some(cost.value + gross) else None,
             ReturnPct(p, baseChange, gross, profit))
  }

  // ---------- cents ----------

  lemma MoneyError(x: real)
    ensures Abs(Money(x) - x) <= 0.005
    ensures WholeCents(Money(x)) && (WholeCents(x) ==> Money(x) == x)
  {
    hide Quantize, OnGrid;
    QuantizeError(x, CENTS);
    QuantizeOnGrid(x, CENTS);
  }

  /** The two cash identities behind the estimate, over the roundings of the block. */
  lemma EstimateRoundings(m: real, p: real, g: real, change: real, recurring: real)
    requires WholeCents(change) && WholeCents(recurring)
    ensures var market, base, bought := Money(m + change + recurring), Money(p + change), Money(recurring - g);
            Money(base + bought) == base + bought
            && Abs(market - (base + bought) - (m - p + g)) <= 0.015
            && (WholeCents(m) && WholeCents(p) && WholeCents(g) ==> market - (base + bought) == m - p + g)
  {
    hide Money, WholeCents;
    MoneyError(m + change + recurring);
    MoneyError(p + change);
    MoneyError(recurring - g);
    CentsClosed(Money(p + change), Money(recurring - g));
    MoneyError(Money(p + change) + Money(recurring - g));
    if WholeCents(m) && WholeCents(p) && WholeCents(g) {
      CentsClosed(m, change);
      CentsClosed(m + change, recurring);
      CentsClosed(p, change);
      CentsClosed(recurring, g);
    }
  }

  lemma CentsClosed(x: real, y: real)
    requires WholeCents(x) && WholeCents(y)
    ensures WholeCents(x + y) && WholeCents(x - y)
  {
    hide OnGrid;
    GridClosed(x, y, CENTS);
  }

  // ---------- the valuation keeps the invested capital ----------

  /** Market value less profit is the capital put in. Whatever the NAV does, the estimate moves
      that capital by the gross amount of the recurring purchases, up to three half cents, and
      by exactly that amount when the reported amounts and the purchases are whole cents. */
  lemma CapitalConserved(p: Position, nav: real)
    ensures var e, gross := Valued(p, nav), Sum(Grosses(p.executions));
            Abs((e.market - e.profit) - (p.market - p.profit + gross)) <= 0.015
            && (WholeCents(p.market) && WholeCents(p.profit) && WholeCents(gross)
                ==> e.market - e.profit == p.market - p.profit + gross)
  {
    hide Money, WholeCents, Sum, Times, ReturnPct, SnapshotCostBasis;
    var change, recurring := Times(p.units, nav - p.anchorNav), Times(Sum(Units(p.executions)), nav);
    MoneyError(change);
    MoneyError(recurring);
    EstimateRoundings(p.market, p.profit, Sum(Grosses(p.executions)), Money(change), Money(recurring));
  }

  /** The estimate follows the NAV: the market value is the reported one plus the move of the
      reported units plus all purchased units at the new NAV, the profit the same less what the
      purchases cost, and the change is the move of the market value. */
  lemma EstimateFollowsNav(p: Position, nav: real)
    ensures var e, move := Valued(p, nav), Times(p.units, nav - p.anchorNav) + Times(Sum(Units(p.executions)), nav);
            && Abs(e.market - (p.market + move)) <= 0.015
            && Abs(e.profit - (p.profit + move - Sum(Grosses(p.executions)))) <= 0.02
            && Abs(e.change - (e.market - p.market)) <= 0.005
            && (WholeCents(p.market) ==> e.change == e.market - p.market)
  {
    hide Money, WholeCents, Sum, Times, ReturnPct, SnapshotCostBasis;
    var change, recurring := Times(p.units, nav - p.anchorNav), Times(Sum(Units(p.executions)), nav);
    var gross := Sum(Grosses(p.executions));
    MoneyError(change);
    MoneyError(recurring);
    MoneyError(p.market + Money(change) + Money(recurring));
    MoneyError(p.profit + Money(change));
    MoneyError(Money(recurring) - gross);
    CentsClosed(Money(p.profit + Money(change)), Money(Money(recurring) - gross));
    MoneyError(Money(p.profit + Money(change)) + Money(Money(recurring) - gross));
    MoneyError(Money(p.market + Money(change) + Money(recurring)) - p.market);
    if WholeCents(p.market) { CentsClosed(Money(p.market + Money(change) + Money(recurring)), p.market); }
  }

  /** With every purchase in whole cents their total is too. */
  lemma PurchasesInCents(executions: seq<Execution>)
    requires forall e :: e in executions ==> WholeCents(e.gross)
    ensures WholeCents(Sum(Grosses(executions)))
  {
    hide OnGrid;
    GridSum(Grosses(executions), CENTS);
  }

  /** The error of rounding `x`, moved by whole cents `k`, to cents: that of rounding `x` itself,
      unless `x` lies on a half cent; then half a cent away from zero. */
  ghost function CentError(x: real, k: real): real
  {
    if OnHalfStep(x, CENTS) then (if x + k >= 0.0 then 0.005 else -0.005) else Money(x) - x
  }

  lemma CentErrorIs(x: real, k: real)
    requires WholeCents(k)
    ensures Money(x + k) == x + k + CentError(x, k)
  {
    hide Quantize, OnHalfStep, OnGrid;
    QuantizeOfShift(x, k, CENTS);
    assert FromSteps(0.5, CENTS) == 0.005;
  }

  /** The cents by which market value less profit misses the invested capital, exactly: they come
      from rounding the reported market value, the reported profit and the gross amount alone. */
  ghost function CapitalError(p: Position, nav: real): real
  {
    var change := Money(Times(p.units, nav - p.anchorNav));
    var recurring := Money(Times(Sum(Units(p.executions)), nav));
    CentError(p.market, change + recurring) - CentError(p.profit, change)
    + CentError(Sum(Grosses(p.executions)), -recurring)
  }

  lemma CapitalErrorIs(p: Position, nav: real)
    ensures var e := Valued(p, nav);
            (e.market - e.profit) - (p.market - p.profit + Sum(Grosses(p.executions))) == CapitalError(p, nav)
  {
    hide Money, WholeCents, Sum, Times, ReturnPct, SnapshotCostBasis, CentError;
    var a, b := Times(p.units, nav - p.anchorNav), Times(Sum(Units(p.executions)), nav);
    var change, recurring, gross := Money(a), Money(b), Sum(Grosses(p.executions));
    MoneyError(a);
    MoneyError(b);
    CentsClosed(change, recurring);
    CentErrorIs(p.market, change + recurring);
    CentErrorIs(p.profit, change);
    CentsNegate(recurring);
    CentErrorIs(gross, -recurring);
    MoneyOdd(gross - recurring);
    MoneyError(p.profit + change);
    MoneyError(recurring - gross);
    CentsClosed(Money(p.profit + change), Money(recurring - gross));
    MoneyError(Money(p.profit + change) + Money(recurring - gross));
  }

  lemma CentsNegate(x: real)
    requires WholeCents(x)
    ensures WholeCents(-x)
  {
    hide OnGrid;
    GridNegates(x, CENTS);
  }

  lemma MoneyOdd(x: real)
    ensures Money(-x) == -Money(x)
  {
    hide Quantize;
    QuantizeOdd(x, CENTS);
  }

  /** The capital is kept exactly if and only if the three rounding errors cancel. When none of
      the three amounts lies on a half cent, that is a test on the amounts alone, whatever the
      NAV: rounding them to cents first must not change their balance. */
  lemma CapitalExactIff(p: Position, nav: real)
    ensures var e, m, r, g := Valued(p, nav), p.market, p.profit, Sum(Grosses(p.executions));
            (e.market - e.profit == m - r + g <==> CapitalError(p, nav) == 0.0)
            && (!OnHalfStep(m, CENTS) && !OnHalfStep(r, CENTS) && !OnHalfStep(g, CENTS)
                ==> (e.market - e.profit == m - r + g <==> Money(m) - Money(r) + Money(g) == m - r + g))
  {
    hide Valued, Money, Sum, OnHalfStep;
    CapitalErrorIs(p, nav);
  }

  /** Whole cents are sufficient, but not necessary, and six digits are not enough. */
  lemma CentsAreNotNecessary(nav: real)
    ensures var kept, lost := Bare(0.004, 0.004), Bare(0.004, 0.0);
            && !WholeCents(0.004)
            && Valued(kept, nav).market - Valued(kept, nav).profit == kept.market - kept.profit
            && Valued(lost, nav).market - Valued(lost, nav).profit != lost.market - lost.profit
  {
    BareAmounts(0.004, 0.004);
    BareAmounts(0.004, 0.0);
    CapitalExactIff(Bare(0.004, 0.004), nav);
    CapitalExactIff(Bare(0.004, 0.0), nav);
    FourMills();
  }

  /** A position without purchases. */
  function Bare(market: real, profit: real): Position
  {
    Position("CNY", 1.0, 1.0, market, profit, 0.0, None, [])
  }

  lemma BareAmounts(market: real, profit: real)
    ensures Sum(Grosses(Bare(market, profit).executions)) == 0.0
  {
    assert Grosses([]) == [];
  }

  lemma FourMills()
    ensures Money(0.004) == 0.0 && Money(0.0) == 0.0 && !WholeCents(0.004)
    ensures !OnHalfStep(0.004, CENTS) && !OnHalfStep(0.0, CENTS)
  {
    assert Steps(0.004, CENTS) == 0.4 && (0.4 + 0.5).Floor == 0 && (0.0 + 0.5).Floor == 0 && 0.4.Floor == 0;
  }

  /** The bound of three half cents is attained. */
  lemma BoundIsSharp()
    ensures var p := Position("CNY", 1.0, 1.0, 0.005, -0.005, 0.0, None, [Execution(0.02, 0.025)]);
            var e := Valued(p, 1.0);
            (e.market - e.profit) - (p.market - p.profit + Sum(Grosses(p.executions))) == 0.015
  {
    var executions := [Execution(0.02, 0.025)];
    assert Grosses(executions) == [0.025] && Units(executions) == [0.02];
    assert [0.025][..0] == [] && [0.02][..0] == [];
    assert Sum([0.025]) == 0.025 && Sum([0.02]) == 0.02;
    HalfCents();
  }

  lemma HalfCents()
    ensures Money(0.0) == 0.0 && Money(0.02) == 0.02 && Money(0.025) == 0.03 && Money(0.04) == 0.04
    ensures Money(-0.005) == -0.01 && Money(-0.02) == -0.02
  {
    assert (0.5 + 0.5).Floor == 1 && (0.0 + 0.5).Floor == 0 && (2.0 + 0.5).Floor == 2;
    assert (2.5 + 0.5).Floor == 3 && (4.0 + 0.5).Floor == 4;
  }

  /** Reported and estimated cumulative profit differ from the plain profit by the same amount. */
  lemma CumulativeFollowsProfit(p: Position, nav: real)
    requires p.cumulativeProfit.Some?
    ensures var e := Valued(p, nav);
            e.cumulativeProfit.Some?
            && Abs((e.cumulativeProfit.value - e.profit) - (p.cumulativeProfit.value - p.profit)) <= 0.01
            && (WholeCents(p.cumulativeProfit.value) && WholeCents(p.profit)
                ==> e.cumulativeProfit.value - e.profit == p.cumulativeProfit.value - p.profit)
  {
    hide Money, WholeCents, Sum, Times, ReturnPct, SnapshotCostBasis;
    var change := Money(Times(p.units, nav - p.anchorNav));
    var recurring := Money(Times(Sum(Units(p.executions)), nav));
    var bought := Money(recurring - Sum(Grosses(p.executions)));
    MoneyError(Times(p.units, nav - p.anchorNav));
    MoneyError(recurring - Sum(Grosses(p.executions)));
    MoneyError(p.profit + change);
    CentsClosed(Money(p.profit + change), bought);
    MoneyError(Money(p.profit + change) + bought);
    MoneyError(p.cumulativeProfit.value + change + bought);
    if WholeCents(p.cumulativeProfit.value) && WholeCents(p.profit) {
      CentsClosed(p.profit, change);
      CentsClosed(p.cumulativeProfit.value, change);
      CentsClosed(p.cumulativeProfit.value + change, bought);
    }
  }

  // ---------- the estimated return ----------

  predicate SameSign(x: real, y: real)
  {
    (x > 0.0 && y > 0.0) || (x < 0.0 && y < 0.0) || (x == 0.0 && y == 0.0)
  }

  /** A cost basis is positive. Back at the reported profit without purchases, the platform's own
      return comes out again exactly when the rounded move of the NAV is nothing, that return has
      the sign of the profit, or there is no cost to divide by. */
  lemma ReturnIsContinuousIff(p: Position, baseChange: real)
    ensures SnapshotCostBasis(p).Some? ==> SnapshotCostBasis(p).value > 0.0
    ensures ReturnPct(p, baseChange, 0.0, p.profit) == p.returnPct
       <==> baseChange == 0.0 || SameSign(p.profit, p.returnPct) || p.market <= p.profit
  {
    if p.returnPct != 0.0 {
      QuotientSign(p.profit * 100.0, p.returnPct);
      if p.profit * 100.0 / p.returnPct > 0.0 { QuotientBack(p.profit * 100.0, p.returnPct); }
    }
    if p.market > p.profit { QuotientSign(p.profit * 100.0, p.market - p.profit); }
  }

  lemma QuotientSign(a: real, b: real)
    requires b != 0.0
    ensures a / b > 0.0 <==> (a > 0.0 && b > 0.0) || (a < 0.0 && b < 0.0)
    ensures a / b == 0.0 <==> a == 0.0
  {
    var q := a / b;
    assert a == q * b;
    if q > 0.0 && b > 0.0 { assert q * b > 0.0; }
    if q > 0.0 && b < 0.0 { assert q * b < 0.0; }
    if q < 0.0 && b > 0.0 { assert q * b < 0.0; }
    if q < 0.0 && b < 0.0 { assert q * b > 0.0; }
  }

  lemma QuotientBack(a: real, b: real)
    requires b != 0.0 && a / b != 0.0
    ensures a / (a / b) == b
  {
    assert a == (a / b) * b;
  }

  // ---------- the totals by currency ----------

  datatype Summary = Summary(count: nat, market: real, profit: real)

  function Lookup(summaries: map<string, Summary>, currency: string): Summary
  {
    if currency in summaries then summaries[currency] else Summary(0, 0.0, 0.0)
  }

  ghost function Capital(p: Position): real
  {
    p.market - p.profit + Sum(Grosses(p.executions))
  }

  ghost function Capitals(ps: seq<Position>, currency: string): (r: seq<real>)
    ensures |r| == |ps|
  {
    seq(|ps|, i requires 0 <= i < |ps| => if ps[i].currency == currency then Capital(ps[i]) else 0.0)
  }

  ghost function CountIn(ps: seq<Position>, currency: string, n: nat): nat
    requires n <= |ps|
  {
    if n == 0 then 0 else CountIn(ps, currency, n - 1) + (if ps[n - 1].currency == currency then 1 else 0)
  }

  ghost predicate InCents(p: Position)
  {
    WholeCents(p.market) && WholeCents(p.profit) && forall e :: e in p.executions ==> WholeCents(e.gross)
  }

  /** The summary of one currency after the first `n` positions: whole cents whose difference is
      the capital of the positions in that currency, up to three half cents for each of them. */
  ghost predicate Totalled(s: Summary, ps: seq<Position>, currency: string, n: nat)
    requires n <= |ps|
  {
    && s.count == CountIn(ps, currency, n)
    && WholeCents(s.market) && WholeCents(s.profit)
    && Abs((s.market - s.profit) - Sum(Capitals(ps, currency)[..n])) <= 0.015 * s.count as real
    && ((forall p :: p in ps && p.currency == currency ==> InCents(p))
        ==> s.market - s.profit == Sum(Capitals(ps, currency)[..n]))
  }

  lemma NothingTotalled(ps: seq<Position>, currency: string)
    ensures Totalled(Summary(0, 0.0, 0.0), ps, currency, 0)
  {
    assert WholeCents(0.0) by { StepsLinear(0.0, 0.0, CENTS); }
  }

  lemma OtherCurrency(s: Summary, ps: seq<Position>, currency: string, n: nat)
    requires n < |ps| && ps[n].currency != currency && Totalled(s, ps, currency, n)
    ensures Totalled(s, ps, currency, n + 1)
  {
    hide WholeCents, Capital, InCents;
    SumPrefix(Capitals(ps, currency), n);
  }

  lemma SameCurrency(s: Summary, ps: seq<Position>, nav: real, n: nat)
    requires n < |ps| && Totalled(s, ps, ps[n].currency, n)
    ensures var e := Valued(ps[n], nav);
            Totalled(Summary(s.count + 1, s.market + e.market, s.profit + e.profit), ps, ps[n].currency, n + 1)
  {
    hide WholeCents, Valued, InCents;
    SumPrefix(Capitals(ps, ps[n].currency), n);
    PositionCapital(ps[n], nav);
    var e := Valued(ps[n], nav);
    CentsClosed(s.market, e.market);
    CentsClosed(s.profit, e.profit);
    assert ps[n] in ps;
  }

  /** The estimated market values and profits in one currency. */
  function MarketsIn(ps: seq<Position>, es: seq<Estimate>, currency: string): (r: seq<real>)
    requires |es| <= |ps|
    ensures |r| == |es|
  {
    seq(|es|, i requires 0 <= i < |es| => if ps[i].currency == currency then es[i].market else 0.0)
  }

  function ProfitsIn(ps: seq<Position>, es: seq<Estimate>, currency: string): (r: seq<real>)
    requires |es| <= |ps|
    ensures |r| == |es|
  {
    seq(|es|, i requires 0 <= i < |es| => if ps[i].currency == currency then es[i].profit else 0.0)
  }

  ghost predicate SumsUp(s: Summary, ps: seq<Position>, es: seq<Estimate>, currency: string)
    requires |es| <= |ps|
  {
    s.market == Sum(MarketsIn(ps, es, currency)) && s.profit == Sum(ProfitsIn(ps, es, currency))
  }

  lemma SumsUpStart(ps: seq<Position>, currency: string)
    ensures SumsUp(Summary(0, 0.0, 0.0), ps, [], currency)
  {
  }

  lemma SumsUpStep(s: Summary, ps: seq<Position>, es: seq<Estimate>, e: Estimate, currency: string)
    requires |es| < |ps| && SumsUp(s, ps, es, currency)
    ensures SumsUp(if ps[|es|].currency == currency then Summary(s.count + 1, s.market + e.market, s.profit + e.profit)
                   else s, ps, es + [e], currency)
  {
    var es' := es + [e];
    assert MarketsIn(ps, es', currency)[..|es|] == MarketsIn(ps, es, currency);
    assert ProfitsIn(ps, es', currency)[..|es|] == ProfitsIn(ps, es, currency);
  }

  method SummarizeCurrencies(positions: seq<Position>, navs: seq<real>)
      returns (estimates: seq<Estimate>, summaries: map<string, Summary>)
    requires |navs| == |positions|
    ensures |estimates| == |positions|
    ensures forall i :: 0 <= i < |positions| ==> estimates[i] == Valued(positions[i], navs[i])
    ensures forall c :: c in summaries <==> exists i :: 0 <= i < |positions| && positions[i].currency == c
    ensures forall c :: Totalled(Lookup(summaries, c), positions, c, |positions|)
    ensures forall c :: SumsUp(Lookup(summaries, c), positions, estimates, c)
  {
    hide Valued, Totalled, SumsUp;
    estimates, summaries := [], map[];
    forall c { NothingTotalled(positions, c); }
    forall c { SumsUpStart(positions, c); }
    for n := 0 to |positions|
      invariant |estimates| == n
      invariant forall i :: 0 <= i < n ==> estimates[i] == Valued(positions[i], navs[i])
      invariant forall c :: c in summaries <==> exists i :: 0 <= i < n && positions[i].currency == c
      invariant forall c :: Totalled(Lookup(summaries, c), positions, c, n)
      invariant forall c :: SumsUp(Lookup(summaries, c), positions, estimates, c)
    {
      var currency := positions[n].currency;
      var e := Valued(positions[n], navs[n]);
      var s := Lookup(summaries, currency);
      SameCurrency(s, positions, navs[n], n);
      ghost var before := summaries;
      estimates := estimates + [e];
      summaries := summaries[currency := Summary(s.count + 1, s.market + e.market, s.profit + e.profit)];
      forall c { SumsUpStep(Lookup(before, c), positions, estimates[..n], e, c); }
      assert estimates[..n] + [e] == estimates;
      forall c ensures SumsUp(Lookup(summaries, c), positions, estimates, c) {
        assert c != currency ==> Lookup(summaries, c) == Lookup(before, c);
      }
      forall c ensures Totalled(Lookup(summaries, c), positions, c, n + 1) {
        if c != currency {
          assert Lookup(summaries, c) == Lookup(before, c);
          OtherCurrency(Lookup(before, c), positions, c, n);
        }
      }
    }
  }

  lemma EstimateInCents(p: Position, nav: real)
    ensures WholeCents(Valued(p, nav).market) && WholeCents(Valued(p, nav).profit)
  {
    hide WholeCents, Sum, Money, Times, ReturnPct, SnapshotCostBasis;
    var change, recurring := Money(Times(p.units, nav - p.anchorNav)), Money(Times(Sum(Units(p.executions)), nav));
    MoneyError(p.market + change + recurring);
    MoneyError(Money(p.profit + change) + Money(recurring - Sum(Grosses(p.executions))));
  }

  lemma PositionCapital(p: Position, nav: real)
    ensures var e := Valued(p, nav);
            WholeCents(e.market) && WholeCents(e.profit)
            && Abs((e.market - e.profit) - Capital(p)) <= 0.015
            && (InCents(p) ==> e.market - e.profit == Capital(p))
  {
    hide Valued, WholeCents, Sum;
    EstimateInCents(p, nav);
    CapitalConserved(p, nav);
    if InCents(p) { PurchasesInCents(p.executions); }
  }

  /** Rounding a currency's totals once more changes nothing. */
  lemma TotalsAreRounded(s: Summary, ps: seq<Position>, currency: string)
    requires Totalled(s, ps, currency, |ps|)
    ensures Money(s.market) == s.market && Money(s.profit) == s.profit
    ensures Abs((s.market - s.profit) - Sum(Capitals(ps, currency))) <= 0.015 * CountIn(ps, currency, |ps|) as real
  {
    MoneyError(s.market);
    MoneyError(s.profit);
    SumAll(Capitals(ps, currency));
  }
}
