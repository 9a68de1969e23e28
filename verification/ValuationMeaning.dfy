/** What the return and the cost basis of a position on the portfolio page are. */
module ValuationMeaning {
  import opened Sums
  import opened Decimals
  import opened Valuation

  /** The cost at the snapshot: the amount on which the reported profit is the reported return, if there
      is one above zero, else the market value less the profit if that is above zero. */
  ghost predicate SnapshotCost(p: Position, cost: Option<real>)
  {
    if (p.profit > 0.0 && p.returnPct > 0.0) || (p.profit < 0.0 && p.returnPct < 0.0)
    then cost.Some? && Times(cost.value, p.returnPct) == p.profit * 100.0
    else if p.market > p.profit then cost == Some(p.market - p.profit)
    else cost == None
  }

  lemma SnapshotCostIs(p: Position)
    ensures SnapshotCost(p, SnapshotCostBasis(p))
  {
    if p.returnPct != 0.0 {
      QuotientSign(p.profit * 100.0, p.returnPct);
      QuotientTimes(p.profit * 100.0, p.returnPct);
    }
  }

  lemma QuotientTimes(a: real, b: real)
    requires b != 0.0
    ensures Times(a / b, b) == a
  {
  }

  /** What the purchases cost. */
  ghost function Invested(p: Position): real
  {
    Sum(seq(|p.executions|, i requires 0 <= i < |p.executions| => p.executions[i].gross))
  }

  /** The estimated cost basis is the snapshot's plus the purchases. The estimated return is the
      estimated profit on it once the rounded move of the NAV or a purchase counts and there is a
      basis above zero; otherwise it stays the reported one. */
  lemma ReturnIs(p: Position, nav: real)
    ensures var e, cost, moved := Valued(p, nav), SnapshotCostBasis(p), Money(Times(p.units, nav - p.anchorNav));
            && SnapshotCost(p, cost)
            && (e.costBasis.Some? <==> cost.Some?)
            && (cost.Some? ==> e.costBasis.value == cost.value + Invested(p))
            && (if (moved != 0.0 || Invested(p) != 0.0) && e.costBasis.Some? && e.costBasis.value > 0.0
                then Times(e.costBasis.value, e.returnPct) == e.profit * 100.0
                else e.returnPct == p.returnPct)
  {
    SnapshotCostIs(p);
    assert Invested(p) == Sum(Grosses(p.executions)) by {
      assert Grosses(p.executions) == seq(|p.executions|, i requires 0 <= i < |p.executions| => p.executions[i].gross);
    }
    hide SnapshotCostBasis, Money, Sum, SnapshotCost, Invested;
    var e, cost := Valued(p, nav), SnapshotCostBasis(p);
    if cost.Some? && cost.value + Invested(p) > 0.0 {
      QuotientTimes(e.profit * 100.0, cost.value + Invested(p));
      Commute(e.profit * 100.0 / (cost.value + Invested(p)), cost.value + Invested(p));
    }
  }

  lemma Commute(a: real, b: real)
    ensures Times(a, b) == Times(b, a)
  {
  }
}
