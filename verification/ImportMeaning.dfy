/** Which rows of a payload are accepted, and what is taken from them. */
module ImportMeaning {
  import opened Sums
  import opened Decimals
  import opened Calendar
  import opened LedgerModel
  import opened PortfolioImport
  import opened RecurringService

  /** The plan's net amount when none is given, in cents. */
  function DefaultNet(gross: real, fee: real): real
    requires fee >= 0.0
  {
    Quantize(gross / (1.0 + fee / 100.0), CENTS)
  }

  /** A daily plan of a positive amount, a fee of 0 to 100 percent, a lag of 0 to 10 days, and a net amount,
      if given, within a cent of the one that the fee leaves. */
  ghost predicate ValidPlan(r: RecurringInput)
  {
    && r.daily && r.gross > 0.0 && 0.0 <= r.fee <= 100.0 && 0 <= r.lag <= 10
    && (r.net.Some? ==> -0.01 <= r.net.value - DefaultNet(r.gross, r.fee) <= 0.01)
  }

  lemma PlanIs(r: RecurringInput)
    ensures if ValidPlan(r)
            then RecurringValues(Some(r))
                 == Ok(Some(Plan(Amounts(r.gross, r.fee,
                                         if r.net.Some? then r.net.value else DefaultNet(r.gross, r.fee)), r.lag)))
            else RecurringValues(Some(r)) == Err(InvalidRecurring)
  {
    if r.fee >= 0.0 { assert ExpectedNet(r.gross, r.fee) == DefaultNet(r.gross, r.fee) by { hide Quantize; } }
    hide Quantize, ExpectedNet, DefaultNet;
  }

  /** A NAV of the share on that date, and none later up to the snapshot date. */
  ghost predicate Anchors(navs: Navs, input: PositionInput, d: Date)
  {
    && (input.share, d) in navs && d <= input.snapshotDate
    && forall e :: d < e <= input.snapshotDate ==> (input.share, e) !in navs
  }

  lemma AnchorIs(navs: Navs, input: PositionInput, d: Date)
    ensures AnchorDate(navs, input.share, input.snapshotDate) == Some(d) <==> Anchors(navs, input, d)
  {
    assert forall e :: e in NavDates(navs, input.share) <==> (input.share, e) in navs;
    if Anchors(navs, input, d) { PredecessorIs(NavDates(navs, input.share), input.snapshotDate + 1, d); }
  }

  lemma AnchorExists(navs: Navs, input: PositionInput)
    ensures AnchorDate(navs, input.share, input.snapshotDate).Some?
       <==> exists d :: (input.share, d) in navs && d <= input.snapshotDate
  {
    assert forall e :: e in NavDates(navs, input.share) <==> (input.share, e) in navs;
    if d :| (input.share, d) in navs && d <= input.snapshotDate {
      PredecessorExists(NavDates(navs, input.share), input.snapshotDate + 1, d);
    }
  }

  /** Units, market value and the plan's amounts stay positive when they are rounded to their columns. */
  ghost predicate ColumnsPositive(input: PositionInput)
    requires input.recurring.Some? ==> ValidPlan(input.recurring.value)
  {
    && Quantize(input.units, 100000000.0) > 0.0 && Quantize(input.market, 1000000.0) > 0.0
    && (input.recurring.Some? ==>
          var r := input.recurring.value;
          && Quantize(r.gross, 1000000.0) > 0.0
          && Quantize(if r.net.Some? then r.net.value else DefaultNet(r.gross, r.fee), 1000000.0) > 0.0)
  }

  /** The first reason that applies. A row without any is accepted, unless a value that its column must
      hold positive is rounded to nothing. */
  lemma RowRejectedFor(shares: map<ShareCode, Share>, navs: Navs, input: PositionInput)
    ensures var r := Validated(shares, navs, input);
            if input.share !in shares then r == Err(UnknownShare)
            else if !(exists d :: (input.share, d) in navs && d <= input.snapshotDate) then r == Err(NoNav)
            else if input.currency.Some? && input.currency.value != shares[input.share].currency
            then r == Err(CurrencyMismatch)
            else if input.units <= 0.0 || input.market <= 0.0 then r == Err(NotPositive)
            else if input.recurring.Some? && !ValidPlan(input.recurring.value) then r == Err(InvalidRecurring)
            else if ColumnsPositive(input) then r.Ok? else r == Err(ConstraintViolated)
  {
    hide AnchorDate, RecurringValues, ValidPlan, DefaultNet, Quantize;
    AnchorExists(navs, input);
    if input.recurring.Some? { PlanIs(input.recurring.value); }
    assert RecurringValues(None) == Ok(None) by { NoPlan(); }
  }

  lemma NoPlan()
    ensures RecurringValues(None) == Ok(None)
  {
  }

  /** An accepted row is taken over value by value, anchored at the share's latest NAV up to the snapshot
      date; its plan keeps its amounts, with the net amount that the fee leaves if none is given. */
  lemma RowTakenOver(shares: map<ShareCode, Share>, navs: Navs, input: PositionInput)
    requires Validated(shares, navs, input).Ok?
    ensures var p := Validated(shares, navs, input).value;
            var s, r := p.snapshot, input.recurring;
            && p.platform == input.platform && p.share == input.share && p.active == input.active
            && s.date == input.snapshotDate && s.units == input.units && s.market == input.market
            && s.profit == input.profit && s.returnPct == input.returnPct && s.cumulative == input.cumulative
            && Anchors(navs, input, s.anchorDate) && s.anchorNav == navs[(input.share, s.anchorDate)].unit
            && (p.plan.Some? <==> r.Some?)
            && (r.Some? ==>
                  && ValidPlan(r.value) && p.plan.value.lag == r.value.lag
                  && p.plan.value.amounts.gross == r.value.gross && p.plan.value.amounts.fee == r.value.fee
                  && p.plan.value.amounts.net
                     == if r.value.net.Some? then r.value.net.value else DefaultNet(r.value.gross, r.value.fee))
  {
    hide AnchorDate, RecurringValues, ConstraintsHold, StoredPosition, DefaultNet;
    var anchor := AnchorDate(navs, input.share, input.snapshotDate);
    AnchorIs(navs, input, anchor.value);
    if input.recurring.Some? { PlanIs(input.recurring.value); }
    assert RecurringValues(None) == Ok(None) by { NoPlan(); }
  }

  /** And the columns hold its units to eight digits, its amounts to six, its rates to eight. */
  lemma ColumnsHold(p: Position)
    ensures var q := StoredPosition(p);
            && q.snapshot.units == Quantize(p.snapshot.units, 100000000.0)
            && q.snapshot.market == Quantize(p.snapshot.market, 1000000.0)
            && q.snapshot.profit == Quantize(p.snapshot.profit, 1000000.0)
            && q.snapshot.returnPct == Quantize(p.snapshot.returnPct, 100000000.0)
            && (p.snapshot.cumulative.Some?
                ==> q.snapshot.cumulative == Some(Quantize(p.snapshot.cumulative.value, 1000000.0)))
            && (p.plan.Some? ==> q.plan.Some?
                                 && q.plan.value.amounts.gross == Quantize(p.plan.value.amounts.gross, 1000000.0)
                                 && q.plan.value.amounts.fee == Quantize(p.plan.value.amounts.fee, 100000000.0)
                                 && q.plan.value.amounts.net == Quantize(p.plan.value.amounts.net, 1000000.0)
                                 && q.plan.value.lag == p.plan.value.lag)
  {
    hide Quantize;
  }

  /** No two rows are of the same platform and share, and none is of a pair already seen. */
  ghost predicate NoneTwice(inputs: seq<PositionInput>, seen: set<Identity>)
  {
    && (forall i, j :: 0 <= i < j < |inputs| ==>
          !(inputs[i].platform == inputs[j].platform && inputs[i].share == inputs[j].share))
    && forall i :: 0 <= i < |inputs| ==> (inputs[i].platform, inputs[i].share) !in seen
  }

  /** A payload is imported exactly if every row is accepted and none is listed twice. */
  lemma {:induction false} ImportedIff(
    p: Portfolio, shares: map<ShareCode, Share>, navs: Navs, inputs: seq<PositionInput>, seen: set<Identity>)
    ensures Imported(p, shares, navs, inputs, seen).Ok?
       <==> NoneTwice(inputs, seen) && forall i :: 0 <= i < |inputs| ==> Validated(shares, navs, inputs[i]).Ok?
    decreases inputs
  {
    hide Validated, Written;
    if inputs != [] {
      var rest, id := inputs[1..], IdentityOf(inputs[0]);
      assert forall i :: 0 < i < |inputs| ==> inputs[i] == rest[i - 1];
      if id !in seen && Validated(shares, navs, inputs[0]).Ok? {
        ImportedIff(Written(p, inputs[0], Validated(shares, navs, inputs[0]).value), shares, navs, rest, seen + {id});
      }
      FirstNotTwice(inputs, seen);
    }
  }

  lemma FirstNotTwice(inputs: seq<PositionInput>, seen: set<Identity>)
    requires inputs != []
    ensures NoneTwice(inputs, seen)
       <==> IdentityOf(inputs[0]) !in seen && NoneTwice(inputs[1..], seen + {IdentityOf(inputs[0])})
  {
    var rest, id := inputs[1..], IdentityOf(inputs[0]);
    assert forall i :: 0 < i < |inputs| ==> inputs[i] == rest[i - 1];
    assert forall i :: 0 <= i < |rest| ==> rest[i] == inputs[i + 1];
    if NoneTwice(rest, seen + {id}) {
      forall j | 0 < j < |inputs| ensures IdentityOf(inputs[j]) != id && IdentityOf(inputs[j]) !in seen {
        assert (rest[j - 1].platform, rest[j - 1].share) !in seen + {id};
      }
    }
  }
}
