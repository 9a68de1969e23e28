/** What the daily run does, said of the tables it reads: exactly which orders are created and
    settled, with which values, and that funds not asked for are left alone. */
module LedgerScope {
  import opened Sums
  import opened Decimals
  import opened Calendar
  import opened LedgerModel
  import opened LedgerProperties
  import opened LedgerRuns

  /** The share of the position belongs to one of the funds asked for. */
  ghost predicate Asked(ctx: Context, codes: set<FundCode>, pid: PositionId)
  {
    && pid in ctx.positions && ctx.positions[pid].share in ctx.shares
    && ctx.shares[ctx.positions[pid].share].fund in codes
  }

  ghost predicate SameAt(v: View, w: View, key: Key)
  {
    (key in v <==> key in w) && (key in v ==> v[key] == w[key])
  }

  /** An active position of a fund asked for, with a plan: only these get an order of the day. */
  ghost predicate Due(ctx: Context, codes: set<FundCode>, pid: PositionId)
  {
    Asked(ctx, codes, pid) && ctx.positions[pid].active && ctx.positions[pid].plan.Some?
  }

  /** A waiting order on the plan's amounts, expected the plan's lag of weekdays later. */
  ghost predicate Ordered(e: Entry, plan: Plan, date: Date)
  {
    e.Waiting? && e.amounts == plan.amounts && IsAfterWeekdays(date, plan.lag, e.expected)
  }

  /** A weekday adds an order of that day for exactly the due positions without one, on their
      plan; nothing else changes, and at a weekend nothing at all. */
  lemma CreatesExactly(v: View, ctx: Context, codes: set<FundCode>, date: Date, key: Key)
    ensures var w := CreateOrders(v, ctx, codes, date);
            if key !in v && key.1 == date && date % 7 != 6 && date % 7 != 0 && Due(ctx, codes, key.0)
            then key in w && Ordered(w[key], ctx.positions[key.0].plan.value, date)
            else SameAt(v, w, key)
  {
    hide WeekdaysAfter, IsAfterWeekdays;
    if key !in v && key.1 == date && IsWeekday(date) && Due(ctx, codes, key.0) {
      assert key.0 in PlannedPositions(ctx, codes);
      assert key in KeysOn(PlannedPositions(ctx, codes), date);
      WeekdaysAfterIsLeast(date, ctx.positions[key.0].plan.value.lag);
    }
  }

  /** A waiting order of an active position of a fund asked for, whose own date has a NAV. */
  ghost predicate Settles(v: View, ctx: Context, navs: Navs, codes: set<FundCode>, key: Key)
  {
    && key in v && v[key].Waiting? && Asked(ctx, codes, key.0) && ctx.positions[key.0].active
    && (ctx.positions[key.0].share, key.1) in navs
  }

  /** Its amounts and date kept, at that NAV, for units of eight digits worth the net amount up to
      half a step. */
  ghost predicate SettledAt(was: Entry, now: Entry, nav: Nav)
  {
    && now.Settled? && now.amounts == was.amounts && now.expected == was.expected && now.nav == nav
    && OnGrid(now.units, QUANTITY_SCALE) && now.units > 0.0
    && Abs(now.units * nav.unit - was.amounts.net) <= nav.unit * 0.000000005
  }

  /** Some order to be settled is worth less than half a step of units: then nothing is settled. */
  ghost predicate TooSmall(v: View, ctx: Context, navs: Navs, codes: set<FundCode>, key: Key)
  {
    && Settles(v, ctx, navs, codes, key)
    && v[key].amounts.net < navs[(ctx.positions[key.0].share, key.1)].unit * 0.000000005
  }

  lemma AbortsIff(v: View, ctx: Context, navs: Navs, codes: set<FundCode>)
    ensures Aborts(v, ctx, navs, codes) <==> exists key :: TooSmall(v, ctx, navs, codes, key)
  {
    hide UnitsFor;
    forall key ensures Vanishes(v, ctx, navs, codes, key) <==> TooSmall(v, ctx, navs, codes, key) {
      if Settles(v, ctx, navs, codes, key) {
        UnitsVanishIff(v[key].amounts.net, navs[(ctx.positions[key.0].share, key.1)]);
      }
    }
  }

  /** Settling changes exactly those orders, all of them or, if one is too small, none. */
  lemma SettlesExactly(v: View, ctx: Context, navs: Navs, codes: set<FundCode>, key: Key)
    ensures var w := SettleOrAbort(v, ctx, navs, codes);
            if Settles(v, ctx, navs, codes, key) && !(exists k :: TooSmall(v, ctx, navs, codes, k))
            then key in w && SettledAt(v[key], w[key], navs[(ctx.positions[key.0].share, key.1)])
            else SameAt(v, w, key)
  {
    hide UnitsFor, Aborts, OnGrid, TooSmall;
    AbortsIff(v, ctx, navs, codes);
    if Settles(v, ctx, navs, codes, key) && !Aborts(v, ctx, navs, codes) {
      var nav := navs[(ctx.positions[key.0].share, key.1)];
      UnitsAreClose(v[key].amounts.net, nav);
      UnitsOnGrid(v[key].amounts.net, nav);
      NotVanishing(v, ctx, navs, codes, key);
      assert IsRipe(v, ctx, navs, codes, key) && key in Ripe(v, ctx, navs, codes);
    }
  }

  lemma NotVanishing(v: View, ctx: Context, navs: Navs, codes: set<FundCode>, key: Key)
    requires !Aborts(v, ctx, navs, codes) && Settles(v, ctx, navs, codes, key)
    ensures UnitsFor(v[key].amounts.net, navs[(ctx.positions[key.0].share, key.1)]) > 0.0
  {
    hide UnitsFor;
    assert !Vanishes(v, ctx, navs, codes, key);
  }

  lemma UnitsOnGrid(net: real, nav: Nav)
    ensures OnGrid(UnitsFor(net, nav), QUANTITY_SCALE)
  {
    hide Quantize, OnGrid;
    QuantizeOnGrid(net / nav.unit, QUANTITY_SCALE);
  }

  /** The check is positive exactly when a due position has no order on that weekday, or a waiting
      order of a fund asked for has a NAV on its own date, active or not. */
  lemma PendingIff(v: View, ctx: Context, navs: Navs, codes: set<FundCode>, date: Date)
    ensures Pending(v, ctx, navs, codes, date)
       <==> (date % 7 != 6 && date % 7 != 0 && exists pid :: Due(ctx, codes, pid) && (pid, date) !in v)
            || exists key :: key in v && v[key].Waiting? && Asked(ctx, codes, key.0)
                             && (ctx.positions[key.0].share, key.1) in navs
  {
    assert IsWeekday(date) <==> date % 7 != 6 && date % 7 != 0;
    forall pid ensures Due(ctx, codes, pid) <==> Planned(ctx, pid, codes) {
    }
  }

  // ---------- other funds ----------

  /** Neither creating nor settling touches an entry of a fund that was not asked for. */
  lemma OtherFundsUntouched(v: View, ctx: Context, navs: Navs, codes: set<FundCode>, date: Date, key: Key)
    requires !Asked(ctx, codes, key.0)
    ensures SameAt(v, CreateOrders(v, ctx, codes, date), key)
    ensures SameAt(v, SettleOrAbort(v, ctx, navs, codes), key)
    ensures SameAt(v, DailyRun(v, ctx, navs, codes, date), key)
  {
    hide CreateOrders, SettleOrAbort, TooSmall;
    CreatesExactly(v, ctx, codes, date, key);
    SettlesExactly(v, ctx, navs, codes, key);
    SettlesExactly(CreateOrders(v, ctx, codes, date), ctx, navs, codes, key);
  }

  /** Two databases that agree on the positions of the funds asked for and on their entries. */
  ghost predicate AgreeOnAsked(v: View, v': View, ctx: Context, ctx': Context, codes: set<FundCode>)
  {
    && (forall pid :: Asked(ctx, codes, pid) <==> Asked(ctx', codes, pid))
    && (forall pid :: Asked(ctx, codes, pid) ==> ctx.positions[pid] == ctx'.positions[pid])
    && (forall key: Key :: Asked(ctx, codes, key.0) ==> SameAt(v, v', key))
  }

  /** What the check says, and whether the settlement aborts, does not depend on other funds. */
  lemma OtherFundsIgnored(
    v: View, v': View, ctx: Context, ctx': Context, navs: Navs, codes: set<FundCode>, date: Date)
    requires AgreeOnAsked(v, v', ctx, ctx', codes)
    ensures Pending(v, ctx, navs, codes, date) <==> Pending(v', ctx', navs, codes, date)
    ensures Aborts(v, ctx, navs, codes) <==> Aborts(v', ctx', navs, codes)
  {
    hide Pending, Aborts;
    PendingIff(v, ctx, navs, codes, date);
    PendingIff(v', ctx', navs, codes, date);
    AbortsIff(v, ctx, navs, codes);
    AbortsIff(v', ctx', navs, codes);
    forall pid ensures Due(ctx, codes, pid) && (pid, date) !in v <==> Due(ctx', codes, pid) && (pid, date) !in v' {
      assert Asked(ctx, codes, pid) ==> SameAt(v, v', (pid, date));
    }
    forall key: Key ensures TooSmall(v, ctx, navs, codes, key) <==> TooSmall(v', ctx', navs, codes, key) {
      assert Asked(ctx, codes, key.0) ==> SameAt(v, v', key);
    }
  }
}
