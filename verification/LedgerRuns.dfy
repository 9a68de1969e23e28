/** Whole histories: every sequence of daily runs, arriving or revised NAVs and imports. */
module LedgerRuns {
  import opened Sums
  import opened Decimals
  import opened Calendar
  import opened LedgerModel
  import opened RecurringService
  import opened PortfolioImport
  import opened ImportLedgers

  datatype World = World(portfolio: Portfolio, shares: map<ShareCode, Share>, navs: Navs)

  datatype Event =
    | Create(codes: set<FundCode>, date: Date)
    | SettleAll(codes: set<FundCode>)
    | NavArrives(share: ShareCode, navDate: Date, nav: Nav)
    | Import(inputs: seq<PositionInput>)

  ghost function ContextOf(w: World): Context { Context(w.portfolio.positions, w.shares) }

  /** One operation, as the methods of LedgerStore and ImportPortfolio perform it. */
  ghost function Apply(w: World, e: Event): World
  {
    match e
    case Create(codes, date) =>
      w.(portfolio := w.portfolio.(ledger := CreateOrders(w.portfolio.ledger, ContextOf(w), codes, date)))
    case SettleAll(codes) =>
      w.(portfolio := w.portfolio.(ledger := SettleOrAbort(w.portfolio.ledger, ContextOf(w), w.navs, codes)))
    case NavArrives(share, date, nav) => w.(navs := w.navs[(share, date) := nav])
    case Import(inputs) =>
      var r := Imported(w.portfolio, w.shares, w.navs, inputs, {});
      if r.Ok? then w.(portfolio := r.value) else w
  }

  ghost function Run(w: World, events: seq<Event>): World
    decreases events
  {
    if events == [] then w else Run(Apply(w, events[0]), events[1..])
  }

  ghost function Start(shares: map<ShareCode, Share>): World
  {
    World(Portfolio(map[], map[], 0), shares, map[])
  }

  // ---------- the tables along a run ----------

  ghost function WorldOf(store: LedgerStore): World
    reads store
  {
    World(Portfolio(store.positions, store.ledger, store.nextPosition), store.shares, store.navs)
  }

  /** One operation on the tables. A settlement or an import that fails leaves them as they were. */
  method Perform(store: LedgerStore, e: Event)
    requires store.Valid()
    modifies store
    ensures store.Valid() && WorldOf(store) == Apply(old(WorldOf(store)), e)
  {
    hide Tables, Owned, UniquePositions, CreateOrders, SettleOrAbort, Imported;
    match e
    case Create(codes, date) => var _ := store.CreateRecurringOrders(codes, date);
    case SettleAll(codes) => var _ := store.SettleRecurringPlans(codes);
    case NavArrives(share, date, nav) => store.RecordNav(share, date, nav);
    case Import(inputs) => var _ := ImportPortfolio(store, inputs);
  }

  /** Along every history from an empty database the tables keep their constraints and hold the
      ledger that the history leads to. */
  method Replay(shares: map<ShareCode, Share>, events: seq<Event>) returns (store: LedgerStore)
    ensures fresh(store) && store.Valid() && WorldOf(store) == Run(Start(shares), events)
  {
    hide Apply, Tables, Owned, UniquePositions;
    store := new LedgerStore(shares);
    assert events[0..] == events;
    for i := 0 to |events|
      invariant fresh(store) && store.Valid() && Run(WorldOf(store), events[i..]) == Run(Start(shares), events)
    {
      assert events[i..][1..] == events[i + 1..];
      Perform(store, events[i]);
    }
  }

  // ---------- what every reachable ledger satisfies ----------

  /** Gross and net are positive, fit their columns and differ by the fee, up to a cent and a half
      and the rounding of the columns. */
  ghost predicate FairAmounts(a: Amounts)
  {
    && a.gross > 0.0 && a.net > 0.0 && 0.0 <= a.fee <= 100.0
    && OnGrid(a.gross, MONEY_SCALE) && OnGrid(a.fee, QUANTITY_SCALE) && OnGrid(a.net, MONEY_SCALE)
    && Abs(a.net - Over(a.gross, FeeFactor(a.fee))) <= 0.015001 + a.gross * 0.00000000005
  }

  /** Confirmation is due after some number of weekdays from 0 to 10. */
  ghost predicate DueWithin(placed: Date, expected: Date)
  {
    exists lag :: 0 <= lag <= 10 && IsAfterWeekdays(placed, lag, expected)
  }

  ghost predicate SoundPlan(plan: Plan)
  {
    FairAmounts(plan.amounts) && 0 <= plan.lag <= 10
  }

  ghost predicate SoundEntry(key: Key, e: Entry)
  {
    && IsWeekday(key.1) && DueWithin(key.1, e.expected) && FairAmounts(e.amounts)
    && (e.Settled? ==> e.units == UnitsFor(e.amounts.net, e.nav) && e.units > 0.0)
  }

  ghost predicate Sound(w: World)
  {
    && WellFormed(w.portfolio)
    && (forall pid :: pid in w.portfolio.positions && w.portfolio.positions[pid].plan.Some?
                  ==> SoundPlan(w.portfolio.positions[pid].plan.value))
    && (forall key :: key in w.portfolio.ledger ==> SoundEntry(key, w.portfolio.ledger[key]))
  }

  lemma ValidatedPlan(shares: map<ShareCode, Share>, navs: Navs, input: PositionInput)
    requires Validated(shares, navs, input).Ok? && Validated(shares, navs, input).value.plan.Some?
    ensures SoundPlan(StoredPosition(Validated(shares, navs, input).value).plan.value)
  {
    hide MoneyColumn, QuantityColumn, Over, FeeFactor, OnGrid;
    var plan := Validated(shares, navs, input).value.plan.value;
    AcceptedNetIsClose(input.recurring.value, plan);
    StoredNetIsClose(input.recurring.value, plan);
    ColumnOnGrid(plan.amounts.gross);
    ColumnOnGrid(plan.amounts.fee);
    ColumnOnGrid(plan.amounts.net);
  }

  lemma ColumnOnGrid(x: real)
    ensures OnGrid(MoneyColumn(x), MONEY_SCALE) && OnGrid(QuantityColumn(x), QUANTITY_SCALE)
  {
    hide Quantize, OnGrid;
    QuantizeOnGrid(x, MONEY_SCALE);
    QuantizeOnGrid(x, QUANTITY_SCALE);
  }

  lemma WrittenSound(p: Portfolio, shares: map<ShareCode, Share>, navs: Navs, input: PositionInput)
    requires Sound(World(p, shares, navs)) && Validated(shares, navs, input).Ok?
    ensures Sound(World(Written(p, input, Validated(shares, navs, input).value), shares, navs))
  {
    hide SoundEntry, SoundPlan, UniquePositions, Owned, Validated, StoredSnapshot, StoredAmounts;
    var position := Validated(shares, navs, input).value;
    ValidatedIdentity(shares, navs, input);
    WrittenWellFormed(p, input, position);
    if position.plan.Some? { ValidatedPlan(shares, navs, input); }
  }

  lemma {:induction false} ImportSound(
    p: Portfolio, shares: map<ShareCode, Share>, navs: Navs, inputs: seq<PositionInput>, seen: set<Identity>)
    requires Sound(World(p, shares, navs)) && Imported(p, shares, navs, inputs, seen).Ok?
    ensures Sound(World(Imported(p, shares, navs, inputs, seen).value, shares, navs))
    decreases inputs
  {
    hide Sound;
    if inputs != [] {
      WrittenSound(p, shares, navs, inputs[0]);
      ImportSound(Written(p, inputs[0], Validated(shares, navs, inputs[0]).value), shares, navs, inputs[1..],
                  seen + {IdentityOf(inputs[0])});
    }
  }

  lemma DueByLag(date: Date, lag: int)
    requires 0 <= lag <= 10
    ensures DueWithin(date, WeekdaysAfter(date, lag))
  {
    WeekdaysAfterIsLeast(date, lag);
  }

  lemma CreateSound(w: World, codes: set<FundCode>, date: Date)
    requires Sound(w)
    ensures Sound(Apply(w, Create(codes, date)))
  {
    hide UnitsFor, UniquePositions, FairAmounts, IsAfterWeekdays, DueWithin, WeekdaysAfter;
    var v := CreateOrders(w.portfolio.ledger, ContextOf(w), codes, date);
    forall key | key in v ensures SoundEntry(key, v[key]) && key.0 in w.portfolio.positions {
      if key !in w.portfolio.ledger {
        assert key.0 in PlannedPositions(ContextOf(w), codes) && key.1 == date;
        assert SoundPlan(w.portfolio.positions[key.0].plan.value);
        DueByLag(date, w.portfolio.positions[key.0].plan.value.lag);
      }
    }
  }

  lemma SettleSound(w: World, codes: set<FundCode>)
    requires Sound(w)
    ensures Sound(Apply(w, SettleAll(codes)))
  {
    hide UnitsFor, UniquePositions, SoundPlan, FairAmounts, DueWithin;
    var v, ctx := w.portfolio.ledger, ContextOf(w);
    var after := SettleOrAbort(v, ctx, w.navs, codes);
    forall key | key in after ensures SoundEntry(key, after[key]) && key.0 in w.portfolio.positions {
      assert SoundEntry(key, v[key]);
      assert !Aborts(v, ctx, w.navs, codes) ==> !Vanishes(v, ctx, w.navs, codes, key);
    }
  }

  lemma StepSound(w: World, e: Event)
    requires Sound(w)
    ensures Sound(Apply(w, e))
  {
    match e
    case Create(codes, date) => CreateSound(w, codes, date);
    case SettleAll(codes) => SettleSound(w, codes);
    case NavArrives(share, date, nav) =>
    case Import(inputs) =>
      if Imported(w.portfolio, w.shares, w.navs, inputs, {}).Ok? {
        ImportSound(w.portfolio, w.shares, w.navs, inputs, {});
      }
  }

  lemma {:induction false} RunSoundFrom(w: World, events: seq<Event>)
    requires Sound(w)
    ensures Sound(Run(w, events))
    decreases events
  {
    if events != [] {
      StepSound(w, events[0]);
      RunSoundFrom(Apply(w, events[0]), events[1..]);
    }
  }

  /** Rounding the units to eight decimals moves the settled value by at most half a step. */
  lemma UnitsAreClose(net: real, nav: Nav)
    ensures Abs(UnitsFor(net, nav) * nav.unit - net) <= nav.unit * 0.000000005
  {
    hide Quantize;
    QuantizeError(net / nav.unit, QUANTITY_SCALE);
    assert FromSteps(0.5, QUANTITY_SCALE) == 0.000000005;
    ProductBound(UnitsFor(net, nav), net / nav.unit, nav.unit, 0.000000005);
    assert net / nav.unit * nav.unit == net;
  }

  lemma ProductBound(a: real, b: real, u: real, bound: real)
    requires u > 0.0 && Abs(a - b) <= bound
    ensures Abs(a * u - b * u) <= u * bound
  {
    assert (a - b) * u == a * u - b * u;
    if a >= b { Smaller(a - b, bound, u); } else { Smaller(b - a, bound, u); }
  }

  lemma Smaller(x: real, bound: real, u: real)
    requires u > 0.0 && x <= bound
    ensures x * u <= u * bound
  {
  }

  ghost predicate Plausible(key: Key, e: Entry)
  {
    && IsWeekday(key.1) && DueWithin(key.1, e.expected) && FairAmounts(e.amounts)
    && (e.Settled? ==> e.units > 0.0 && Abs(e.units * e.nav.unit - e.amounts.net) <= e.nav.unit * 0.000000005)
  }

  lemma SoundIsPlausible(key: Key, e: Entry)
    requires SoundEntry(key, e)
    ensures Plausible(key, e)
  {
    hide FairAmounts, DueWithin;
    if e.Settled? { UnitsAreClose(e.amounts.net, e.nav); }
  }

  /** From an empty database, after any history: every order is on a weekday, is due a lag of at
      most ten weekdays later, has positive amounts that differ by the fee, and belongs to a
      stored position; every settled one has positive units worth its net amount up to the
      rounding step. */
  lemma EveryRunIsSound(shares: map<ShareCode, Share>, events: seq<Event>)
    ensures var p := Run(Start(shares), events).portfolio;
            WellFormed(p) && forall key :: key in p.ledger ==> Plausible(key, p.ledger[key]) && key.0 in p.positions
  {
    RunSoundFrom(Start(shares), events);
    hide Plausible, SoundEntry, SoundPlan, Run;
    var p := Run(Start(shares), events).portfolio;
    forall key | key in p.ledger ensures Plausible(key, p.ledger[key]) {
      SoundIsPlausible(key, p.ledger[key]);
    }
  }

  // ---------- what no later operation can change ----------

  /** Does this operation reset the ledger of the position? */
  ghost predicate ResetsLedger(w: World, e: Event, pid: PositionId)
    requires pid in w.portfolio.positions
  {
    && e.Import? && Imported(w.portfolio, w.shares, w.navs, e.inputs, {}).Ok?
    && ResetBy(w.portfolio, w.shares, w.navs, e.inputs, pid)
  }

  /** An order survives with its amounts; once settled it never changes in any way. */
  ghost predicate Preserved(v: View, w: View, key: Key)
    requires key in v
  {
    && key in w && w[key].amounts == v[key].amounts && w[key].expected == v[key].expected
    && (v[key].Settled? ==> w[key] == v[key])
  }

  lemma StepPreserves(w: World, e: Event, key: Key)
    requires Sound(w) && key in w.portfolio.ledger && !ResetsLedger(w, e, key.0)
    ensures Preserved(w.portfolio.ledger, Apply(w, e).portfolio.ledger, key)
  {
    hide UnitsFor, SoundEntry, SoundPlan, NewEntry, Imported, ResetBy, Aborts;
    if e.Import? && Imported(w.portfolio, w.shares, w.navs, e.inputs, {}).Ok? {
      ImportKeepsOrForgets(w.portfolio, w.shares, w.navs, e.inputs, {}, key.0);
    }
  }

  /** Along a history whose imports never give the position a snapshot other than the stored one. */
  ghost predicate NeverReset(w: World, events: seq<Event>, pid: PositionId)
    decreases events
  {
    events == []
    || (pid in w.portfolio.positions && !ResetsLedger(w, events[0], pid)
        && NeverReset(Apply(w, events[0]), events[1..], pid))
  }

  /** History safety: until an import resets its position's ledger, an order is never lost, its
      amounts never change, and once settled it stays exactly as it is, whatever NAVs are
      revised and however the plan is edited. */
  lemma {:induction false} RunPreserves(w: World, events: seq<Event>, key: Key)
    requires Sound(w) && key in w.portfolio.ledger && NeverReset(w, events, key.0)
    ensures Preserved(w.portfolio.ledger, Run(w, events).portfolio.ledger, key)
    decreases events
  {
    if events != [] {
      hide Sound, ResetsLedger, Apply;
      StepSound(w, events[0]);
      StepPreserves(w, events[0], key);
      RunPreserves(Apply(w, events[0]), events[1..], key);
    }
  }
}
