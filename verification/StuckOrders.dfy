/** A waiting order of a deactivated position: a history that leads to one, and why no operation
    but an import of that position gets rid of it. */
module StuckOrders {
  import opened Sums
  import opened Decimals
  import opened Calendar
  import opened LedgerModel
  import opened LedgerProperties
  import opened PortfolioImport
  import opened ImportLedgers
  import opened LedgerRuns

  // ---------- stuck until the position is imported again ----------

  predicate ImportsIdentity(e: Event, id: Identity)
  {
    e.Import? && exists i :: 0 <= i < |e.inputs| && IdentityOf(e.inputs[i]) == id
  }

  ghost predicate StuckIn(w: World, codes: set<FundCode>, key: Key)
  {
    Stuck(w.portfolio.ledger, ContextOf(w), w.navs, codes, key)
  }

  ghost predicate Held(w: World, id: Identity, key: Key)
  {
    key.0 in w.portfolio.positions
    && (w.portfolio.positions[key.0].platform, w.portfolio.positions[key.0].share) == id
  }

  lemma StepKeepsStuck(w: World, e: Event, id: Identity, codes: set<FundCode>, key: Key)
    requires Sound(w) && StuckIn(w, codes, key) && Held(w, id, key) && !ImportsIdentity(e, id)
    ensures StuckIn(Apply(w, e), codes, key) && Held(Apply(w, e), id, key)
  {
    match e
    case Create(_, _) => CreateKeepsStuck(w, e, id, codes, key);
    case SettleAll(_) => SettleKeepsStuck(w, e, id, codes, key);
    case NavArrives(_, _, _) =>
    case Import(inputs) =>
      hide Sound, Imported;
      if Imported(w.portfolio, w.shares, w.navs, inputs, {}).Ok? {
        assert WellFormed(w.portfolio) by { SoundIsWellFormed(w); }
        ImportUntouched(w.portfolio, w.shares, w.navs, inputs, {}, key.0);
      }
  }

  lemma SoundIsWellFormed(w: World)
    requires Sound(w)
    ensures WellFormed(w.portfolio)
  {
  }

  lemma CreateKeepsStuck(w: World, e: Event, id: Identity, codes: set<FundCode>, key: Key)
    requires e.Create? && StuckIn(w, codes, key) && Held(w, id, key)
    ensures StuckIn(Apply(w, e), codes, key) && Held(Apply(w, e), id, key)
  {
    hide NewEntry;
  }

  lemma SettleKeepsStuck(w: World, e: Event, id: Identity, codes: set<FundCode>, key: Key)
    requires e.SettleAll? && StuckIn(w, codes, key) && Held(w, id, key)
    ensures StuckIn(Apply(w, e), codes, key) && Held(Apply(w, e), id, key)
  {
    hide UnitsFor, Aborts;
  }

  /** Whatever is created, settled, published, revised or imported for other positions: the order
      stays stuck, and the check for work stays positive on every date. */
  lemma {:induction false} StuckUntilImported(
    w: World, events: seq<Event>, id: Identity, codes: set<FundCode>, key: Key)
    requires Sound(w) && StuckIn(w, codes, key) && Held(w, id, key)
    requires forall i :: 0 <= i < |events| ==> !ImportsIdentity(events[i], id)
    ensures StuckIn(Run(w, events), codes, key)
    ensures forall date ::
      Pending(Run(w, events).portfolio.ledger, ContextOf(Run(w, events)), Run(w, events).navs, codes, date)
    decreases events
  {
    hide Sound, Apply, Held, ImportsIdentity;
    if events == [] {
      StuckIsPending(w, codes, key);
    } else {
      StepSound(w, events[0]);
      StepKeepsStuck(w, events[0], id, codes, key);
      StuckUntilImported(Apply(w, events[0]), events[1..], id, codes, key);
    }
  }

  lemma StuckIsPending(w: World, codes: set<FundCode>, key: Key)
    requires StuckIn(w, codes, key)
    ensures forall date :: Pending(w.portfolio.ledger, ContextOf(w), w.navs, codes, date)
  {
  }

  // ---------- a history with a stuck order ----------

  const SHARE: ShareCode := "000001"
  const FUND: FundCode := "000001"
  const ONE: Nav := Nav(1.0, "provider")

  function Catalogue(): map<ShareCode, Share>
  {
    map[SHARE := Share(FUND, "CNY")]
  }

  function Row(date: Date, active: bool): PositionInput
  {
    PositionInput(SHARE, "platform", date, None, 1.0, 1.0, 0.0, 0.0, None,
                  Some(RecurringInput(true, 10.0, 0.0, None, 2)), active)
  }

  /** The row as accepted, and as stored: no value needs rounding. */
  function Accepted(date: Date, anchor: Date, active: bool): Position
  {
    Position("platform", SHARE, Snapshot(date, 1.0, 1.0, 0.0, 0.0, None, anchor, 1.0),
             Some(Plan(Amounts(10.0, 0.0, 10.0), 2)), active)
  }

  /** A NAV, an import with a daily plan, the order of the next day, an import that deactivates the
      position and changes nothing else, and the NAV of that day. */
  function History(): seq<Event>
  {
    [NavArrives(SHARE, 1, ONE), Import([Row(1, true)]), Create({FUND}, 2), Import([Row(1, false)]),
     NavArrives(SHARE, 2, ONE)]
  }

  lemma WholeValues()
    ensures forall x :: x in {0.0, 1.0, 10.0} ==>
      MoneyColumn(x) == x && QuantityColumn(x) == x && Quantize(x, CENTS) == x
  {
    WholeOnGrid(0);
    WholeOnGrid(1);
    WholeOnGrid(10);
  }

  lemma WholeOnGrid(n: int)
    ensures var x := n as real; MoneyColumn(x) == x && QuantityColumn(x) == x && Quantize(x, CENTS) == x
  {
    var x := n as real;
    FloorOfInteger(n * 100);
    FloorOfInteger(n * 1000000);
    FloorOfInteger(n * 100000000);
    assert Steps(x, CENTS) == (n * 100) as real;
    assert Steps(x, MONEY_SCALE) == (n * 1000000) as real;
    assert Steps(x, QUANTITY_SCALE) == (n * 100000000) as real;
    assert OnGrid(x, CENTS) && OnGrid(x, MONEY_SCALE) && OnGrid(x, QUANTITY_SCALE);
    hide Quantize, OnGrid;
    QuantizeOnGrid(x, CENTS);
    QuantizeOnGrid(x, MONEY_SCALE);
    QuantizeOnGrid(x, QUANTITY_SCALE);
  }

  lemma PlanAccepted()
    ensures RecurringValues(Some(RecurringInput(true, 10.0, 0.0, None, 2)))
            == Ok(Some(Plan(Amounts(10.0, 0.0, 10.0), 2)))
  {
    WholeValues();
    hide Quantize;
    assert Over(10.0, FeeFactor(0.0)) == 10.0;
    assert 10.0 in {0.0, 1.0, 10.0};
  }

  lemma AcceptedIsStored(date: Date, anchor: Date, active: bool)
    ensures StoredPosition(Accepted(date, anchor, active)) == Accepted(date, anchor, active)
    ensures ConstraintsHold(Accepted(date, anchor, active))
  {
    WholeValues();
    assert 0.0 in {0.0, 1.0, 10.0} && 1.0 in {0.0, 1.0, 10.0} && 10.0 in {0.0, 1.0, 10.0};
    hide MoneyColumn, QuantityColumn;
  }

  lemma RowAccepted(navs: Navs, date: Date, anchor: Date, active: bool)
    requires AnchorDate(navs, SHARE, date) == Some(anchor) && navs[(SHARE, anchor)].unit == 1.0
    ensures Validated(Catalogue(), navs, Row(date, active)) == Ok(Accepted(date, anchor, active))
  {
    hide RecurringValues, StoredPosition, ConstraintsHold, AnchorDate;
    PlanAccepted();
    AcceptedIsStored(date, anchor, active);
  }

  lemma OneNav(date: Date, anchor: Date)
    requires anchor <= date
    ensures AnchorDate(map[(SHARE, anchor) := ONE], SHARE, date) == Some(anchor)
  {
    var navs: Navs := map[(SHARE, anchor) := ONE];
    assert (SHARE, anchor) in navs;
    assert NavDates(navs, SHARE) == {anchor};
    PredecessorIs({anchor}, date + 1, anchor);
  }

  /** The first import of the row stores it as it is given. */
  lemma FirstImport(navs: Navs, date: Date, anchor: Date)
    requires AnchorDate(navs, SHARE, date) == Some(anchor) && navs[(SHARE, anchor)].unit == 1.0
    ensures Imported(Portfolio(map[], map[], 0), Catalogue(), navs, [Row(date, true)], {})
         == Ok(Portfolio(map[0 := Accepted(date, anchor, true)], map[], 1))
  {
    var p, position := Portfolio(map[], map[], 0), Accepted(date, anchor, true);
    RowAccepted(navs, date, anchor, true);
    AcceptedIsStored(date, anchor, true);
    hide Validated, StoredPosition, Written, Catalogue, Row, Accepted, AnchorDate;
    assert Written(p, Row(date, true), position) == Portfolio(map[0 := position], map[], 1) by {
      WrittenIs(p, Row(date, true), position);
    }
    ImportOne(p, Catalogue(), navs, Row(date, true), position);
  }

  lemma ImportOne(p: Portfolio, shares: map<ShareCode, Share>, navs: Navs, input: PositionInput, position: Position)
    requires Validated(shares, navs, input) == Ok(position)
    ensures Imported(p, shares, navs, [input], {}) == Ok(Written(p, input, position))
  {
    hide Validated, Written;
    assert [input][1..] == [];
    assert Imported(Written(p, input, position), shares, navs, [], {IdentityOf(input)})
           == Ok(Written(p, input, position));
  }

  /** Importing it again forgets the ledger if the anchor has moved, whether or not it is active. */
  lemma SecondImport(navs: Navs, date: Date, before: Date, anchor: Date, active: bool, ledger: View)
    requires AnchorDate(navs, SHARE, date) == Some(anchor) && navs[(SHARE, anchor)].unit == 1.0
    ensures Imported(Portfolio(map[0 := Accepted(date, before, true)], ledger, 1), Catalogue(), navs,
                     [Row(date, active)], {})
         == Ok(Portfolio(map[0 := Accepted(date, anchor, active)],
                         if before == anchor then ledger else Forget(ledger, 0), 1))
  {
    var p := Portfolio(map[0 := Accepted(date, before, true)], ledger, 1);
    var input, position := Row(date, active), Accepted(date, anchor, active);
    RowAccepted(navs, date, anchor, active);
    AcceptedIsStored(date, anchor, active);
    hide Validated, StoredPosition, Written, AnchorDate, Forget;
    assert RowFor(p.positions, input, 0);
    assert RowId(p.positions, input) == Some(0);
    WrittenIs(p, input, position);
    assert p.positions[0 := position] == map[0 := position];
    ImportOne(p, Catalogue(), navs, input, position);
  }

  lemma OrderCreated(snapshotDate: Date, anchor: Date, date: Date)
    requires IsWeekday(date)
    ensures CreateOrders(map[], Context(map[0 := Accepted(snapshotDate, anchor, true)], Catalogue()), {FUND}, date)
         == map[(0, date) := Waiting(Amounts(10.0, 0.0, 10.0), WeekdaysAfter(date, 2))]
  {
    hide WeekdaysAfter, IsWeekday;
    var ctx := Context(map[0 := Accepted(snapshotDate, anchor, true)], Catalogue());
    assert Planned(ctx, 0, {FUND});
    assert PlannedPositions(ctx, {FUND}) == {0};
    assert KeysOn({0}, date) == {(0, date)};
    var v := CreateOrders(map[], ctx, {FUND}, date);
    assert v.Keys == {(0, date)};
    assert v[(0, date)] == NewEntry(ctx, (0, date));
  }

  lemma RunStep(w: World, e: Event, events: seq<Event>)
    ensures Run(w, [e] + events) == Run(Apply(w, e), events)
  {
    assert ([e] + events)[1..] == events;
  }

  /** After that history the order is stuck, so it stays stuck until the position is imported
      again, and until then no daily run is ever skipped. */
  lemma StuckHistory(events: seq<Event>)
    requires forall i :: 0 <= i < |events| ==> !ImportsIdentity(events[i], ("platform", SHARE))
    ensures StuckIn(Run(Run(Start(Catalogue()), History()), events), {FUND}, (0, 2))
    ensures forall date ::
      (var w := Run(Run(Start(Catalogue()), History()), events);
       Pending(w.portfolio.ledger, ContextOf(w), w.navs, {FUND}, date))
  {
    hide Run, History, Catalogue, Sound, StuckIn, Held, ImportsIdentity, Pending;
    var w := HistoryEnds();
    RunSoundFrom(Start(Catalogue()), History()) by { StartSound(Catalogue()); }
    EndIsStuck(w);
    StuckUntilImported(w, events, ("platform", SHARE), {FUND}, (0, 2));
  }

  lemma StartSound(shares: map<ShareCode, Share>)
    ensures Sound(Start(shares))
  {
  }

  lemma EndIsStuck(w: World)
    requires w.portfolio.positions == map[0 := Accepted(1, 1, false)] && w.shares == Catalogue()
    requires w.portfolio.ledger == map[(0, 2) := Waiting(Amounts(10.0, 0.0, 10.0), WeekdaysAfter(2, 2))]
    requires (SHARE, 2) in w.navs
    ensures StuckIn(w, {FUND}, (0, 2)) && Held(w, ("platform", SHARE), (0, 2))
  {
    hide WeekdaysAfter;
  }

  lemma HistoryEnds() returns (w: World)
    ensures w == Run(Start(Catalogue()), History())
    ensures w.portfolio.positions == map[0 := Accepted(1, 1, false)] && w.shares == Catalogue()
    ensures w.portfolio.ledger == map[(0, 2) := Waiting(Amounts(10.0, 0.0, 10.0), WeekdaysAfter(2, 2))]
    ensures (SHARE, 2) in w.navs
  {
    hide Imported, CreateOrders, Catalogue, Row, Accepted, WeekdaysAfter;
    var navs: Navs := map[(SHARE, 1) := ONE];
    var ledger: View := map[(0, 2) := Waiting(Amounts(10.0, 0.0, 10.0), WeekdaysAfter(2, 2))];
    var w1 := World(Portfolio(map[], map[], 0), Catalogue(), navs);
    var w2 := World(Portfolio(map[0 := Accepted(1, 1, true)], map[], 1), Catalogue(), navs);
    var w3 := World(Portfolio(map[0 := Accepted(1, 1, true)], ledger, 1), Catalogue(), navs);
    var w4 := World(Portfolio(map[0 := Accepted(1, 1, false)], ledger, 1), Catalogue(), navs);
    w := World(Portfolio(map[0 := Accepted(1, 1, false)], ledger, 1), Catalogue(), navs[(SHARE, 2) := ONE]);
    OneNav(1, 1);
    FirstImport(navs, 1, 1);
    OrderCreated(1, 1, 2);
    SecondImport(navs, 1, 1, 1, false, ledger);
    assert Apply(Start(Catalogue()), NavArrives(SHARE, 1, ONE)) == w1;
    assert Apply(w1, Import([Row(1, true)])) == w2;
    assert Apply(w2, Create({FUND}, 2)) == w3;
    assert Apply(w3, Import([Row(1, false)])) == w4;
    assert Apply(w4, NavArrives(SHARE, 2, ONE)) == w;
    FiveSteps(Start(Catalogue()), History(), w1, w2, w3, w4, w);
  }

  lemma FiveSteps(w0: World, es: seq<Event>, w1: World, w2: World, w3: World, w4: World, w5: World)
    requires |es| == 5 && w1 == Apply(w0, es[0]) && w2 == Apply(w1, es[1]) && w3 == Apply(w2, es[2])
    requires w4 == Apply(w3, es[3]) && w5 == Apply(w4, es[4])
    ensures Run(w0, es) == w5
  {
    hide Apply;
    RunStep(w0, es[0], es[1..]);
    RunStep(w1, es[1], es[2..]);
    RunStep(w2, es[2], es[3..]);
    RunStep(w3, es[3], es[4..]);
    RunStep(w4, es[4], []);
    assert es == [es[0]] + es[1..] && es[1..] == [es[1]] + es[2..] && es[2..] == [es[2]] + es[3..];
    assert es[3..] == [es[3]] + es[4..] && es[4..] == [es[4]] + [];
  }
}
