/** A history in which importing an unchanged payload again loses an order, because a NAV for a day
    before the snapshot has arrived since. */
module LateNavs {
  import opened Sums
  import opened Calendar
  import opened LedgerModel
  import opened PortfolioImport
  import opened LedgerRuns
  import opened StuckOrders

  /** The NAV of day 1, the snapshot of day 2, and the order of day 3. */
  function OrderedOnDayThree(): seq<Event>
  {
    [NavArrives(SHARE, 1, ONE), Import([Row(2, true)]), Create({FUND}, 3)]
  }

  lemma LateAnchor()
    ensures AnchorDate(map[(SHARE, 1) := ONE, (SHARE, 2) := ONE], SHARE, 2) == Some(2)
  {
    var navs: Navs := map[(SHARE, 1) := ONE, (SHARE, 2) := ONE];
    assert (SHARE, 1) in navs && (SHARE, 2) in navs;
    assert NavDates(navs, SHARE) == {1, 2};
    PredecessorIs({1, 2}, 3, 2);
  }

  /** All values are whole, so importing the row again changes nothing; but once the NAV of day 2
      has arrived, importing it again clears the ledger. */
  lemma LateNavLosesOrder()
    ensures var w := Run(Start(Catalogue()), OrderedOnDayThree());
            && w.portfolio.ledger.Keys == {(0, 3)}
            && Run(w, [Import([Row(2, true)])]) == w
            && Run(w, [NavArrives(SHARE, 2, ONE), Import([Row(2, true)])]).portfolio.ledger == map[]
  {
    hide Imported, CreateOrders, Catalogue, Row, Accepted, WeekdaysAfter, AnchorDate;
    var early: Navs, late: Navs := map[(SHARE, 1) := ONE], map[(SHARE, 1) := ONE, (SHARE, 2) := ONE];
    var ledger: View := map[(0, 3) := Waiting(Amounts(10.0, 0.0, 10.0), WeekdaysAfter(3, 2))];
    var before := map[0 := Accepted(2, 1, true)];
    var w1 := World(Portfolio(map[], map[], 0), Catalogue(), early);
    var w2 := World(Portfolio(before, map[], 1), Catalogue(), early);
    var w := World(Portfolio(before, ledger, 1), Catalogue(), early);
    OneNav(2, 1);
    FirstImport(early, 2, 1);
    OrderCreated(2, 1, 3);
    assert Apply(Start(Catalogue()), NavArrives(SHARE, 1, ONE)) == w1;
    assert Apply(w1, Import([Row(2, true)])) == w2;
    assert Apply(w2, Create({FUND}, 3)) == w;
    ThreeSteps(Start(Catalogue()), OrderedOnDayThree(), w1, w2, w);
    SecondImport(early, 2, 1, 1, true, ledger);
    assert Apply(w, Import([Row(2, true)])) == w;
    OneStep(w, Import([Row(2, true)]));
    LateAnchor();
    SecondImport(late, 2, 1, 2, true, ledger);
    var w' := w.(navs := late);
    assert Apply(w, NavArrives(SHARE, 2, ONE)) == w';
    assert Apply(w', Import([Row(2, true)])).portfolio.ledger == Forget(ledger, 0) == map[];
    RunStep(w, NavArrives(SHARE, 2, ONE), [Import([Row(2, true)])]);
    OneStep(w', Import([Row(2, true)]));
  }

  lemma OneStep(w: World, e: Event)
    ensures Run(w, [e]) == Apply(w, e)
  {
    hide Apply;
    assert [e][1..] == [];
  }

  lemma ThreeSteps(w0: World, es: seq<Event>, w1: World, w2: World, w3: World)
    requires |es| == 3 && w1 == Apply(w0, es[0]) && w2 == Apply(w1, es[1]) && w3 == Apply(w2, es[2])
    ensures Run(w0, es) == w3
  {
    hide Apply;
    RunStep(w0, es[0], es[1..]);
    RunStep(w1, es[1], es[2..]);
    OneStep(w2, es[2]);
    assert es == [es[0]] + es[1..] && es[1..] == [es[1]] + es[2..] && es[2..] == [es[2]];
  }
}
