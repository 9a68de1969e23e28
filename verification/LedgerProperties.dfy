/** Properties of the ledger over repeated and interleaved operations. */
module LedgerProperties {
  import opened Sums
  import opened Calendar
  import opened LedgerModel

  // ---------- settling again, settling early ----------

  /** Two NAV tables agree on every order that the first can settle: nothing was revised. */
  ghost predicate NotRevised(v: View, ctx: Context, early: Navs, late: Navs, codes: set<FundCode>)
  {
    forall key :: IsRipe(v, ctx, early, codes, key)
              ==> HasNav(ctx, late, key) && NavFor(ctx, late, key) == NavFor(ctx, early, key)
  }

  /** Settling with the NAVs known early and again with those known late gives the ledger that
      settling once, late, gives: exactly when no NAV that was settled on has been revised. */
  lemma SettleEarlyIffNotRevised(v: View, ctx: Context, early: Navs, late: Navs, codes: set<FundCode>)
    ensures Settle(Settle(v, ctx, early, codes), ctx, late, codes) == Settle(v, ctx, late, codes)
       <==> NotRevised(v, ctx, early, late, codes)
  {
    var w, once := Settle(v, ctx, early, codes), Settle(v, ctx, late, codes);
    var twice := Settle(w, ctx, late, codes);
    forall key | key in v ensures EarlyEntry(v, ctx, early, late, codes, key) {
      SettleEarlyEntry(v, ctx, early, late, codes, key);
    }
    if NotRevised(v, ctx, early, late, codes) {
      assert forall key :: key in v ==> twice[key] == once[key];
      assert twice == once;
    }
    if twice == once {
      forall key | IsRipe(v, ctx, early, codes, key)
        ensures HasNav(ctx, late, key) && NavFor(ctx, late, key) == NavFor(ctx, early, key)
      {
        assert EarlyEntry(v, ctx, early, late, codes, key);
      }
    }
  }

  ghost predicate EarlyEntry(v: View, ctx: Context, early: Navs, late: Navs, codes: set<FundCode>, key: Key)
    requires key in v
  {
    var twice, once := Settle(Settle(v, ctx, early, codes), ctx, late, codes), Settle(v, ctx, late, codes);
    key in twice && key in once
    && (twice[key] == once[key]
        <==> (IsRipe(v, ctx, early, codes, key)
              ==> HasNav(ctx, late, key) && NavFor(ctx, late, key) == NavFor(ctx, early, key)))
  }

  lemma SettleEarlyEntry(v: View, ctx: Context, early: Navs, late: Navs, codes: set<FundCode>, key: Key)
    requires key in v
    ensures EarlyEntry(v, ctx, early, late, codes, key)
  {
    hide UnitsFor;
    var w := Settle(v, ctx, early, codes);
    assert IsRipe(w, ctx, late, codes, key) <==> !IsRipe(v, ctx, early, codes, key) && IsRipe(v, ctx, late, codes, key);
  }

  lemma RipeAfterSettling(v: View, ctx: Context, early: Navs, late: Navs, codes: set<FundCode>, key: Key)
    requires IsRipe(Settle(v, ctx, early, codes), ctx, late, codes, key)
    ensures IsRipe(v, ctx, late, codes, key) && Settle(v, ctx, early, codes)[key] == v[key]
  {
    hide UnitsFor;
  }

  /** Settling what is settled already cannot make a later settlement abort. */
  lemma SettlingNeverAddsAborts(v: View, ctx: Context, early: Navs, late: Navs, codes: set<FundCode>)
    requires Aborts(Settle(v, ctx, early, codes), ctx, late, codes)
    ensures Aborts(v, ctx, late, codes)
  {
    hide UnitsFor, Settle;
    var key :| Vanishes(Settle(v, ctx, early, codes), ctx, late, codes, key);
    RipeAfterSettling(v, ctx, early, late, codes, key);
    assert Vanishes(v, ctx, late, codes, key);
  }

  lemma SettledStays(v: View, ctx: Context, navs: Navs, codes: set<FundCode>, key: Key)
    requires key in v
    ensures var w := SettleOrAbort(v, ctx, navs, codes);
            key in w && (v[key].Settled? ==> w[key] == v[key])
  {
    hide UnitsFor, Aborts;
  }

  lemma RipeIsSettled(v: View, ctx: Context, navs: Navs, codes: set<FundCode>, key: Key)
    requires key in Ripe(v, ctx, navs, codes)
    ensures key in v && v[key].Waiting? && key in Settle(v, ctx, navs, codes)
    ensures Settle(v, ctx, navs, codes)[key].Settled?
  {
    hide UnitsFor;
  }

  /** With settlements that may abort, settling early and again late gives what settling once
      late gives exactly when the early one did nothing, or the late one commits and no NAV
      used early has been revised. */
  lemma SettleEarlyIff(v: View, ctx: Context, early: Navs, late: Navs, codes: set<FundCode>)
    ensures SettleOrAbort(SettleOrAbort(v, ctx, early, codes), ctx, late, codes) == SettleOrAbort(v, ctx, late, codes)
       <==> (Aborts(v, ctx, early, codes) || Ripe(v, ctx, early, codes) == {}
             || (!Aborts(v, ctx, late, codes) && NotRevised(v, ctx, early, late, codes)))
  {
    hide Settle, Ripe, NotRevised, Aborts;
    var w := Settle(v, ctx, early, codes);
    SettleDoesNothing(v, ctx, early, codes);
    if !Aborts(v, ctx, early, codes) && Ripe(v, ctx, early, codes) != {} {
      var key :| key in Ripe(v, ctx, early, codes);
      RipeIsSettled(v, ctx, early, codes, key);
      SettledStays(w, ctx, late, codes, key);
      if !Aborts(v, ctx, late, codes) {
        if Aborts(w, ctx, late, codes) { SettlingNeverAddsAborts(v, ctx, early, late, codes); }
        SettleEarlyIffNotRevised(v, ctx, early, late, codes);
      }
    }
  }

  /** An order settled on a NAV that is later revised keeps its units, while settling once on
      the revised NAV gives others. */
  lemma RevisedNavDiverges() returns (v: View, ctx: Context, early: Navs, late: Navs, codes: set<FundCode>)
    ensures early.Keys == late.Keys && Ripe(v, ctx, early, codes) == v.Keys
    ensures Settle(Settle(v, ctx, early, codes), ctx, late, codes) != Settle(v, ctx, late, codes)
  {
    var position := Position("platform", "S", Snapshot(1, 1.0, 1.0, 0.0, 0.0, None, 1, 1.0), None, true);
    v, codes := map[(0, 2) := Waiting(Amounts(10.0, 0.0, 10.0), 4)], {"F"};
    ctx := Context(map[0 := position], map["S" := Share("F", "CNY")]);
    early, late := map[("S", 2) := Nav(1.0, "")], map[("S", 2) := Nav(2.0, "")];
    assert IsRipe(v, ctx, early, codes, (0, 2));
    SettleEarlyIffNotRevised(v, ctx, early, late, codes);
  }

  /** Settling twice in a row changes nothing the second time. */
  lemma SettleTwice(v: View, ctx: Context, navs: Navs, codes: set<FundCode>)
    ensures SettleOrAbort(SettleOrAbort(v, ctx, navs, codes), ctx, navs, codes) == SettleOrAbort(v, ctx, navs, codes)
  {
    hide Settle, Ripe, Aborts;
    assert NotRevised(v, ctx, navs, navs, codes);
    SettleEarlyIff(v, ctx, navs, navs, codes);
  }

  ghost predicate Compatible(a: Navs, b: Navs)
  {
    forall k :: k in a && k in b ==> a[k] == b[k]
  }

  /** NAV batches arrive one after the other; the ledger is settled after each. */
  ghost function SettleEach(v: View, ctx: Context, navs: Navs, batches: seq<Navs>, codes: set<FundCode>): View
    decreases batches
  {
    if batches == [] then v
    else SettleEach(SettleOrAbort(v, ctx, navs + batches[0], codes), ctx, navs + batches[0], batches[1..], codes)
  }

  ghost function Arrived(navs: Navs, batches: seq<Navs>): Navs
    decreases batches
  {
    if batches == [] then navs else Arrived(navs + batches[0], batches[1..])
  }

  /** No batch revises a NAV that is already stored. */
  ghost predicate NeverRevised(navs: Navs, batches: seq<Navs>)
    decreases batches
  {
    batches == [] || (Compatible(navs, batches[0]) && NeverRevised(navs + batches[0], batches[1..]))
  }

  lemma {:induction false} ArrivedKeeps(navs: Navs, batches: seq<Navs>)
    requires NeverRevised(navs, batches)
    ensures forall k :: k in navs ==> k in Arrived(navs, batches) && Arrived(navs, batches)[k] == navs[k]
    decreases batches
  {
    if batches != [] {
      var more := navs + batches[0];
      ArrivedKeeps(more, batches[1..]);
      forall k | k in navs ensures k in Arrived(navs, batches) && Arrived(navs, batches)[k] == navs[k] {
        assert k in more && more[k] == navs[k];
      }
    }
  }

  /** No batch settles anything when its turn comes: its settlement aborts or finds nothing. */
  ghost predicate NoBatchSettles(v: View, ctx: Context, navs: Navs, batches: seq<Navs>, codes: set<FundCode>)
    decreases batches
  {
    batches == []
    || ((Aborts(v, ctx, navs + batches[0], codes) || Ripe(v, ctx, navs + batches[0], codes) == {})
        && NoBatchSettles(v, ctx, navs + batches[0], batches[1..], codes))
  }

  /** Confluence: settling after every arriving batch ends in the same ledger as settling once
      when all have arrived, provided that one settlement commits. */
  lemma {:induction false} SettleEachIsSettleOnce(
      v: View, ctx: Context, navs: Navs, batches: seq<Navs>, codes: set<FundCode>)
    requires NeverRevised(navs, batches) && batches != [] && !Aborts(v, ctx, Arrived(navs, batches), codes)
    ensures SettleEach(v, ctx, navs, batches, codes) == Settle(v, ctx, Arrived(navs, batches), codes)
    decreases batches
  {
    hide Settle, Aborts, Compatible;
    var first, rest := navs + batches[0], batches[1..];
    var all := Arrived(first, rest);
    ArrivedKeeps(first, rest);
    EarlierNeverAborts(v, ctx, first, all, codes);
    if rest == [] {
      assert SettleEach(Settle(v, ctx, first, codes), ctx, first, rest, codes) == Settle(v, ctx, first, codes);
    } else {
      if Aborts(Settle(v, ctx, first, codes), ctx, all, codes) { SettlingNeverAddsAborts(v, ctx, first, all, codes); }
      SettleEachIsSettleOnce(Settle(v, ctx, first, codes), ctx, first, rest, codes);
      NeverRevisedSettles(v, ctx, first, all, codes);
    }
  }

  lemma EarlierNeverAborts(v: View, ctx: Context, early: Navs, late: Navs, codes: set<FundCode>)
    requires (forall k :: k in early ==> k in late && late[k] == early[k]) && !Aborts(v, ctx, late, codes)
    ensures !Aborts(v, ctx, early, codes)
  {
    hide UnitsFor;
    assert forall key :: Vanishes(v, ctx, early, codes, key) ==> Vanishes(v, ctx, late, codes, key);
  }

  lemma {:induction false} EachKeepsSettled(
      v: View, ctx: Context, navs: Navs, batches: seq<Navs>, codes: set<FundCode>, key: Key)
    requires key in v && v[key].Settled?
    ensures var w := SettleEach(v, ctx, navs, batches, codes); key in w && w[key] == v[key]
    decreases batches
  {
    hide SettleOrAbort;
    if batches != [] {
      SettledStays(v, ctx, navs + batches[0], codes, key);
      EachKeepsSettled(SettleOrAbort(v, ctx, navs + batches[0], codes), ctx, navs + batches[0], batches[1..], codes,
                       key);
    }
  }

  lemma {:induction false} NothingSettledIff(
    v: View, ctx: Context, navs: Navs, batches: seq<Navs>, codes: set<FundCode>)
    ensures SettleEach(v, ctx, navs, batches, codes) == v <==> NoBatchSettles(v, ctx, navs, batches, codes)
    decreases batches
  {
    hide Settle, Ripe, Aborts;
    if batches != [] {
      var first := navs + batches[0];
      SettleDoesNothing(v, ctx, first, codes);
      if Aborts(v, ctx, first, codes) || Ripe(v, ctx, first, codes) == {} {
        NothingSettledIff(v, ctx, first, batches[1..], codes);
      } else {
        var key :| key in Ripe(v, ctx, first, codes);
        RipeIsSettled(v, ctx, first, codes, key);
        EachKeepsSettled(Settle(v, ctx, first, codes), ctx, first, batches[1..], codes, key);
      }
    }
  }

  /** Exactly when confluence holds for never-revised NAVs: the one settlement at the end
      commits, or none of the settlements on the way did anything either. */
  lemma ConfluenceIff(v: View, ctx: Context, navs: Navs, batches: seq<Navs>, codes: set<FundCode>)
    requires NeverRevised(navs, batches) && batches != []
    ensures SettleEach(v, ctx, navs, batches, codes) == SettleOrAbort(v, ctx, Arrived(navs, batches), codes)
       <==> (!Aborts(v, ctx, Arrived(navs, batches), codes) || NoBatchSettles(v, ctx, navs, batches, codes))
  {
    hide Settle, Aborts, SettleEach, NoBatchSettles, Arrived, NeverRevised;
    if Aborts(v, ctx, Arrived(navs, batches), codes) {
      NothingSettledIff(v, ctx, navs, batches, codes);
    } else {
      SettleEachIsSettleOnce(v, ctx, navs, batches, codes);
    }
  }

  lemma NeverRevisedSettles(v: View, ctx: Context, early: Navs, late: Navs, codes: set<FundCode>)
    requires forall k :: k in early ==> k in late && late[k] == early[k]
    ensures Settle(Settle(v, ctx, early, codes), ctx, late, codes) == Settle(v, ctx, late, codes)
  {
    assert NotRevised(v, ctx, early, late, codes);
    SettleEarlyIffNotRevised(v, ctx, early, late, codes);
  }

  /** Orders of different days do not interfere: creating and settling commute whenever the
      new orders have no NAV yet. */
  lemma CreateThenSettle(v: View, ctx: Context, navs: Navs, codes: set<FundCode>, date: Date)
    requires forall pid :: Planned(ctx, pid, codes) && (pid, date) !in v ==> !HasNav(ctx, navs, (pid, date))
    ensures SettleOrAbort(CreateOrders(v, ctx, codes, date), ctx, navs, codes)
         == CreateOrders(SettleOrAbort(v, ctx, navs, codes), ctx, codes, date)
  {
    hide UnitsFor, NewEntry, Settle;
    var w := CreateOrders(v, ctx, codes, date);
    forall key ensures Vanishes(w, ctx, navs, codes, key) <==> Vanishes(v, ctx, navs, codes, key) {
      NewOrdersUnripe(v, ctx, navs, codes, date, key);
    }
    CreateThenCommit(v, ctx, navs, codes, date);
  }

  lemma NewOrdersUnripe(v: View, ctx: Context, navs: Navs, codes: set<FundCode>, date: Date, key: Key)
    requires forall pid :: Planned(ctx, pid, codes) && (pid, date) !in v ==> !HasNav(ctx, navs, (pid, date))
    ensures var w := CreateOrders(v, ctx, codes, date);
            && (IsRipe(w, ctx, navs, codes, key) <==> IsRipe(v, ctx, navs, codes, key))
            && (key in v ==> key in w && w[key] == v[key])
  {
    hide NewEntry;
  }

  lemma CreateThenCommit(v: View, ctx: Context, navs: Navs, codes: set<FundCode>, date: Date)
    requires forall pid :: Planned(ctx, pid, codes) && (pid, date) !in v ==> !HasNav(ctx, navs, (pid, date))
    ensures Settle(CreateOrders(v, ctx, codes, date), ctx, navs, codes)
         == CreateOrders(Settle(v, ctx, navs, codes), ctx, codes, date)
  {
    hide UnitsFor, NewEntry;
    var a := Settle(CreateOrders(v, ctx, codes, date), ctx, navs, codes);
    var b := CreateOrders(Settle(v, ctx, navs, codes), ctx, codes, date);
    assert a.Keys == b.Keys;
    forall key | key in a ensures a[key] == b[key] {
    }
  }

  // ---------- the check for work ----------

  /** An order that the check reports and settling skips: its position is not active. */
  ghost predicate Stuck(v: View, ctx: Context, navs: Navs, codes: set<FundCode>, key: Key)
  {
    && key in v && v[key].Waiting? && InFunds(ctx, key.0, codes) && HasNav(ctx, navs, key)
    && !IsActive(ctx, key.0)
  }

  lemma CreateDoesNothing(v: View, ctx: Context, codes: set<FundCode>, date: Date)
    ensures CreateOrders(v, ctx, codes, date) == v
       <==> !(IsWeekday(date) && exists pid :: Planned(ctx, pid, codes) && (pid, date) !in v)
  {
    hide NewEntry;
    var w := CreateOrders(v, ctx, codes, date);
    if pid :| Planned(ctx, pid, codes) && (pid, date) !in v && IsWeekday(date) {
      assert pid in PlannedPositions(ctx, codes);
      assert (pid, date) in w;
    } else {
      assert w.Keys == v.Keys;
      assert forall key :: key in v ==> w[key] == v[key];
    }
  }

  lemma SettleDoesNothing(v: View, ctx: Context, navs: Navs, codes: set<FundCode>)
    ensures Settle(v, ctx, navs, codes) == v <==> Ripe(v, ctx, navs, codes) == {}
  {
    hide UnitsFor;
    var w := Settle(v, ctx, navs, codes);
    if key :| key in Ripe(v, ctx, navs, codes) {
      assert v[key].Waiting? && w[key].Settled?;
    } else {
      assert forall key :: key in v ==> w[key] == v[key];
      assert w.Keys == v.Keys;
    }
  }

  lemma RunIsStep(v: View, ctx: Context, navs: Navs, codes: set<FundCode>, date: Date)
    ensures Settle(CreateOrders(v, ctx, codes, date), ctx, navs, codes) == v
       <==> CreateOrders(v, ctx, codes, date) == v && Settle(v, ctx, navs, codes) == v
  {
    var w := CreateOrders(v, ctx, codes, date);
    if Settle(w, ctx, navs, codes) == v {
      assert w.Keys == Settle(w, ctx, navs, codes).Keys;
      assert forall key :: key in v ==> key in w && w[key] == v[key];
      assert w == v;
    }
  }

  /** One daily run: orders of the day, then settlement. */
  ghost function DailyRun(v: View, ctx: Context, navs: Navs, codes: set<FundCode>, date: Date): View
  {
    SettleOrAbort(CreateOrders(v, ctx, codes, date), ctx, navs, codes)
  }

  /** If the check says nothing is pending, a daily run changes nothing. A run changes nothing
      exactly when everything the check reports is stuck, or no order is missing and the
      settlement aborts. */
  lemma PendingIsSound(v: View, ctx: Context, navs: Navs, codes: set<FundCode>, date: Date)
    ensures !Pending(v, ctx, navs, codes, date) ==> DailyRun(v, ctx, navs, codes, date) == v
    ensures DailyRun(v, ctx, navs, codes, date) == v
       <==> (!Pending(v, ctx, navs, codes, date) || OnlyStuck(v, ctx, navs, codes, date)
             || (CreateOrders(v, ctx, codes, date) == v && Aborts(v, ctx, navs, codes)))
  {
    hide Settle, CreateOrders, Ripe, Aborts;
    RunIsStep(v, ctx, navs, codes, date);
    CreateDoesNothing(v, ctx, codes, date);
    SettleDoesNothing(v, ctx, navs, codes);
    NothingRipe(v, ctx, navs, codes);
  }

  ghost predicate OnlyStuck(v: View, ctx: Context, navs: Navs, codes: set<FundCode>, date: Date)
  {
    && !(IsWeekday(date) && exists pid :: Planned(ctx, pid, codes) && (pid, date) !in v)
    && forall key :: key in v && v[key].Waiting? && InFunds(ctx, key.0, codes) && HasNav(ctx, navs, key)
                 ==> !IsActive(ctx, key.0)
  }

  lemma NothingRipe(v: View, ctx: Context, navs: Navs, codes: set<FundCode>)
    ensures Ripe(v, ctx, navs, codes) == {}
       <==> forall key :: key in v && v[key].Waiting? && InFunds(ctx, key.0, codes) && HasNav(ctx, navs, key)
                      ==> !IsActive(ctx, key.0)
  {
    assert forall key :: key in Ripe(v, ctx, navs, codes) <==>
      key in v && v[key].Waiting? && InFunds(ctx, key.0, codes) && HasNav(ctx, navs, key) && IsActive(ctx, key.0);
  }

  /** Right after a daily run the check still reports work exactly when some waiting order of
      a deactivated position has a NAV, or the settlement has aborted. */
  lemma PendingAfterRun(v: View, ctx: Context, navs: Navs, codes: set<FundCode>, date: Date)
    ensures Pending(DailyRun(v, ctx, navs, codes, date), ctx, navs, codes, date)
       <==> ((exists key :: Stuck(v, ctx, navs, codes, key))
             || Aborts(CreateOrders(v, ctx, codes, date), ctx, navs, codes))
  {
    hide UnitsFor, CreateOrders, Settle, Pending, Stuck;
    if Aborts(CreateOrders(v, ctx, codes, date), ctx, navs, codes) {
      AbortedIsPending(CreateOrders(v, ctx, codes, date), ctx, navs, codes, date);
    } else {
      PendingAfterCommit(v, ctx, navs, codes, date);
    }
  }

  lemma AbortedIsPending(v: View, ctx: Context, navs: Navs, codes: set<FundCode>, date: Date)
    requires Aborts(v, ctx, navs, codes)
    ensures Pending(v, ctx, navs, codes, date)
  {
    hide UnitsFor;
    var key :| Vanishes(v, ctx, navs, codes, key);
  }

  lemma PendingAfterCommit(v: View, ctx: Context, navs: Navs, codes: set<FundCode>, date: Date)
    ensures Pending(Settle(CreateOrders(v, ctx, codes, date), ctx, navs, codes), ctx, navs, codes, date)
       <==> exists key :: Stuck(v, ctx, navs, codes, key)
  {
    hide UnitsFor, NewEntry;
    var w := CreateOrders(v, ctx, codes, date);
    var x := Settle(w, ctx, navs, codes);
    forall pid | Planned(ctx, pid, codes) && IsWeekday(date) ensures (pid, date) in x {
      assert pid in PlannedPositions(ctx, codes);
    }
    if key :| Stuck(v, ctx, navs, codes, key) {
      assert key in x && x[key] == v[key];
    }
    if key :| key in x && x[key].Waiting? && InFunds(ctx, key.0, codes) && HasNav(ctx, navs, key) {
      AfterRunStuck(v, ctx, navs, codes, date, key);
    }
  }

  lemma AfterRunStuck(v: View, ctx: Context, navs: Navs, codes: set<FundCode>, date: Date, key: Key)
    requires var x := Settle(CreateOrders(v, ctx, codes, date), ctx, navs, codes);
             key in x && x[key].Waiting? && InFunds(ctx, key.0, codes) && HasNav(ctx, navs, key)
    ensures Stuck(v, ctx, navs, codes, key)
  {
    hide UnitsFor, NewEntry;
    var w := CreateOrders(v, ctx, codes, date);
    var x := Settle(w, ctx, navs, codes);
    assert !IsRipe(w, ctx, navs, codes, key);
    assert x[key] == w[key];
  }

  /** With every position of the listed funds active, the check is exact after each run that
      commits. */
  lemma NothingPendingAfterRun(v: View, ctx: Context, navs: Navs, codes: set<FundCode>, date: Date)
    requires forall pid :: InFunds(ctx, pid, codes) ==> IsActive(ctx, pid)
    requires !Aborts(CreateOrders(v, ctx, codes, date), ctx, navs, codes)
    ensures !Pending(DailyRun(v, ctx, navs, codes, date), ctx, navs, codes, date)
  {
    PendingAfterRun(v, ctx, navs, codes, date);
  }
}
