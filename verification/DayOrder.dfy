/** Daily predictions in date order (backend/app/q2_analysis/consistency.py:124, 198). */
module DayOrder {
  import opened Sums
  import opened Calendar

  /** One day's outcome: actual and predicted return in percent, either possibly missing, and
      the weight the model explained that day. */
  datatype Day = Day(navDate: Date, actual: Option<real>, predicted: Option<real>, explained: real)

  // ---------- days in date order: a stable insertion sort ----------

  function Insert(ordered: seq<Day>, d: Day): seq<Day>
  {
    var last := |ordered| - 1;
    if last < 0 || ordered[last].navDate <= d.navDate then ordered + [d]
    else Insert(ordered[..last], d) + [ordered[last]]
  }

  function Sorted(days: seq<Day>): seq<Day>
  {
    if days == [] then [] else Insert(Sorted(days[..|days| - 1]), days[|days| - 1])
  }

  ghost predicate InDateOrder(days: seq<Day>)
  {
    forall i, j :: 0 <= i < j < |days| ==> days[i].navDate <= days[j].navDate
  }

  ghost predicate DatesIncrease(days: seq<Day>)
  {
    forall i, j :: 0 <= i < j < |days| ==> days[i].navDate < days[j].navDate
  }

  ghost predicate DatesDiffer(days: seq<Day>)
  {
    forall i, j :: 0 <= i < j < |days| ==> days[i].navDate != days[j].navDate
  }

  // ---------- multisets of days ----------

  lemma MultisetAppend(a: seq<Day>, d: Day)
    ensures multiset(a + [d]) == multiset(a) + multiset{d}
  {
  }

  lemma MultisetDropLast(a: seq<Day>)
    requires a != []
    ensures multiset(a[..|a| - 1]) == multiset(a) - multiset{a[|a| - 1]}
    ensures multiset(a) == multiset(a[..|a| - 1]) + multiset{a[|a| - 1]}
  {
    assert a == a[..|a| - 1] + [a[|a| - 1]];
  }

  lemma SameMembers(a: seq<Day>, b: seq<Day>)
    requires multiset(a) == multiset(b)
    ensures |a| == |b|
    ensures forall d :: d in a <==> d in b
  {
    assert |multiset(a)| == |a| && |multiset(b)| == |b|;
    assert forall d :: d in multiset(a) <==> d in a;
  }

  // ---------- sorting ----------

  lemma {:induction false} InsertKeeps(ordered: seq<Day>, d: Day)
    ensures multiset(Insert(ordered, d)) == multiset(ordered) + multiset{d}
    ensures forall e :: e in Insert(ordered, d) <==> e in ordered || e == d
  {
    var last := |ordered| - 1;
    if last < 0 || ordered[last].navDate <= d.navDate {
      MultisetAppend(ordered, d);
    } else {
      InsertKeeps(ordered[..last], d);
      MultisetAppend(Insert(ordered[..last], d), ordered[last]);
      MultisetDropLast(ordered);
      assert ordered == ordered[..last] + [ordered[last]];
    }
  }

  lemma {:induction false} InsertOrders(ordered: seq<Day>, d: Day)
    requires InDateOrder(ordered)
    ensures InDateOrder(Insert(ordered, d))
  {
    var last := |ordered| - 1;
    if last >= 0 && ordered[last].navDate > d.navDate {
      InsertOrders(ordered[..last], d);
      InsertKeeps(ordered[..last], d);
      assert forall e :: e in ordered[..last] ==> e.navDate <= ordered[last].navDate;
    }
  }

  lemma AppendIncreases(a: seq<Day>, d: Day)
    requires DatesIncrease(a) && forall e :: e in a ==> e.navDate < d.navDate
    ensures DatesIncrease(a + [d])
  {
    assert forall i :: 0 <= i < |a| ==> a[i] in a;
  }

  lemma PrefixIncreases(a: seq<Day>)
    requires a != [] && DatesIncrease(a)
    ensures DatesIncrease(a[..|a| - 1])
    ensures forall e :: e in a[..|a| - 1] ==> e in a && e.navDate < a[|a| - 1].navDate
  {
  }

  lemma {:induction false} InsertIncreases(ordered: seq<Day>, d: Day)
    requires DatesIncrease(ordered) && forall e :: e in ordered ==> e.navDate != d.navDate
    ensures DatesIncrease(Insert(ordered, d))
  {
    var last := |ordered| - 1;
    if last < 0 {
    } else {
      PrefixIncreases(ordered);
      assert ordered[last] in ordered;
      assert forall e :: e in ordered ==> e in ordered[..last] || e == ordered[last];
      hide DatesIncrease;
      if ordered[last].navDate <= d.navDate {
        AppendIncreases(ordered, d);
      } else {
        InsertIncreases(ordered[..last], d);
        InsertKeeps(ordered[..last], d);
        AppendIncreases(Insert(ordered[..last], d), ordered[last]);
      }
    }
  }

  lemma {:induction false} SortedKeeps(days: seq<Day>)
    ensures InDateOrder(Sorted(days)) && multiset(Sorted(days)) == multiset(days)
    ensures |Sorted(days)| == |days|
    ensures forall d :: d in Sorted(days) <==> d in days
  {
    hide InDateOrder, Insert;
    if days == [] {
      NoneInOrder();
    } else {
      var last := |days| - 1;
      SortedKeeps(days[..last]);
      InsertKeeps(Sorted(days[..last]), days[last]);
      InsertOrders(Sorted(days[..last]), days[last]);
      MultisetDropLast(days);
    }
    SameMembers(Sorted(days), days);
  }

  lemma NoneInOrder()
    ensures InDateOrder([])
  {
  }

  lemma {:induction false} SortedIncreases(days: seq<Day>)
    requires DatesDiffer(days)
    ensures DatesIncrease(Sorted(days))
  {
    if days != [] {
      var last := |days| - 1;
      SortedIncreases(days[..last]);
      SortedKeeps(days[..last]);
      assert forall e :: e in days[..last] ==> e.navDate != days[last].navDate;
      InsertIncreases(Sorted(days[..last]), days[last]);
    }
  }

  lemma LastAgrees(a: seq<Day>, b: seq<Day>)
    requires a != [] && DatesIncrease(a) && InDateOrder(b) && multiset(a) == multiset(b)
    ensures b != [] && a[|a| - 1] == b[|b| - 1]
  {
    SameMembers(a, b);
    assert a[|a| - 1] in b;
    assert b[|b| - 1] in a;
  }

  lemma {:induction false} OrderIsUnique(a: seq<Day>, b: seq<Day>)
    requires DatesIncrease(a) && InDateOrder(b) && multiset(a) == multiset(b)
    ensures a == b
    decreases |a|
  {
    SameMembers(a, b);
    if a != [] {
      var last := |a| - 1;
      LastAgrees(a, b);
      MultisetDropLast(a);
      MultisetDropLast(b);
      OrderIsUnique(a[..last], b[..last]);
      assert a == a[..last] + [a[last]] && b == b[..last] + [b[last]];
    }
  }

  /** The order in which the predictions arrive does not matter when no date occurs twice. */
  lemma SortingForgetsOrder(x: seq<Day>, y: seq<Day>)
    requires multiset(x) == multiset(y) && DatesDiffer(x)
    ensures Sorted(x) == Sorted(y)
  {
    SortedIncreases(x);
    SortedKeeps(x);
    SortedKeeps(y);
    OrderIsUnique(Sorted(x), Sorted(y));
  }
}
