/** Weekday arithmetic (backend/app/portfolio_recurring.py, q2_analysis/portfolio_review.py).

    A date is its proleptic Gregorian ordinal, so day 1 is a Monday. */
module Calendar {
  import opened Sums

  type Date = int

  /** Monday is 0 and Sunday is 6. */
  function Weekday(d: Date): (w: int)
    ensures 0 <= w < 7
  {
    (d + 6) % 7
  }

  predicate IsWeekday(d: Date)
  {
    Weekday(d) < 5
  }

  /** How many weekdays lie in the half-open interval (a, b]. */
  ghost function WeekdaysIn(a: Date, b: Date): nat
    decreases b - a
  {
    if b <= a then 0 else WeekdaysIn(a, b - 1) + (if IsWeekday(b) then 1 else 0)
  }

  /** `r` is the first date on or after `v` by which `days` weekdays have passed. */
  ghost predicate IsAfterWeekdays(v: Date, days: int, r: Date)
  {
    && r >= v
    && WeekdaysIn(v, r) == (if days > 0 then days else 0)
    && forall d :: v <= d < r ==> WeekdaysIn(v, d) < days
  }

  /** `r` is the last weekday on or before `a`. */
  ghost predicate IsLatestWeekday(a: Date, r: Date)
  {
    r <= a && IsWeekday(r) && forall d :: r < d <= a ==> !IsWeekday(d)
  }

  /** Days until the next weekday: what makes the counting loop terminate over weekends. */
  function Gap(d: Date): nat
  {
    if Weekday(d) == 4 then 3 else if Weekday(d) == 5 then 2 else 1
  }

  lemma GapShrinks(d: Date)
    ensures IsWeekday(d + 1) || Gap(d + 1) < Gap(d)
  {
  }

  lemma WeekendShrinks(d: Date)
    ensures IsWeekday(d) || Weekday(d - 1) < Weekday(d)
  {
  }

  method AddWeekdays(value: Date, days: int) returns (result: Date)
    ensures IsAfterWeekdays(value, days, result)
    ensures result == WeekdaysAfter(value, days)
  {
    hide Weekday, IsWeekday, Gap;
    result := value;
    var remaining := days;
    while remaining > 0
      invariant result >= value
      invariant remaining + WeekdaysIn(value, result) == days || (days <= 0 && result == value && remaining == days)
      invariant days > 0 ==> remaining >= 0
      invariant forall d :: value <= d < result ==> WeekdaysIn(value, d) < days
      decreases remaining, Gap(result)
    {
      GapShrinks(result);
      result := result + 1;
      if IsWeekday(result) {
        remaining := remaining - 1;
      }
    }
    WeekdaysAfterIsLeast(value, days);
    AfterWeekdaysUnique(value, days, result, WeekdaysAfter(value, days));
  }

  method NextWeekday(value: Date) returns (result: Date)
    ensures IsAfterWeekdays(value, 1, result)
  {
    hide Weekday, IsWeekday, Gap;
    result := value + 1;
    while !IsWeekday(result)
      invariant result > value && WeekdaysIn(value, result - 1) == 0
      invariant forall d :: value <= d < result ==> WeekdaysIn(value, d) == 0
      decreases Gap(result - 1)
    {
      GapShrinks(result - 1);
      result := result + 1;
    }
  }

  /** The NAV date comparable with a display date: the last weekday before the latest weekday,
      `display`, on or before the date asked for. */
  ghost predicate IsComparable(asOf: Date, navDate: Date, display: Date)
  {
    IsLatestWeekday(asOf, display) && IsLatestWeekday(display - 1, navDate) && IsAfterWeekdays(navDate, 1, display)
  }

  method LatestComparableNavDate(asOf: Date) returns (navDate: Date)
    ensures exists display :: IsComparable(asOf, navDate, display)
  {
    hide Weekday, IsWeekday;
    var display := asOf;
    while !IsWeekday(display)
      invariant display <= asOf && forall d :: display < d <= asOf ==> !IsWeekday(d)
      decreases Weekday(display)
    {
      WeekendShrinks(display);
      display := display - 1;
    }
    navDate := display - 1;
    while !IsWeekday(navDate)
      invariant navDate < display && forall d :: navDate < d < display ==> !IsWeekday(d)
      decreases Weekday(navDate)
    {
      WeekendShrinks(navDate);
      navDate := navDate - 1;
    }
    NextIsDisplay(navDate, display);
    assert IsComparable(asOf, navDate, display);
  }

  lemma {:induction false} NoWeekdaysIn(a: Date, b: Date)
    requires forall d :: a < d <= b ==> !IsWeekday(d)
    ensures WeekdaysIn(a, b) == 0
    decreases b - a
  {
    if a < b { NoWeekdaysIn(a, b - 1); }
  }

  lemma NextIsDisplay(navDate: Date, display: Date)
    requires navDate < display && IsWeekday(display) && forall d :: navDate < d < display ==> !IsWeekday(d)
    ensures IsAfterWeekdays(navDate, 1, display)
  {
    forall d | navDate <= d < display ensures WeekdaysIn(navDate, d) == 0 {
      NoWeekdaysIn(navDate, d);
    }
  }

  lemma {:induction false} WeekdaysMonotone(v: Date, a: Date, b: Date)
    requires a <= b
    ensures WeekdaysIn(v, a) <= WeekdaysIn(v, b)
    decreases b - a
  {
    if a < b { WeekdaysMonotone(v, a, b - 1); }
  }

  /** The specification determines the date, so `NextWeekday(v)` is `AddWeekdays(v, 1)`. */
  lemma AfterWeekdaysUnique(v: Date, days: int, r: Date, r': Date)
    requires IsAfterWeekdays(v, days, r) && IsAfterWeekdays(v, days, r')
    ensures r == r'
  {
    if days <= 0 {
      assert r > v ==> WeekdaysIn(v, v) < days;
      assert r' > v ==> WeekdaysIn(v, v) < days;
    }
  }

  lemma {:induction false} WeekdaysSplit(a: Date, b: Date, c: Date)
    requires a <= b <= c
    ensures WeekdaysIn(a, c) == WeekdaysIn(a, b) + WeekdaysIn(b, c)
    decreases c - b
  {
    if b < c { WeekdaysSplit(a, b, c - 1); }
  }

  /** Confirmation lags add up: counting m weekdays and then n is counting m + n. */
  lemma WeekdaysCompose(v: Date, m: nat, n: nat, r: Date, s: Date)
    requires IsAfterWeekdays(v, m, r) && IsAfterWeekdays(r, n, s)
    ensures IsAfterWeekdays(v, m + n, s)
  {
    WeekdaysSplit(v, r, s);
    forall d | v <= d < s ensures WeekdaysIn(v, d) < m + n {
      if d >= r {
        WeekdaysSplit(v, r, d);
      } else {
        assert WeekdaysIn(v, d) < m;
      }
    }
  }

  /** A counted date is itself a weekday; a lag of zero leaves even a weekend date alone. */
  lemma CountedDateIsWeekday(v: Date, days: int, r: Date)
    requires IsAfterWeekdays(v, days, r)
    ensures if days > 0 then r > v && IsWeekday(r) else r == v
  {
    if days <= 0 {
      assert r > v ==> WeekdaysIn(v, v) < days;
    } else if r > v {
      assert WeekdaysIn(v, r - 1) < days;
    }
  }

  /** The same date in closed form: each counted weekday is one gap further. */
  function WeekdaysAfter(v: Date, days: int): (r: Date)
    ensures r >= v
    decreases if days > 0 then days else 0
  {
    if days <= 0 then v else var p := WeekdaysAfter(v, days - 1); p + Gap(p)
  }

  lemma GapIsNext(v: Date)
    ensures IsAfterWeekdays(v, 1, v + Gap(v))
  {
    NextIsDisplay(v, v + Gap(v));
  }

  lemma {:induction false} WeekdaysAfterIsLeast(v: Date, days: int)
    ensures IsAfterWeekdays(v, days, WeekdaysAfter(v, days))
    decreases if days > 0 then days else 0
  {
    if days > 0 {
      var p := WeekdaysAfter(v, days - 1);
      WeekdaysAfterIsLeast(v, days - 1);
      GapIsNext(p);
      WeekdaysCompose(v, days - 1, 1, p, p + Gap(p));
    }
  }

  // ---------- lists and sets of dates ----------

  ghost predicate Increasing(dates: seq<Date>)
  {
    forall i, j :: 0 <= i < j < |dates| ==> dates[i] < dates[j]
  }

  function InsertDate(d: Date, sorted: seq<Date>): seq<Date>
  {
    if sorted == [] || d < sorted[0] then [d] + sorted
    else if d == sorted[0] then sorted
    else [sorted[0]] + InsertDate(d, sorted[1..])
  }

  /** `sorted(dict.fromkeys(dates))`: each date once, in order. */
  function SortedDistinct(dates: seq<Date>): seq<Date>
  {
    if dates == [] then [] else InsertDate(dates[0], SortedDistinct(dates[1..]))
  }

  lemma {:induction false} InsertDateSorts(d: Date, s: seq<Date>)
    requires Increasing(s)
    ensures Increasing(InsertDate(d, s))
    ensures forall x :: x in InsertDate(d, s) <==> x == d || x in s
  {
    if s != [] && d > s[0] {
      InsertDateSorts(d, s[1..]);
      assert s == [s[0]] + s[1..];
      PrependDate(s[0], InsertDate(d, s[1..]));
    } else if s == [] || d < s[0] {
      PrependDate(d, s);
    }
  }

  lemma PrependDate(d: Date, s: seq<Date>)
    requires Increasing(s) && forall x :: x in s ==> d < x
    ensures Increasing([d] + s)
  {
    var t := [d] + s;
    assert forall i :: 0 < i < |t| ==> t[i] == s[i - 1] && s[i - 1] in s;
  }

  lemma {:induction false} SortedDistinctSorts(dates: seq<Date>)
    ensures Increasing(SortedDistinct(dates))
    ensures forall x :: x in SortedDistinct(dates) <==> x in dates
  {
    if dates != [] {
      SortedDistinctSorts(dates[1..]);
      InsertDateSorts(dates[0], SortedDistinct(dates[1..]));
      assert dates == [dates[0]] + dates[1..];
    }
  }

  /** `p` is the last date of `s` before `d`. */
  ghost predicate IsPredecessor(s: set<Date>, d: Date, p: Date)
  {
    p in s && p < d && forall q :: q in s && q < d ==> q <= p
  }

  ghost function Predecessor(s: set<Date>, d: Date): (r: Option<Date>)
    ensures r.Some? ==> IsPredecessor(s, d, r.value)
    ensures r.None? ==> forall p :: !IsPredecessor(s, d, p)
  {
    if p :| IsPredecessor(s, d, p) then Some(p) else None
  }

  lemma PredecessorIs(s: set<Date>, d: Date, p: Date)
    requires IsPredecessor(s, d, p)
    ensures Predecessor(s, d) == Some(p)
  {
  }

  /** A query for the latest stored date before a given one. */
  method FindPredecessor(s: set<Date>, d: Date) returns (r: Option<Date>)
    ensures r == Predecessor(s, d)
    ensures r.None? <==> forall q :: q in s ==> q >= d
  {
    var rest := set q | q in s && q < d;
    ghost var all := rest;
    r := None;
    while rest != {}
      invariant rest <= all
      invariant r.None? ==> rest == all
      invariant r.Some? ==> r.value in all && forall q :: q in all - rest ==> q <= r.value
      decreases rest
    {
      var q :| q in rest;
      assert all - (rest - {q}) == (all - rest) + {q};
      r := if r.None? || q > r.value then Some(q) else r;
      rest := rest - {q};
    }
    assert all - rest == all;
    assert forall q :: q in s && q < d ==> q in all;
    assert r.Some? ==> IsPredecessor(s, d, r.value);
  }

  lemma PredecessorExists(s: set<Date>, d: Date, q: Date)
    requires q in s && q < d
    ensures Predecessor(s, d).Some? && q <= Predecessor(s, d).value
    decreases d - q
  {
    if !IsPredecessor(s, d, q) {
      var p :| p in s && p < d && p > q;
      PredecessorExists(s, d, p);
    }
  }
}
