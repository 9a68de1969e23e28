/** What the aligned returns mean together: they telescope, and they look only backwards. */
module AlignmentProperties {
  import opened Sums
  import opened Calendar
  import opened Decimals
  import opened Alignment

  // ---------- one return ----------

  function Growth(pct: real): real
  {
    1.0 + pct / 100.0
  }

  function Ratio(from: Price, to: Price): real
  {
    to / from
  }

  lemma GrowthIsRatio(a: Price, b: Price)
    ensures Growth(ReturnPct(a, b)) == Ratio(a, b)
  {
  }

  lemma RatioOfValues(p: MarketPoint, q: MarketPoint, f: MarketPoint, g: MarketPoint)
    ensures Ratio(ValueAt(p, f), ValueAt(q, g)) == Times(Ratio(p.close, q.close), Ratio(f.close, g.close))
  {
    RatioOfProducts(p.close, q.close, f.close, g.close);
  }

  lemma RatioOfProducts(a: Price, b: Price, f: Price, g: Price)
    ensures (b * g) / (a * f) == (b / a) * (g / f)
  {
    var x, y := b / a, g / f;
    assert x * a == b && y * f == g;
    assert (x * y) * (a * f) == (x * a) * (y * f);
  }

  lemma RatioChain(a: Price, b: Price, c: Price)
    ensures Times(Ratio(a, b), Ratio(b, c)) == Ratio(a, c) && Ratio(a, a) == 1.0
  {
    assert (b / a) * (c / b) * a == c;
  }

  /** Whenever an entry reports an FX return, its converted return compounds the local and the
      FX return exactly. */
  lemma ConvertedCompounds(
    points: seq<MarketPoint>, fx: seq<MarketPoint>, sameCurrency: bool, policy: Policy, dates: seq<Date>, i: nat)
    requires i < |dates|
    ensures var e := EntryAt(points, fx, sameCurrency, policy, dates, i);
            e.fxPct.Some? ==> (e.localPct.Some? && e.convertedPct.Some?
                               && Growth(e.convertedPct.value)
                                  == Times(Growth(e.localPct.value), Growth(e.fxPct.value)))
  {
    hide Growth, Ratio, Times, ReturnPct, Latest, Selected, ValueAt;
    var e := EntryAt(points, fx, sameCurrency, policy, dates, i);
    if e.fxPct.Some? {
      var last, now := SelectedBefore(points, policy, Before(dates, i)), Selected(points, policy, dates[i]).value;
      var previous := Reference(points, last, now).value;
      var f0, f1 := FxOn(fx, previous.tradeDate).value, FxOn(fx, now.tradeDate).value;
      GrowthIsRatio(previous.close, now.close);
      GrowthIsRatio(f0.close, f1.close);
      GrowthIsRatio(ValueAt(previous, f0), ValueAt(now, f1));
      RatioOfValues(previous, now, f0, f1);
    }
  }

  // ---------- telescoping ----------

  /** Compounding of the returns that are present. */
  ghost function Compound(rs: seq<Option<real>>): real
  {
    if rs == [] then 1.0
    else Times(Compound(rs[..|rs| - 1]), Factor(rs[|rs| - 1]))
  }

  ghost function Factor(r: Option<real>): real
  {
    if r.Some? then Growth(r.value) else 1.0
  }

  ghost function Locals(
    points: seq<MarketPoint>, fx: seq<MarketPoint>, sameCurrency: bool, policy: Policy, dates: seq<Date>, k: nat)
    : (s: seq<Option<real>>)
    requires k <= |dates|
    ensures |s| == k
  {
    seq(k, i requires 0 <= i < k => EntryAt(points, fx, sameCurrency, policy, dates, i).localPct)
  }

  ghost function Converteds(
    points: seq<MarketPoint>, fx: seq<MarketPoint>, sameCurrency: bool, policy: Policy, dates: seq<Date>, k: nat)
    : (s: seq<Option<real>>)
    requires k <= |dates|
    ensures |s| == k
  {
    seq(k, i requires 0 <= i < k => EntryAt(points, fx, sameCurrency, policy, dates, i).convertedPct)
  }

  /** The point before the first selected one, or the first selected one if none precedes it. */
  ghost predicate IsBase(points: seq<MarketPoint>, policy: Policy, dates: seq<Date>, f: nat, base: MarketPoint)
  {
    && f < |dates| && Selected(points, policy, dates[f]).Some?
    && (forall i :: 0 <= i < f ==> Selected(points, policy, dates[i]).None?)
    && var first := Selected(points, policy, dates[f]).value;
       base == if Latest(points, first.tradeDate - 1).Some? then Latest(points, first.tradeDate - 1).value else first
  }

  lemma {:induction false} BaseExists(points: seq<MarketPoint>, policy: Policy, dates: seq<Date>, k: nat)
    returns (f: nat, base: MarketPoint)
    requires Increasing(dates) && k < |dates| && Selected(points, policy, dates[k]).Some?
    ensures f <= k && IsBase(points, policy, dates, f, base)
  {
    if k > 0 && Selected(points, policy, dates[k - 1]).Some? {
      f, base := BaseExists(points, policy, dates, k - 1);
    } else {
      f := k;
      var first := Selected(points, policy, dates[k]).value;
      base := if Latest(points, first.tradeDate - 1).Some? then Latest(points, first.tradeDate - 1).value else first;
      forall i | 0 <= i < k ensures Selected(points, policy, dates[i]).None? {
        if Selected(points, policy, dates[i]).Some? { SelectedMonotone(points, policy, dates[i], dates[k - 1]); }
      }
    }
  }

  lemma SelectedFrom(points: seq<MarketPoint>, policy: Policy, dates: seq<Date>, f: nat, k: nat)
    requires Increasing(dates) && f <= k < |dates| && Selected(points, policy, dates[f]).Some?
    ensures Selected(points, policy, dates[k]).Some?
  {
    SelectedMonotone(points, policy, dates[f], dates[k]);
  }

  lemma {:induction false} NothingBeforeFirst(
    points: seq<MarketPoint>, fx: seq<MarketPoint>, sameCurrency: bool, policy: Policy, dates: seq<Date>, k: nat)
    requires k <= |dates| && forall i :: 0 <= i < k ==> Selected(points, policy, dates[i]).None?
    ensures Compound(Locals(points, fx, sameCurrency, policy, dates, k)) == 1.0
    ensures Compound(Converteds(points, fx, sameCurrency, policy, dates, k)) == 1.0
  {
    if k > 0 {
      NothingBeforeFirst(points, fx, sameCurrency, policy, dates, k - 1);
      assert Locals(points, fx, sameCurrency, policy, dates, k)[..k - 1]
             == Locals(points, fx, sameCurrency, policy, dates, k - 1);
      assert Converteds(points, fx, sameCurrency, policy, dates, k)[..k - 1]
          == Converteds(points, fx, sameCurrency, policy, dates, k - 1);
    }
  }

  lemma SameDateSamePoint(points: seq<MarketPoint>, p: MarketPoint, q: MarketPoint)
    requires DistinctDates(points) && p in points && q in points && p.tradeDate == q.tradeDate
    ensures p == q
  {
    var i :| 0 <= i < |points| && points[i] == p;
    var j :| 0 <= j < |points| && points[j] == q;
  }

  /** The point an entry is measured from. */
  ghost function From(
    points: seq<MarketPoint>, policy: Policy, dates: seq<Date>, f: nat, base: MarketPoint, k: nat): MarketPoint
    requires f <= k < |dates|
  {
    if k == f || Selected(points, policy, dates[k - 1]).None? then base
    else Selected(points, policy, dates[k - 1]).value
  }

  /** What one entry multiplies the compounded local return by: an entry without a return
      starts and ends at the same point. */
  lemma LocalStep(
    points: seq<MarketPoint>, fx: seq<MarketPoint>, sameCurrency: bool, policy: Policy, dates: seq<Date>, f: nat,
    base: MarketPoint, k: nat)
    requires DistinctDates(points) && Increasing(dates) && IsBase(points, policy, dates, f, base) && f <= k < |dates|
    ensures Selected(points, policy, dates[k]).Some?
    ensures k > f ==> Selected(points, policy, dates[k - 1]).Some?
    ensures Factor(EntryAt(points, fx, sameCurrency, policy, dates, k).localPct)
         == Ratio(From(points, policy, dates, f, base, k).close, Selected(points, policy, dates[k]).value.close)
  {
    hide Growth, Ratio, ReturnPct;
    SelectedFrom(points, policy, dates, f, k);
    if k > f { SelectedFrom(points, policy, dates, f, k - 1); }
    var now, from := Selected(points, policy, dates[k]).value, From(points, policy, dates, f, base, k);
    if from.tradeDate == now.tradeDate { SameDateSamePoint(points, from, now); }
    GrowthIsRatio(from.close, now.close);
    RatioChain(now.close, now.close, now.close);
  }

  /** Telescoping: however the NAV dates fall, with gaps and carried-forward sessions, the
      reported local returns compound to last selected close over base close. */
  lemma {:induction false} LocalsTelescope(
    points: seq<MarketPoint>, fx: seq<MarketPoint>, sameCurrency: bool, policy: Policy, dates: seq<Date>, f: nat,
    base: MarketPoint, k: nat)
    requires DistinctDates(points) && Increasing(dates) && IsBase(points, policy, dates, f, base) && f < k <= |dates|
    ensures Selected(points, policy, dates[k - 1]).Some?
    ensures Compound(Locals(points, fx, sameCurrency, policy, dates, k))
         == Ratio(base.close, Selected(points, policy, dates[k - 1]).value.close)
  {
    hide Growth, Ratio, Times, EntryAt, IsBase, Selected, Factor, DistinctDates, Increasing;
    var i := k - 1;
    LocalStep(points, fx, sameCurrency, policy, dates, f, base, i);
    var ls := Locals(points, fx, sameCurrency, policy, dates, k);
    assert ls[..i] == Locals(points, fx, sameCurrency, policy, dates, i);
    var now := Selected(points, policy, dates[i]).value;
    if i == f {
      NothingBefore(points, policy, dates, f, base);
      NothingBeforeFirst(points, fx, sameCurrency, policy, dates, i);
      TimesOne(Ratio(base.close, now.close));
    } else {
      LocalsTelescope(points, fx, sameCurrency, policy, dates, f, base, i);
      RatioChain(base.close, Selected(points, policy, dates[i - 1]).value.close, now.close);
    }
  }

  lemma TimesOne(x: real)
    ensures Times(1.0, x) == x
  {
  }

  lemma NothingBefore(points: seq<MarketPoint>, policy: Policy, dates: seq<Date>, f: nat, base: MarketPoint)
    requires IsBase(points, policy, dates, f, base)
    ensures forall i :: 0 <= i < f ==> Selected(points, policy, dates[i]).None?
  {
  }

  // ---------- telescoping through the exchange rate ----------

  /** The rate series has a point on the base's date and on every selected date. */
  ghost predicate RatesCover(
    points: seq<MarketPoint>, fx: seq<MarketPoint>, policy: Policy, dates: seq<Date>, base: MarketPoint)
  {
    && FxOn(fx, base.tradeDate).Some?
    && forall i :: 0 <= i < |dates| && Selected(points, policy, dates[i]).Some?
               ==> FxOn(fx, Selected(points, policy, dates[i]).value.tradeDate).Some?
  }

  /** A close in share currency: price times the rate of the same day. */
  ghost function InShareCurrency(fx: seq<MarketPoint>, p: MarketPoint): Price
    requires FxOn(fx, p.tradeDate).Some?
  {
    ValueAt(p, FxOn(fx, p.tradeDate).value)
  }

  lemma ConvertedStep(
    points: seq<MarketPoint>, fx: seq<MarketPoint>, policy: Policy, dates: seq<Date>, f: nat, base: MarketPoint, k: nat)
    requires DistinctDates(points) && Increasing(dates) && IsBase(points, policy, dates, f, base) && f <= k < |dates|
    requires RatesCover(points, fx, policy, dates, base)
    ensures Selected(points, policy, dates[k]).Some?
    ensures k > f ==> Selected(points, policy, dates[k - 1]).Some?
    ensures FxOn(fx, From(points, policy, dates, f, base, k).tradeDate).Some?
    ensures Factor(EntryAt(points, fx, false, policy, dates, k).convertedPct)
         == Ratio(InShareCurrency(fx, From(points, policy, dates, f, base, k)),
                  InShareCurrency(fx, Selected(points, policy, dates[k]).value))
  {
    hide Growth, Ratio, ReturnPct, Latest, ValueAt;
    SelectedFrom(points, policy, dates, f, k);
    if k > f { SelectedFrom(points, policy, dates, f, k - 1); }
    var now, from := Selected(points, policy, dates[k]).value, From(points, policy, dates, f, base, k);
    var a, b := InShareCurrency(fx, from), InShareCurrency(fx, now);
    if from.tradeDate == now.tradeDate { SameDateSamePoint(points, from, now); }
    GrowthIsRatio(a, b);
    RatioChain(a, a, a);
  }

  /** With a rate on every date used, the converted returns compound to the ratio of the share
      currency values of the last selected point and the base. */
  lemma {:induction false} ConvertedsTelescope(
    points: seq<MarketPoint>, fx: seq<MarketPoint>, policy: Policy, dates: seq<Date>, f: nat, base: MarketPoint, k: nat)
    requires DistinctDates(points) && Increasing(dates) && IsBase(points, policy, dates, f, base) && f < k <= |dates|
    requires RatesCover(points, fx, policy, dates, base)
    ensures Selected(points, policy, dates[k - 1]).Some?
    ensures FxOn(fx, Selected(points, policy, dates[k - 1]).value.tradeDate).Some?
    ensures Compound(Converteds(points, fx, false, policy, dates, k))
         == Ratio(InShareCurrency(fx, base), InShareCurrency(fx, Selected(points, policy, dates[k - 1]).value))
  {
    hide Growth, Ratio, Times, EntryAt, IsBase, Selected, Factor, DistinctDates, Increasing, FxOn, InShareCurrency;
    var i := k - 1;
    ConvertedStep(points, fx, policy, dates, f, base, i);
    var cs := Converteds(points, fx, false, policy, dates, k);
    assert cs[..i] == Converteds(points, fx, false, policy, dates, i);
    var now := InShareCurrency(fx, Selected(points, policy, dates[i]).value);
    if i == f {
      NothingBefore(points, policy, dates, f, base);
      NothingBeforeFirst(points, fx, false, policy, dates, i);
      TimesOne(Ratio(InShareCurrency(fx, base), now));
    } else {
      ConvertedsTelescope(points, fx, policy, dates, f, base, i);
      RatioChain(InShareCurrency(fx, base), InShareCurrency(fx, Selected(points, policy, dates[i - 1]).value), now);
    }
  }

  /** In one currency the converted returns are the local ones. */
  lemma SameCurrencyConverts(points: seq<MarketPoint>, fx: seq<MarketPoint>, policy: Policy, dates: seq<Date>, i: nat)
    requires i < |dates|
    ensures var e := EntryAt(points, fx, true, policy, dates, i);
            e.convertedPct == e.localPct && e.fxPct == None
  {
  }

  // ---------- causality ----------

  /** A selected session never lies after its NAV date, under the US policy not even on it. */
  lemma SelectedIsPast(points: seq<MarketPoint>, policy: Policy, d: Date)
    ensures var p := Selected(points, policy, d);
            p.Some? ==> (p.value.tradeDate <= d && (policy == US_PREVIOUS_COMPLETED_SESSION ==> p.value.tradeDate < d))
  {
  }

  /** A session is carried forward exactly when none has closed between the previous NAV date's
      cutoff and this one's. */
  lemma CarriedIffNoNewSession(
    points: seq<MarketPoint>, fx: seq<MarketPoint>, sameCurrency: bool, policy: Policy, dates: seq<Date>, i: nat)
    requires DistinctDates(points) && Increasing(dates) && 0 < i < |dates|
    requires Selected(points, policy, dates[i - 1]).Some?
    ensures EntryAt(points, fx, sameCurrency, policy, dates, i).carriedForward
       <==> forall p :: p in points ==> !(Cutoff(policy, dates[i - 1]) < p.tradeDate <= Cutoff(policy, dates[i]))
  {
    hide Converted, ReturnPct, FxOn, Latest;
    var before := Selected(points, policy, dates[i - 1]).value;
    SelectedMonotone(points, policy, dates[i - 1], dates[i]);
    var now := Selected(points, policy, dates[i]).value;
    assert IsLatest(points, Cutoff(policy, dates[i - 1]), before) && IsLatest(points, Cutoff(policy, dates[i]), now);
    assert EntryAt(points, fx, sameCurrency, policy, dates, i).carriedForward <==> before.tradeDate == now.tradeDate;
  }

  ghost predicate AgreeUpTo(a: seq<MarketPoint>, b: seq<MarketPoint>, d: Date)
  {
    forall p: MarketPoint :: p.tradeDate <= d ==> (p in a <==> p in b)
  }

  lemma LatestAgrees(a: seq<MarketPoint>, b: seq<MarketPoint>, d: Date, cutoff: Date)
    requires DistinctDates(b) && AgreeUpTo(a, b, d) && cutoff <= d
    ensures Latest(a, cutoff) == Latest(b, cutoff)
  {
    LatestDependsOnPast(a, b, cutoff);
  }

  /** Sorted lists that agree up to a date start alike. */
  lemma {:induction false} SortedPrefixAgrees(a: seq<Date>, b: seq<Date>, d: Date, i: nat)
    requires Increasing(a) && Increasing(b) && (forall x :: x <= d ==> (x in a <==> x in b))
    requires i < |a| && a[i] <= d
    ensures i < |b| && b[i] == a[i]
  {
    assert a[i] in b;
    var k :| 0 <= k < |b| && b[k] == a[i];
    forall j | 0 <= j < i ensures j < |b| && b[j] == a[j] {
      SortedPrefixAgrees(a, b, d, j);
    }
    assert k > i ==> b[i] in a;
  }

  /** An entry depends on its series only through four look-ups. */
  lemma SameLookups(
    points: seq<MarketPoint>, points': seq<MarketPoint>, fx: seq<MarketPoint>, fx': seq<MarketPoint>,
    sameCurrency: bool, policy: Policy, x: Date, last: Option<MarketPoint>, current: MarketPoint)
    requires Latest(points, current.tradeDate - 1) == Latest(points', current.tradeDate - 1)
    requires Latest(fx, current.tradeDate) == Latest(fx', current.tradeDate)
    requires var previous := Reference(points, last, current);
             previous.Some? ==> Latest(fx, previous.value.tradeDate) == Latest(fx', previous.value.tradeDate)
    ensures Built(points, fx, sameCurrency, policy, x, last, Some(current))
         == Built(points', fx', sameCurrency, policy, x, last, Some(current))
  {
    hide Latest, ReturnPct, Converted;
  }

  /** Causality: an entry for a NAV date up to `d` is the same whatever NAV dates, prices and
      rates dated after `d` are added or removed. */
  lemma EntryIsCausal(
    navs: seq<Date>, navs': seq<Date>, points: seq<MarketPoint>, points': seq<MarketPoint>,
    fx: seq<MarketPoint>, fx': seq<MarketPoint>, sameCurrency: bool, policy: Policy, d: Date, i: nat)
    requires forall x :: x <= d ==> (x in navs <==> x in navs')
    requires DistinctDates(points') && DistinctDates(fx')
    requires AgreeUpTo(points, points', d) && AgreeUpTo(fx, fx', d)
    requires i < |SortedDistinct(navs)| && SortedDistinct(navs)[i] <= d
    ensures i < |SortedDistinct(navs')|
    ensures EntryAt(points, fx, sameCurrency, policy, SortedDistinct(navs), i)
         == EntryAt(points', fx', sameCurrency, policy, SortedDistinct(navs'), i)
  {
    hide SortedDistinct, DistinctDates, AgreeUpTo, Latest, Built, Reference;
    var a, b := SortedDistinct(navs), SortedDistinct(navs');
    SortedDistinctSorts(navs);
    SortedDistinctSorts(navs');
    SortedPrefixAgrees(a, b, d, i);
    if i > 0 { SortedPrefixAgrees(a, b, d, i - 1); }
    SelectedAgrees(points, points', policy, d, a[i]);
    if i > 0 { SelectedAgrees(points, points', policy, d, a[i - 1]); }
    var last, current := SelectedBefore(points, policy, Before(a, i)), Selected(points, policy, a[i]);
    if current.None? {
      NothingBuilt(points, fx, sameCurrency, policy, a[i], last);
      NothingBuilt(points', fx', sameCurrency, policy, a[i], last);
    } else {
      SelectedIsPast(points, policy, a[i]);
      LatestAgrees(points, points', d, current.value.tradeDate - 1);
      var previous := Reference(points, last, current.value);
      LatestAgrees(fx, fx', d, current.value.tradeDate);
      if previous.Some? {
        ReferenceIsPast(points, policy, a, i);
        LatestAgrees(fx, fx', d, previous.value.tradeDate);
      }
      SameLookups(points, points', fx, fx', sameCurrency, policy, a[i], last, current.value);
    }
  }

  lemma SelectedAgrees(points: seq<MarketPoint>, points': seq<MarketPoint>, policy: Policy, d: Date, x: Date)
    requires DistinctDates(points') && AgreeUpTo(points, points', d) && x <= d
    ensures Selected(points, policy, x) == Selected(points', policy, x)
  {
    LatestAgrees(points, points', d, Cutoff(policy, x));
  }

  lemma ReferenceIsPast(points: seq<MarketPoint>, policy: Policy, dates: seq<Date>, i: nat)
    requires Increasing(dates) && i < |dates| && Selected(points, policy, dates[i]).Some?
    requires Reference(points, SelectedBefore(points, policy, Before(dates, i)),
                       Selected(points, policy, dates[i]).value).Some?
    ensures Reference(points, SelectedBefore(points, policy, Before(dates, i)),
                      Selected(points, policy, dates[i]).value).value.tradeDate
         <= Selected(points, policy, dates[i]).value.tradeDate
  {
    if i > 0 && Selected(points, policy, dates[i - 1]).Some? {
      SelectedMonotone(points, policy, dates[i - 1], dates[i]);
    }
  }
}
