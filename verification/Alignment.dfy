/** Alignment of market sessions with NAV dates (backend/app/q2_analysis/alignment.py). */
module Alignment {
  import opened Sums
  import opened Calendar
  import opened Decimals

  datatype Policy =
    | US_PREVIOUS_COMPLETED_SESSION
    | ASIA_SAME_OR_PREVIOUS_SESSION
    | QDII_SAME_VALUATION_SESSION
    | MIXED_BY_SECURITY_MARKET

  datatype MarketPoint = MarketPoint(tradeDate: Date, close: Price)

  datatype AlignedReturn = AlignedReturn(
    navDate: Date, tradeDate: Option<Date>, previousDate: Option<Date>,
    localPct: Option<real>, fxPct: Option<real>, convertedPct: Option<real>,
    policy: Policy, carriedForward: bool)

  function PolicyForMarket(market: Option<string>): Policy
  {
    if market == Some("US") || market == Some("UK") then US_PREVIOUS_COMPLETED_SESSION
    else ASIA_SAME_OR_PREVIOUS_SESSION
  }

  function EffectivePolicy(policy: Policy, market: Option<string>): Policy
  {
    if policy == MIXED_BY_SECURITY_MARKET then PolicyForMarket(market) else policy
  }

  function Cutoff(policy: Policy, navDate: Date): Date
  {
    if policy == US_PREVIOUS_COMPLETED_SESSION then navDate - 1 else navDate
  }

  function ReturnPct(previous: Price, current: Price): real
  {
    (current / previous - 1.0) * 100.0
  }

  // ---------- sorting ----------

  /** The provider rejects a series that has two points on one date. */
  ghost predicate DistinctDates(points: seq<MarketPoint>)
  {
    forall i, j :: 0 <= i < j < |points| ==> points[i].tradeDate != points[j].tradeDate
  }

  function DatesOf(points: seq<MarketPoint>): seq<Date>
  {
    seq(|points|, i requires 0 <= i < |points| => points[i].tradeDate)
  }

  function InsertPoint(p: MarketPoint, sorted: seq<MarketPoint>): seq<MarketPoint>
  {
    if sorted == [] || p.tradeDate <= sorted[0].tradeDate then [p] + sorted
    else [sorted[0]] + InsertPoint(p, sorted[1..])
  }

  function SortPoints(points: seq<MarketPoint>): seq<MarketPoint>
  {
    if points == [] then [] else InsertPoint(points[0], SortPoints(points[1..]))
  }

  lemma {:induction false} InsertPointSorts(p: MarketPoint, s: seq<MarketPoint>)
    requires Increasing(DatesOf(s)) && forall q :: q in s ==> q.tradeDate != p.tradeDate
    ensures Increasing(DatesOf(InsertPoint(p, s)))
    ensures forall q :: q in InsertPoint(p, s) <==> q == p || q in s
  {
    if s != [] && p.tradeDate > s[0].tradeDate {
      var rest := s[1..];
      assert s == [s[0]] + rest;
      assert forall i :: 0 <= i < |rest| ==> DatesOf(rest)[i] == DatesOf(s)[i + 1];
      InsertPointSorts(p, rest);
      assert forall q :: q in rest ==> s[0].tradeDate < q.tradeDate by {
        forall q | q in rest ensures s[0].tradeDate < q.tradeDate {
          var i :| 0 <= i < |rest| && rest[i] == q;
          assert DatesOf(s)[0] < DatesOf(s)[i + 1];
        }
      }
      ConsIncreasing(s[0], InsertPoint(p, rest));
    } else {
      ConsIncreasing(p, s);
    }
  }

  lemma ConsIncreasing(p: MarketPoint, s: seq<MarketPoint>)
    requires Increasing(DatesOf(s)) && (s != [] ==> p.tradeDate <= s[0].tradeDate)
    requires forall q :: q in s ==> q.tradeDate != p.tradeDate
    ensures Increasing(DatesOf([p] + s))
  {
    var t := DatesOf([p] + s);
    assert forall i :: 0 < i < |t| ==> t[i] == DatesOf(s)[i - 1];
    forall j | 0 < j < |t| ensures t[0] < t[j] {
      assert s[j - 1] in s && DatesOf(s)[0] <= DatesOf(s)[j - 1];
    }
  }

  lemma {:induction false} SortPointsSorts(points: seq<MarketPoint>)
    requires DistinctDates(points)
    ensures Increasing(DatesOf(SortPoints(points)))
    ensures forall q :: q in SortPoints(points) <==> q in points
  {
    if points != [] {
      var rest := points[1..];
      assert points == [points[0]] + rest;
      SortPointsSorts(rest);
      assert forall q :: q in rest ==> q.tradeDate != points[0].tradeDate;
      InsertPointSorts(points[0], SortPoints(rest));
    }
  }

  // ---------- the latest point on or before a date ----------

  ghost predicate IsLatest(points: seq<MarketPoint>, cutoff: Date, p: MarketPoint)
  {
    && p in points && p.tradeDate <= cutoff
    && forall q :: q in points && q.tradeDate <= cutoff ==> q.tradeDate <= p.tradeDate
  }

  ghost function Latest(points: seq<MarketPoint>, cutoff: Date): (r: Option<MarketPoint>)
    ensures r.Some? ==> IsLatest(points, cutoff, r.value)
    ensures r.None? ==> forall p :: !IsLatest(points, cutoff, p)
  {
    if p :| IsLatest(points, cutoff, p) then Some(p) else None
  }

  lemma LatestIsUnique(points: seq<MarketPoint>, cutoff: Date, p: MarketPoint)
    requires DistinctDates(points) && IsLatest(points, cutoff, p)
    ensures Latest(points, cutoff) == Some(p)
  {
    var q := Latest(points, cutoff).value;
    var i :| 0 <= i < |points| && points[i] == p;
    var j :| 0 <= j < |points| && points[j] == q;
  }

  /** There is a latest point as soon as there is any point on or before the date. */
  lemma {:induction false} LatestExists(points: seq<MarketPoint>, cutoff: Date, p: MarketPoint)
    requires p in points && p.tradeDate <= cutoff
    ensures Latest(points, cutoff).Some?
    decreases cutoff - p.tradeDate
  {
    if !IsLatest(points, cutoff, p) {
      var q :| q in points && q.tradeDate <= cutoff && q.tradeDate > p.tradeDate;
      LatestExists(points, cutoff, q);
    }
  }

  /** Only which points there are matters, and only those dated on or before the cutoff. */
  lemma LatestDependsOnPast(a: seq<MarketPoint>, b: seq<MarketPoint>, cutoff: Date)
    requires DistinctDates(b)
    requires forall p: MarketPoint :: p.tradeDate <= cutoff ==> (p in a <==> p in b)
    ensures Latest(a, cutoff) == Latest(b, cutoff)
  {
    if Latest(a, cutoff).Some? {
      assert IsLatest(b, cutoff, Latest(a, cutoff).value);
      LatestIsUnique(b, cutoff, Latest(a, cutoff).value);
    } else if Latest(b, cutoff).Some? {
      assert IsLatest(a, cutoff, Latest(b, cutoff).value);
    }
  }

  /** Python's `bisect_right`: how many of the sorted dates are on or before `x`. */
  method BisectRight(dates: seq<Date>, x: Date) returns (lo: nat)
    requires Increasing(dates)
    ensures lo <= |dates|
    ensures forall i :: 0 <= i < |dates| ==> (i < lo <==> dates[i] <= x)
  {
    lo := 0;
    var hi := |dates|;
    while lo < hi
      invariant lo <= hi <= |dates|
      invariant forall i :: 0 <= i < lo ==> dates[i] <= x
      invariant forall i :: hi <= i < |dates| ==> dates[i] > x
    {
      var mid := (lo + hi) / 2;
      if x < dates[mid] {
        hi := mid;
      } else {
        lo := mid + 1;
      }
    }
  }

  /** The binary search finds what the linear specification says. */
  method LatestOnOrBefore(points: seq<MarketPoint>, dates: seq<Date>, cutoff: Date) returns (r: Option<MarketPoint>)
    requires dates == DatesOf(points) && Increasing(dates)
    ensures r == Latest(points, cutoff)
  {
    var index := BisectRight(dates, cutoff);
    SortedLatest(points, cutoff, index);
    r := if index > 0 then Some(points[index - 1]) else None;
  }

  lemma SortedLatest(points: seq<MarketPoint>, cutoff: Date, index: nat)
    requires Increasing(DatesOf(points)) && index <= |points|
    requires forall i :: 0 <= i < |points| ==> (i < index <==> DatesOf(points)[i] <= cutoff)
    ensures Latest(points, cutoff) == if index > 0 then Some(points[index - 1]) else None
  {
    var dates := DatesOf(points);
    forall i, j | 0 <= i < j < |points| ensures points[i].tradeDate != points[j].tradeDate {
      assert dates[i] < dates[j];
    }
    if index > 0 {
      var p := points[index - 1];
      forall q | q in points && q.tradeDate <= cutoff ensures q.tradeDate <= p.tradeDate {
        var i :| 0 <= i < |points| && points[i] == q;
        assert dates[i] <= cutoff && dates[i] <= dates[index - 1];
      }
      assert dates[index - 1] <= cutoff;
      LatestIsUnique(points, cutoff, p);
    } else {
      forall q | q in points ensures q.tradeDate > cutoff {
        var i :| 0 <= i < |points| && points[i] == q;
        assert dates[i] > cutoff;
      }
    }
  }

  method PreviousBefore(points: seq<MarketPoint>, dates: seq<Date>, current: Date) returns (r: Option<MarketPoint>)
    requires dates == DatesOf(points) && Increasing(dates)
    ensures r == Latest(points, current - 1)
  {
    r := LatestOnOrBefore(points, dates, current - 1);
  }

  // ---------- specification of one entry ----------

  ghost function Selected(points: seq<MarketPoint>, policy: Policy, d: Date): Option<MarketPoint>
  {
    Latest(points, Cutoff(policy, d))
  }

  /** The point the return is measured from: the last one selected, or for the first selected
      one the session before it. */
  ghost function Reference(
    points: seq<MarketPoint>, last: Option<MarketPoint>, current: MarketPoint): Option<MarketPoint>
  {
    if last.Some? then last else Latest(points, current.tradeDate - 1)
  }

  predicate Carried(last: Option<MarketPoint>, current: MarketPoint)
  {
    last.Some? && last.value.tradeDate == current.tradeDate
  }

  /** The exchange rate of exactly that date, if the series has one. */
  ghost function FxOn(fx: seq<MarketPoint>, d: Date): Option<MarketPoint>
  {
    var p := Latest(fx, d);
    if p.Some? && p.value.tradeDate == d then p else None
  }

  /** A close converted at the rate of the same day. */
  function ValueAt(price: MarketPoint, rate: MarketPoint): Price
  {
    price.close * rate.close
  }

  /** The FX return and the converted return between two points, with the rates of their days. */
  function Converted(previous: MarketPoint, current: MarketPoint, fx0: MarketPoint, fx1: MarketPoint): (r: (real, real))
  {
    (ReturnPct(fx0.close, fx1.close), ReturnPct(ValueAt(previous, fx0), ValueAt(current, fx1)))
  }

  /** The entry for NAV date `d` when `last` was selected before and `current` is selected now. */
  ghost function Built(
    points: seq<MarketPoint>, fx: seq<MarketPoint>, sameCurrency: bool, policy: Policy, d: Date,
    last: Option<MarketPoint>, current: Option<MarketPoint>)
    : AlignedReturn
  {
    if current.None? then AlignedReturn(d, None, None, None, None, None, policy, false)
    else
      var now, previous := current.value, Reference(points, last, current.value);
      var carried := Carried(last, now);
      if previous.None? then AlignedReturn(d, Some(now.tradeDate), None, None, None, None, policy, carried)
      else if carried
      then AlignedReturn(d, Some(now.tradeDate), Some(previous.value.tradeDate), None, None, None, policy, true)
      else
        var local := Some(ReturnPct(previous.value.close, now.close));
        var fx0, fx1 := FxOn(fx, previous.value.tradeDate), FxOn(fx, now.tradeDate);
        var r := AlignedReturn(d, Some(now.tradeDate), Some(previous.value.tradeDate), local, None, None, policy,
                               false);
        if sameCurrency then r.(convertedPct := local)
        else if fx0.None? || fx1.None? then r
        else
          var c := Converted(previous.value, now, fx0.value, fx1.value);
          r.(fxPct := Some(c.0), convertedPct := Some(c.1))
  }

  ghost function SelectedBefore(points: seq<MarketPoint>, policy: Policy, before: Option<Date>): Option<MarketPoint>
  {
    if before.Some? then Selected(points, policy, before.value) else None
  }

  ghost function Before(dates: seq<Date>, i: nat): Option<Date>
    requires i <= |dates|
  {
    if i == 0 then None else Some(dates[i - 1])
  }

  ghost function EntryAt(
    points: seq<MarketPoint>, fx: seq<MarketPoint>, sameCurrency: bool, policy: Policy, dates: seq<Date>, i: nat)
    : AlignedReturn
    requires i < |dates|
  {
    Built(points, fx, sameCurrency, policy, dates[i],
          SelectedBefore(points, policy, Before(dates, i)), Selected(points, policy, dates[i]))
  }

  // ---------- what an entry says, in terms of the series alone ----------

  /** The sessions that count for a NAV date: those before it under the US policy and, when the
      policy goes by market, for a security traded in the US or the UK; those up to it otherwise. */
  ghost predicate Counts(requested: Policy, market: Option<string>, session: Date, navDate: Date)
  {
    if requested == US_PREVIOUS_COMPLETED_SESSION
       || (requested == MIXED_BY_SECURITY_MARKET && (market == Some("US") || market == Some("UK")))
    then session < navDate
    else session <= navDate
  }

  ghost predicate HasDate(points: seq<MarketPoint>, d: Date)
  {
    exists p :: p in points && p.tradeDate == d
  }

  /** The entry names the latest session that counts, if there is one. */
  ghost predicate NamesLatest(prices: seq<MarketPoint>, requested: Policy, market: Option<string>, e: AlignedReturn)
  {
    && (e.tradeDate.Some?
        ==> HasDate(prices, e.tradeDate.value) && Counts(requested, market, e.tradeDate.value, e.navDate))
    && forall p :: p in prices && Counts(requested, market, p.tradeDate, e.navDate)
         ==> e.tradeDate.Some? && p.tradeDate <= e.tradeDate.value
  }

  /** It is measured from the session of the entry before, and from the latest earlier session if
      that has none; it is carried forward if that is the same session. */
  ghost predicate NamesPrevious(prices: seq<MarketPoint>, before: Option<Date>, e: AlignedReturn)
  {
    if e.tradeDate.None? then e.previousDate == None && !e.carriedForward
    else if before.Some? then e.previousDate == before && (e.carriedForward <==> before == e.tradeDate)
    else
      && !e.carriedForward
      && (e.previousDate.Some? ==> HasDate(prices, e.previousDate.value) && e.previousDate.value < e.tradeDate.value)
      && forall p :: p in prices && p.tradeDate < e.tradeDate.value
           ==> e.previousDate.Some? && p.tradeDate <= e.previousDate.value
  }

  /** `pct` takes `x` to `y`. */
  ghost predicate Grows(x: real, pct: real, y: real)
  {
    x * (1.0 + pct / 100.0) == y
  }

  /** The local return takes one close to the other; the FX return takes the rate of one date to that of
      the other, and the converted return the product of close and rate. */
  ghost predicate Measures(e: AlignedReturn, p: MarketPoint, q: MarketPoint, fx: seq<MarketPoint>)
  {
    && (e.localPct.Some? ==> Grows(p.close, e.localPct.value, q.close))
    && forall f, g :: f in fx && g in fx && f.tradeDate == p.tradeDate && g.tradeDate == q.tradeDate
         ==> (e.fxPct.Some? && e.convertedPct.Some?
              ==> Grows(f.close, e.fxPct.value, g.close)
                  && Grows(Times(p.close, f.close), e.convertedPct.value, Times(q.close, g.close)))
  }

  /** There is a local return exactly between two different sessions, and it is also the converted one
      in one currency; across currencies both FX and converted return exist exactly if both sessions
      have a rate of their own date. */
  ghost predicate Reports(prices: seq<MarketPoint>, fx: seq<MarketPoint>, sameCurrency: bool, e: AlignedReturn)
  {
    && (e.localPct.Some? <==> e.tradeDate.Some? && e.previousDate.Some? && !e.carriedForward)
    && (e.fxPct.Some? <==> !sameCurrency && e.convertedPct.Some?)
    && (if sameCurrency then e.convertedPct == e.localPct
        else e.convertedPct.Some?
             <==> e.localPct.Some? && HasDate(fx, e.previousDate.value) && HasDate(fx, e.tradeDate.value))
    && forall p, q ::
         p in prices && q in prices && Some(p.tradeDate) == e.previousDate && Some(q.tradeDate) == e.tradeDate
         ==> Measures(e, p, q, fx)
  }

  lemma SelectionNames(
    prices: seq<MarketPoint>, fx: seq<MarketPoint>, sameCurrency: bool, requested: Policy, market: Option<string>,
    dates: seq<Date>, i: nat)
    requires i < |dates|
    ensures var e := EntryAt(prices, fx, sameCurrency, EffectivePolicy(requested, market), dates, i);
            e.navDate == dates[i] && NamesLatest(prices, requested, market, e) && NamesPolicy(requested, market, e)
  {
    hide Reference, Carried, FxOn, ReturnPct, Converted, Latest;
    var policy := EffectivePolicy(requested, market);
    var cutoff := Cutoff(policy, dates[i]);
    assert forall x :: Counts(requested, market, x, dates[i]) <==> x <= cutoff;
    forall p | p in prices && p.tradeDate <= cutoff ensures Latest(prices, cutoff).Some? {
      LatestExists(prices, cutoff, p);
    }
    if Latest(prices, cutoff).Some? { assert IsLatest(prices, cutoff, Latest(prices, cutoff).value); }
  }

  lemma PreviousNames(
    prices: seq<MarketPoint>, fx: seq<MarketPoint>, sameCurrency: bool, policy: Policy, d: Date,
    last: Option<MarketPoint>, current: Option<MarketPoint>)
    requires last.Some? ==> current.Some?
    ensures NamesPrevious(prices, if last.Some? then Some(last.value.tradeDate) else None,
                          Built(prices, fx, sameCurrency, policy, d, last, current))
  {
    hide FxOn, ReturnPct, Converted, Latest, HasDate;
    if current.Some? && last.None? { EarlierSession(prices, current.value.tradeDate); }
  }

  lemma EarlierSession(prices: seq<MarketPoint>, d: Date)
    ensures var p := Latest(prices, d - 1);
            && (p.Some? ==> HasDate(prices, p.value.tradeDate) && p.value.tradeDate < d)
            && forall q :: q in prices && q.tradeDate < d ==> p.Some? && q.tradeDate <= p.value.tradeDate
  {
    hide Latest;
    forall q | q in prices && q.tradeDate < d ensures Latest(prices, d - 1).Some? {
      LatestExists(prices, d - 1, q);
    }
  }

  lemma PointOfDate(points: seq<MarketPoint>, p: MarketPoint, q: MarketPoint)
    requires DistinctDates(points) && p in points && q in points && p.tradeDate == q.tradeDate
    ensures p == q
  {
    var i :| 0 <= i < |points| && points[i] == p;
    var j :| 0 <= j < |points| && points[j] == q;
  }

  lemma FxOnIs(fx: seq<MarketPoint>, d: Date)
    requires DistinctDates(fx)
    ensures FxOn(fx, d).Some? <==> HasDate(fx, d)
    ensures forall f :: f in fx && f.tradeDate == d ==> FxOn(fx, d) == Some(f)
  {
    hide DistinctDates;
    forall f | f in fx && f.tradeDate == d ensures Latest(fx, d) == Some(f) {
      LatestIsUnique(fx, d, f);
    }
  }

  lemma ReturnGrows(a: Price, b: Price)
    ensures Grows(a, ReturnPct(a, b), b)
  {
    assert a * (b / a) == b;
  }

  lemma ValueGrows(p: MarketPoint, f: MarketPoint, q: MarketPoint, g: MarketPoint)
    ensures Grows(Times(p.close, f.close), ReturnPct(ValueAt(p, f), ValueAt(q, g)), Times(q.close, g.close))
  {
    ValueIs(p, f);
    ValueIs(q, g);
    hide Grows, ReturnPct, ValueAt, Times;
    ReturnGrows(ValueAt(p, f), ValueAt(q, g));
  }

  lemma ValueIs(p: MarketPoint, f: MarketPoint)
    ensures ValueAt(p, f) == Times(p.close, f.close)
  {
  }

  lemma ReturnsReported(
    prices: seq<MarketPoint>, fx: seq<MarketPoint>, sameCurrency: bool, policy: Policy, d: Date,
    last: Option<MarketPoint>, current: Option<MarketPoint>)
    requires DistinctDates(prices) && DistinctDates(fx)
    requires (last.Some? ==> last.value in prices) && (current.Some? ==> current.value in prices)
    ensures Reports(prices, fx, sameCurrency, Built(prices, fx, sameCurrency, policy, d, last, current))
  {
    hide DistinctDates, ReturnPct, Grows, HasDate, FxOn, Latest, Times, ValueAt, Reference;
    var e := Built(prices, fx, sameCurrency, policy, d, last, current);
    if current.Some? && Reference(prices, last, current.value).Some? {
      var p, q := Reference(prices, last, current.value).value, current.value;
      assert p in prices by { ReferenceIsPoint(prices, last, q); }
      FxOnIs(fx, p.tradeDate);
      FxOnIs(fx, q.tradeDate);
      ReturnGrows(p.close, q.close);
      forall f, g | f in fx && g in fx && f.tradeDate == p.tradeDate && g.tradeDate == q.tradeDate
        ensures e.fxPct.Some? && e.convertedPct.Some?
            ==> Grows(f.close, e.fxPct.value, g.close)
                && Grows(Times(p.close, f.close), e.convertedPct.value, Times(q.close, g.close))
      {
        assert FxOn(fx, p.tradeDate) == Some(f) && FxOn(fx, q.tradeDate) == Some(g);
        ReturnGrows(f.close, g.close);
        ValueGrows(p, f, q, g);
      }
      assert e.localPct.Some? ==> Grows(p.close, e.localPct.value, q.close);
      assert Measures(e, p, q, fx);
      forall x, y |
        x in prices && y in prices && Some(x.tradeDate) == e.previousDate && Some(y.tradeDate) == e.tradeDate
        ensures Measures(e, x, y, fx)
      {
        PointOfDate(prices, p, x);
        PointOfDate(prices, q, y);
      }
    }
  }

  lemma ReferenceIsPoint(prices: seq<MarketPoint>, last: Option<MarketPoint>, current: MarketPoint)
    requires last.Some? ==> last.value in prices
    ensures var p := Reference(prices, last, current); p.Some? ==> p.value in prices
  {
  }

  /** It names the policy asked for, and when that goes by market the one of the market. */
  ghost predicate NamesPolicy(requested: Policy, market: Option<string>, e: AlignedReturn)
  {
    if requested != MIXED_BY_SECURITY_MARKET then e.policy == requested
    else if market == Some("US") || market == Some("UK") then e.policy == US_PREVIOUS_COMPLETED_SESSION
    else e.policy == ASIA_SAME_OR_PREVIOUS_SESSION
  }

  /** All that an entry says. */
  ghost predicate Says(
    prices: seq<MarketPoint>, fx: seq<MarketPoint>, sameCurrency: bool, requested: Policy, market: Option<string>,
    before: Option<Date>, e: AlignedReturn)
  {
    && NamesLatest(prices, requested, market, e) && NamesPrevious(prices, before, e)
    && Reports(prices, fx, sameCurrency, e) && NamesPolicy(requested, market, e)
  }

  lemma EntrySays(
    prices: seq<MarketPoint>, fx: seq<MarketPoint>, sameCurrency: bool, requested: Policy, market: Option<string>,
    dates: seq<Date>, i: nat)
    requires DistinctDates(prices) && DistinctDates(fx) && Increasing(dates) && i < |dates|
    ensures var policy := EffectivePolicy(requested, market);
            var e := EntryAt(prices, fx, sameCurrency, policy, dates, i);
            var before := if i == 0 then None else EntryAt(prices, fx, sameCurrency, policy, dates, i - 1).tradeDate;
            e.navDate == dates[i] && Says(prices, fx, sameCurrency, requested, market, before, e)
  {
    hide NamesLatest, NamesPrevious, NamesPolicy, Reports, Latest, DistinctDates, Cutoff, EffectivePolicy, FxOn;
    hide Converted;
    var policy := EffectivePolicy(requested, market);
    var last, current := SelectedBefore(prices, policy, Before(dates, i)), Selected(prices, policy, dates[i]);
    if last.Some? { SelectedMonotone(prices, policy, dates[i - 1], dates[i]); }
    SelectionNames(prices, fx, sameCurrency, requested, market, dates, i);
    PreviousNames(prices, fx, sameCurrency, policy, dates[i], last, current);
    ReturnsReported(prices, fx, sameCurrency, policy, dates[i], last, current);
  }

  /** All entries say so, each one about the session of the entry before. */
  ghost predicate AllSay(
    prices: seq<MarketPoint>, fx: seq<MarketPoint>, sameCurrency: bool, requested: Policy, market: Option<string>,
    dates: seq<Date>, result: seq<AlignedReturn>)
  {
    && |result| == |dates|
    && forall i :: 0 <= i < |dates| ==>
         && result[i].navDate == dates[i]
         && Says(prices, fx, sameCurrency, requested, market, if i == 0 then None else result[i - 1].tradeDate,
                 result[i])
  }

  lemma EntriesSay(
    prices: seq<MarketPoint>, fx: seq<MarketPoint>, sameCurrency: bool, requested: Policy, market: Option<string>,
    dates: seq<Date>, result: seq<AlignedReturn>)
    requires DistinctDates(prices) && DistinctDates(fx) && Increasing(dates) && |result| == |dates|
    requires forall i :: 0 <= i < |dates|
               ==> result[i] == EntryAt(prices, fx, sameCurrency, EffectivePolicy(requested, market), dates, i)
    ensures AllSay(prices, fx, sameCurrency, requested, market, dates, result)
  {
    hide Says, DistinctDates, Increasing, EntryAt, EffectivePolicy;
    forall i | 0 <= i < |dates|
      ensures result[i].navDate == dates[i]
      ensures Says(prices, fx, sameCurrency, requested, market, if i == 0 then None else result[i - 1].tradeDate,
                   result[i])
    {
      EntrySays(prices, fx, sameCurrency, requested, market, dates, i);
    }
  }

  // ---------- the aligning loop ----------

  lemma SelectedMonotone(points: seq<MarketPoint>, policy: Policy, a: Date, b: Date)
    requires a <= b && Selected(points, policy, a).Some?
    ensures Selected(points, policy, b).Some?
    ensures Selected(points, policy, a).value.tradeDate <= Selected(points, policy, b).value.tradeDate
  {
    LatestExists(points, Cutoff(policy, b), Selected(points, policy, a).value);
  }

  method AlignReturns(
    navDates: seq<Date>, prices: seq<MarketPoint>, market: Option<string>, sameCurrency: bool,
    rates: Option<seq<MarketPoint>>, requested: Policy)
    returns (result: seq<AlignedReturn>)
    requires DistinctDates(prices) && (rates.Some? ==> DistinctDates(rates.value))
    ensures var dates, policy := SortedDistinct(navDates), EffectivePolicy(requested, market);
            var fx := if rates.Some? then rates.value else [];
            && |result| == |dates|
            && (forall i :: 0 <= i < |dates| ==> result[i] == EntryAt(prices, fx, sameCurrency, policy, dates, i))
            && AllSay(prices, fx, sameCurrency, requested, market, dates, result)
  {
    hide AllSay, SortedDistinct, SortPoints, Latest, ReturnPct, Converted, Increasing, DistinctDates, Built;
    var policy := EffectivePolicy(requested, market);
    var dates := SortedDistinct(navDates);
    var fx := if rates.Some? then rates.value else [];
    var pricePoints, fxPoints := SortPoints(prices), SortPoints(fx);
    var priceDates, fxDates := DatesOf(pricePoints), DatesOf(fxPoints);
    SortedDistinctSorts(navDates);
    EmptyHasDistinctDates();
    SortedAgrees(prices);
    SortedAgrees(fx);
    result := [];
    var last: Option<MarketPoint> := None;
    for k := 0 to |dates|
      invariant |result| == k
      invariant last == SelectedBefore(prices, policy, Before(dates, k))
      invariant forall i :: 0 <= i < k ==> result[i] == EntryAt(prices, fx, sameCurrency, policy, dates, i)
    {
      var navDate := dates[k];
      var current := LatestOnOrBefore(pricePoints, priceDates, Cutoff(policy, navDate));
      if current.None? {
        if last.Some? { LaterSelected(prices, policy, dates, k); }
        NothingBuilt(prices, fx, sameCurrency, policy, navDate, last);
        result := result + [AlignedReturn(navDate, None, None, None, None, None, policy, false)];
        continue;
      }
      var carried := last.Some? && current.value.tradeDate == last.value.tradeDate;
      var previous := last;
      if previous.None? {
        previous := PreviousBefore(pricePoints, priceDates, current.value.tradeDate);
      }
      var local: Option<real> := None;
      if previous.Some? && !carried {
        local := Some(ReturnPct(previous.value.close, current.value.close));
      }
      var fxReturn, converted: Option<real> := None, None;
      if previous.None? || carried {
      } else if sameCurrency {
        converted := local;
      } else {
        var fx0 := LatestOnOrBefore(fxPoints, fxDates, previous.value.tradeDate);
        var fx1 := LatestOnOrBefore(fxPoints, fxDates, current.value.tradeDate);
        if fx0.Some? && fx1.Some?
           && fx0.value.tradeDate == previous.value.tradeDate && fx1.value.tradeDate == current.value.tradeDate
        {
          var moved := Converted(previous.value, current.value, fx0.value, fx1.value);
          fxReturn, converted := Some(moved.0), Some(moved.1);
        }
      }
      var entry := AlignedReturn(navDate, Some(current.value.tradeDate),
                                 if previous.Some? then Some(previous.value.tradeDate) else None,
                                 local, fxReturn, converted, policy, carried);
      EntryBuilt(prices, fx, sameCurrency, policy, navDate, last, current.value, entry);
      result := result + [entry];
      last := current;
    }
    EntriesSay(prices, fx, sameCurrency, requested, market, dates, result);
  }

  lemma EmptyHasDistinctDates()
    ensures DistinctDates([])
  {
  }

  /** Once a point has been selected, one is selected for every later NAV date. */
  lemma LaterSelected(points: seq<MarketPoint>, policy: Policy, dates: seq<Date>, k: nat)
    requires Increasing(dates) && 0 < k < |dates| && Selected(points, policy, dates[k - 1]).Some?
    ensures Selected(points, policy, dates[k]).Some?
  {
    SelectedMonotone(points, policy, dates[k - 1], dates[k]);
  }

  lemma NothingBuilt(
    points: seq<MarketPoint>, fx: seq<MarketPoint>, sameCurrency: bool, policy: Policy, d: Date,
    last: Option<MarketPoint>)
    ensures Built(points, fx, sameCurrency, policy, d, last, None)
         == AlignedReturn(d, None, None, None, None, None, policy, false)
  {
  }

  /** The values the loop computes for one NAV date are those of the specification. */
  lemma EntryBuilt(
    points: seq<MarketPoint>, fx: seq<MarketPoint>, sameCurrency: bool, policy: Policy, d: Date,
    last: Option<MarketPoint>, current: MarketPoint, entry: AlignedReturn)
    requires var previous := Reference(points, last, current);
             && entry.navDate == d && entry.policy == policy && entry.tradeDate == Some(current.tradeDate)
             && entry.previousDate == (if previous.Some? then Some(previous.value.tradeDate) else None)
             && entry.carriedForward == Carried(last, current)
             && if previous.None? || entry.carriedForward
                then entry.localPct == None && entry.fxPct == None && entry.convertedPct == None
                else
                  var fx0, fx1 := FxOn(fx, previous.value.tradeDate), FxOn(fx, current.tradeDate);
                  && entry.localPct == Some(ReturnPct(previous.value.close, current.close))
                  && if sameCurrency then entry.fxPct == None && entry.convertedPct == entry.localPct
                     else if fx0.None? || fx1.None? then entry.fxPct == None && entry.convertedPct == None
                     else
                       var c := Converted(previous.value, current, fx0.value, fx1.value);
                       entry.fxPct == Some(c.0) && entry.convertedPct == Some(c.1)
    ensures entry == Built(points, fx, sameCurrency, policy, d, last, Some(current))
  {
  }

  lemma SortedAgrees(points: seq<MarketPoint>)
    requires DistinctDates(points)
    ensures Increasing(DatesOf(SortPoints(points)))
    ensures forall cutoff :: Latest(SortPoints(points), cutoff) == Latest(points, cutoff)
  {
    SortPointsSorts(points);
    forall cutoff ensures Latest(SortPoints(points), cutoff) == Latest(points, cutoff) {
      LatestDependsOnPast(SortPoints(points), points, cutoff);
    }
  }
}
