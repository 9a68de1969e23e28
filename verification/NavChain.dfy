/** The NAV rows of one share and provider, and their calculated daily returns
    (backend/app/ingestion/nav_pipeline.py). */
module NavChain {
  import opened Sums
  import opened Calendar
  import opened Decimals

  datatype NavRecord = NavRecord(
    navDate: Date, unit: Price, accumulated: Option<Price>, published: Option<real>, payloadHash: string)

  datatype NavRow = NavRow(
    unit: Price, accumulated: Option<Price>, published: Option<real>, calculated: Option<real>, payloadHash: string)

  type Rows = map<Date, NavRow>
  type Batch = map<Date, NavRecord>

  /** The calculated return as its column of eight decimals holds it. */
  function DailyReturn(previous: Option<Price>, current: Price): Option<real>
  {
    if previous.None? then None else Some(Quantize((current / previous.value - 1.0) * 100.0, QUANTITY_SCALE))
  }

  // ---------- specification ----------

  /** One record per date; a later record of the list replaces an earlier one. */
  function ByDate(records: seq<NavRecord>): (b: Batch)
    ensures forall d :: d in b ==> b[d].navDate == d
  {
    if records == [] then map[]
    else ByDate(records[..|records| - 1])[records[|records| - 1].navDate := records[|records| - 1]]
  }

  /** The unit NAV that the return of a batch date is calculated from: that of the batch date
      before it, or for the first one that of the stored row before it. */
  ghost function UsedUnit(rows: Rows, batch: Batch, d: Date): Option<Price>
  {
    match Predecessor(batch.Keys, d)
    case Some(p) => Some(batch[p].unit)
    case None => UnitOf(rows, Predecessor(rows.Keys, d))
  }

  ghost function UnitOf(rows: Rows, d: Option<Date>): Option<Price>
  {
    if d.Some? && d.value in rows then Some(rows[d.value].unit) else None
  }

  function RowFrom(r: NavRecord, previous: Option<Price>): NavRow
  {
    NavRow(r.unit, r.accumulated, r.published, DailyReturn(previous, r.unit), r.payloadHash)
  }

  ghost function Upserted(rows: Rows, batch: Batch): Rows
  {
    map d | d in rows.Keys + batch.Keys ::
      if d in batch then RowFrom(batch[d], UsedUnit(rows, batch, d)) else rows[d]
  }

  // ---------- the upsert loop ----------

  lemma NextInOrder(batch: Batch, dates: seq<Date>, k: nat)
    requires Increasing(dates) && (forall d :: d in dates <==> d in batch) && k < |dates|
    ensures Predecessor(batch.Keys, dates[k]) == if k == 0 then None else Some(dates[k - 1])
  {
    if k > 0 {
      assert IsPredecessor(batch.Keys, dates[k], dates[k - 1]) by {
        forall q | q in batch.Keys && q < dates[k] ensures q <= dates[k - 1] {
          var i :| 0 <= i < |dates| && dates[i] == q;
        }
      }
    } else {
      forall p | p in batch.Keys ensures p >= dates[0] {
        var i :| 0 <= i < |dates| && dates[i] == p;
      }
    }
  }

  /** The table when the given dates of the batch have been written. */
  ghost predicate Partial(rows: Rows, batch: Batch, done: set<Date>, table: Rows)
    requires done <= batch.Keys
  {
    && table.Keys == rows.Keys + done
    && forall d :: d in table ==> table[d] == if d in done then RowFrom(batch[d], UsedUnit(rows, batch, d)) else rows[d]
  }

  lemma PartialStarts(rows: Rows, batch: Batch)
    ensures Partial(rows, batch, {}, rows)
  {
  }

  lemma PartialStep(rows: Rows, batch: Batch, done: set<Date>, table: Rows, d: Date)
    requires done <= batch.Keys && Partial(rows, batch, done, table) && d in batch && d !in done
    ensures Partial(rows, batch, done + {d}, table[d := RowFrom(batch[d], UsedUnit(rows, batch, d))])
  {
    hide UsedUnit, DailyReturn;
  }

  lemma PartialEnds(rows: Rows, batch: Batch, table: Rows)
    requires Partial(rows, batch, batch.Keys, table)
    ensures table == Upserted(rows, batch)
  {
    hide UsedUnit, RowFrom;
    var after := Upserted(rows, batch);
    assert after.Keys == table.Keys;
    forall d | d in table ensures table[d] == after[d] {
    }
  }

  lemma PrefixOfDates(batch: Batch, ordered: seq<Date>, k: nat)
    requires Increasing(ordered) && (forall d :: d in ordered <==> d in batch) && k < |ordered|
    ensures Written(ordered, k) <= batch.Keys && ordered[k] in batch && ordered[k] !in Written(ordered, k)
    ensures Written(ordered, k + 1) == Written(ordered, k) + {ordered[k]}
    ensures Written(ordered, |ordered|) == batch.Keys
  {
    assert ordered[k] in ordered;
    forall d | d in Written(ordered, k + 1) ensures d in Written(ordered, k) + {ordered[k]} {
      var i :| 0 <= i < k + 1 && ordered[i] == d;
    }
    forall d | d in batch ensures d in Written(ordered, |ordered|) {
      var i :| 0 <= i < |ordered| && ordered[i] == d;
    }
  }

  ghost function Written(ordered: seq<Date>, k: nat): set<Date>
    requires k <= |ordered|
  {
    set i | 0 <= i < k :: ordered[i]
  }

  class NavSeries {
    var rows: Rows

    constructor ()
      ensures rows == map[]
    {
      rows := map[];
    }

    method UpsertNavRows(records: seq<NavRecord>) returns (written: nat)
      modifies this
      ensures rows == Upserted(old(rows), ByDate(records))
      ensures written == |ByDate(records)|
    {
      hide SortedDistinct, UsedUnit, Upserted, Partial, Written, RowFrom, Increasing;
      if records == [] {
        NothingUpserted(rows);
        return 0;
      }
      var batch := ByDate(records);
      var dates := seq(|records|, i requires 0 <= i < |records| => records[i].navDate);
      var ordered := SortedDistinct(dates);
      SortedDistinctSorts(dates);
      BatchDates(records, dates);
      assert dates[0] in ordered;
      var stored := rows;
      var before := FindPredecessor(stored.Keys, ordered[0]);
      var previous := if before.Some? then Some(stored[before.value].unit) else None;
      var table := stored;
      PartialStarts(stored, batch);
      NoneWritten(ordered);
      PrefixOfDates(batch, ordered, 0);
      for k := 0 to |ordered|
        invariant rows == stored
        invariant Written(ordered, k) <= batch.Keys && Partial(stored, batch, Written(ordered, k), table)
        invariant previous == Previous(stored, batch, ordered, k)
      {
        var record := batch[ordered[k]];
        PrefixOfDates(batch, ordered, k);
        PreviousIsUsed(stored, batch, ordered, k);
        PartialStep(stored, batch, Written(ordered, k), table, ordered[k]);
        table := table[record.navDate := RowFrom(record, previous)];
        previous := Some(record.unit);
      }
      PartialEnds(stored, batch, table);
      DatesCounted(batch, ordered);
      rows := table;
      written := |ordered|;
    }
  }

  /** The running `previous_nav` before the k-th date is written. */
  ghost function Previous(rows: Rows, batch: Batch, ordered: seq<Date>, k: nat): Option<Price>
    requires k <= |ordered| && ordered != []
  {
    if k == 0 then UnitOf(rows, Predecessor(rows.Keys, ordered[0]))
    else if ordered[k - 1] in batch then Some(batch[ordered[k - 1]].unit)
    else None
  }

  lemma PreviousIsUsed(rows: Rows, batch: Batch, ordered: seq<Date>, k: nat)
    requires Increasing(ordered) && (forall d :: d in ordered <==> d in batch) && k < |ordered|
    ensures Previous(rows, batch, ordered, k) == UsedUnit(rows, batch, ordered[k])
  {
    if k > 0 { assert ordered[k - 1] in ordered; }
    NextInOrder(batch, ordered, k);
  }

  lemma NothingUpserted(rows: Rows)
    ensures Upserted(rows, map[]) == rows
  {
  }

  lemma NoneWritten(ordered: seq<Date>)
    ensures Written(ordered, 0) == {}
  {
  }

  lemma {:induction false} DatesCounted(batch: Batch, ordered: seq<Date>)
    requires Increasing(ordered) && forall d :: d in ordered <==> d in batch
    ensures |ordered| == |batch|
    decreases |ordered|
  {
    if ordered == [] {
      assert forall d :: d in batch ==> d in ordered;
      assert batch == map[];
    } else {
      var last := ordered[|ordered| - 1];
      var front := ordered[..|ordered| - 1];
      assert ordered == front + [last];
      DatesCounted(batch - {last}, front);
      assert (batch - {last}).Keys == batch.Keys - {last};
    }
  }

  lemma {:induction false} BatchDates(records: seq<NavRecord>, dates: seq<Date>)
    requires |dates| == |records| && forall i :: 0 <= i < |records| ==> dates[i] == records[i].navDate
    ensures forall d :: d in dates <==> d in ByDate(records)
  {
    if records != [] {
      var last := |records| - 1;
      BatchDates(records[..last], dates[..last]);
      assert dates == dates[..last] + [dates[last]];
    }
  }

  // ---------- the chain of calculated returns ----------

  /** Each stored return is relative to the immediately preceding row; the first has none. */
  ghost predicate Chained(rows: Rows)
  {
    forall d :: d in rows ==> rows[d].calculated == DailyReturn(UnitOf(rows, Predecessor(rows.Keys, d)), rows[d].unit)
  }

  /** The unit NAV that the return of `d` is based on after the batch: recalculated for a batch
      date, left as it was for any other. */
  ghost function BasisAfter(rows: Rows, batch: Batch, d: Date): Option<Price>
  {
    if d in batch then UsedUnit(rows, batch, d) else UnitOf(rows, Predecessor(rows.Keys, d))
  }

  ghost function UnitAfter(rows: Rows, batch: Batch, d: Option<Date>): Option<Price>
  {
    if d.None? then None
    else if d.value in batch then Some(batch[d.value].unit)
    else UnitOf(rows, d)
  }

  function UnitNow(rows: Rows, batch: Batch, d: Date): Price
    requires d in rows.Keys + batch.Keys
  {
    if d in batch then batch[d].unit else rows[d].unit
  }

  /** The return of a date is that relative to the date just before it in the merged table. */
  ghost predicate BasisAgrees(rows: Rows, batch: Batch, d: Date)
    requires d in rows.Keys + batch.Keys
  {
    var before := UnitAfter(rows, batch, Predecessor(rows.Keys + batch.Keys, d));
    DailyReturn(BasisAfter(rows, batch, d), UnitNow(rows, batch, d)) == DailyReturn(before, UnitNow(rows, batch, d))
  }

  lemma ChainUnfolds(rows: Rows, batch: Batch)
    requires Chained(rows)
    ensures Chained(Upserted(rows, batch)) <==> forall d :: d in rows.Keys + batch.Keys ==> BasisAgrees(rows, batch, d)
  {
    hide DailyReturn;
    var after := Upserted(rows, batch);
    assert after.Keys == rows.Keys + batch.Keys;
    forall d | d in after
      ensures after[d].calculated == DailyReturn(UnitOf(after, Predecessor(after.Keys, d)), after[d].unit)
         <==> BasisAgrees(rows, batch, d)
    {
      assert UnitOf(after, Predecessor(after.Keys, d)) == UnitAfter(rows, batch, Predecessor(after.Keys, d));
      assert after[d].calculated == DailyReturn(BasisAfter(rows, batch, d), after[d].unit);
    }
  }

  // ---------- where a batch can break the chain ----------

  /** Neighbours once the batch is in: neither a stored nor a batch date lies between. */
  ghost predicate Adjacent(rows: Rows, batch: Batch, a: Date, b: Date)
  {
    a < b && forall q :: q in rows.Keys + batch.Keys ==> q <= a || b <= q
  }

  /** First test: a stored row that the batch leaves alone, right after a batch date, must
      already hold the return relative to that date's new unit NAV. */
  ghost predicate NextRowAgrees(rows: Rows, batch: Batch, b: Date, d: Date)
    requires b in batch
  {
    d in rows && d !in batch && Adjacent(rows, batch, b, d)
    ==> rows[d].calculated == DailyReturn(Some(batch[b].unit), rows[d].unit)
  }

  /** Second test: a stored row that the batch leaves alone, right before a batch date other than
      the first, must give that date the same return as the batch date before does. */
  ghost predicate GapRowAgrees(rows: Rows, batch: Batch, s: Date, b: Date)
    requires s in rows
  {
    s !in batch && b in batch && Adjacent(rows, batch, s, b) && Predecessor(batch.Keys, b).Some?
    ==> DailyReturn(Some(batch[Predecessor(batch.Keys, b).value].unit), batch[b].unit)
        == DailyReturn(Some(rows[s].unit), batch[b].unit)
  }

  ghost predicate LocalTestsPass(rows: Rows, batch: Batch)
  {
    && (forall b, d :: b in batch ==> NextRowAgrees(rows, batch, b, d))
    && forall s, b :: s in rows ==> GapRowAgrees(rows, batch, s, b)
  }

  lemma AdjacentIsPredecessor(rows: Rows, batch: Batch, a: Date, b: Date)
    requires a in rows.Keys + batch.Keys
    ensures Adjacent(rows, batch, a, b) <==> Predecessor(rows.Keys + batch.Keys, b) == Some(a)
  {
    if Adjacent(rows, batch, a, b) { PredecessorIs(rows.Keys + batch.Keys, b, a); }
  }

  /** The tests are what the basis of a date comes down to, by where its neighbour comes from. */
  lemma AfterBatchDate(rows: Rows, batch: Batch, b: Date, d: Date)
    requires Chained(rows) && b in batch && d in rows && d !in batch && Adjacent(rows, batch, b, d)
    ensures BasisAgrees(rows, batch, d) <==> NextRowAgrees(rows, batch, b, d)
  {
    hide DailyReturn;
    AdjacentIsPredecessor(rows, batch, b, d);
  }

  lemma AfterStoredRow(rows: Rows, batch: Batch, s: Date, b: Date)
    requires s in rows && s !in batch && b in rows.Keys + batch.Keys && Adjacent(rows, batch, s, b)
    ensures BasisAgrees(rows, batch, b) <==> GapRowAgrees(rows, batch, s, b)
  {
    hide DailyReturn;
    AdjacentIsPredecessor(rows, batch, s, b);
    if b !in batch || Predecessor(batch.Keys, b).None? {
      PredecessorIs(rows.Keys, b, s);
    }
  }

  lemma AfterNothing(rows: Rows, batch: Batch, d: Date)
    requires d in rows.Keys + batch.Keys && Predecessor(rows.Keys + batch.Keys, d).None?
    ensures BasisAgrees(rows, batch, d)
  {
    var all := rows.Keys + batch.Keys;
    if Predecessor(rows.Keys, d).Some? { PredecessorExists(all, d, Predecessor(rows.Keys, d).value); }
    if Predecessor(batch.Keys, d).Some? { PredecessorExists(all, d, Predecessor(batch.Keys, d).value); }
  }

  lemma AfterBatchInBatch(rows: Rows, batch: Batch, b: Date, d: Date)
    requires b in batch && d in batch && Adjacent(rows, batch, b, d)
    ensures BasisAgrees(rows, batch, d)
  {
    AdjacentIsPredecessor(rows, batch, b, d);
    PredecessorIs(batch.Keys, d, b);
  }

  /** The chain survives a batch exactly when the two local tests pass on every row it leaves
      alone next to one of its dates. */
  lemma ChainKeptIff(rows: Rows, batch: Batch)
    requires Chained(rows)
    ensures Chained(Upserted(rows, batch)) <==> LocalTestsPass(rows, batch)
  {
    hide Chained, Upserted, BasisAgrees, NextRowAgrees, GapRowAgrees;
    ChainUnfolds(rows, batch);
    forall b, d | b in batch && !NextRowAgrees(rows, batch, b, d)
      ensures d in rows && !BasisAgrees(rows, batch, d)
    {
      NextRowFails(rows, batch, b, d);
      AfterBatchDate(rows, batch, b, d);
    }
    forall s, b | s in rows && !GapRowAgrees(rows, batch, s, b)
      ensures b in batch && !BasisAgrees(rows, batch, b)
    {
      GapRowFails(rows, batch, s, b);
      AfterStoredRow(rows, batch, s, b);
    }
    if LocalTestsPass(rows, batch) {
      forall d | d in rows.Keys + batch.Keys ensures BasisAgrees(rows, batch, d) { TestedBasis(rows, batch, d); }
    }
  }

  lemma NextRowFails(rows: Rows, batch: Batch, b: Date, d: Date)
    requires b in batch && !NextRowAgrees(rows, batch, b, d)
    ensures d in rows && d !in batch && Adjacent(rows, batch, b, d)
  {
  }

  lemma GapRowFails(rows: Rows, batch: Batch, s: Date, b: Date)
    requires s in rows && !GapRowAgrees(rows, batch, s, b)
    ensures s !in batch && b in batch && Adjacent(rows, batch, s, b)
  {
  }

  lemma TestedBasis(rows: Rows, batch: Batch, d: Date)
    requires Chained(rows) && LocalTestsPass(rows, batch) && d in rows.Keys + batch.Keys
    ensures BasisAgrees(rows, batch, d)
  {
    hide BasisAgrees, NextRowAgrees, GapRowAgrees, Chained;
    var p := Predecessor(rows.Keys + batch.Keys, d);
    if p.None? {
      AfterNothing(rows, batch, d);
    } else {
      AdjacentIsPredecessor(rows, batch, p.value, d);
      if p.value !in batch {
        AfterStoredRow(rows, batch, p.value, d);
      } else if d in batch {
        AfterBatchInBatch(rows, batch, p.value, d);
      } else {
        AfterBatchDate(rows, batch, p.value, d);
      }
    }
  }

  /** The batch contains every stored date from its first date on. */
  ghost predicate CoversFrom(rows: Rows, batch: Batch, first: Date)
  {
    && first in batch && (forall d :: d in batch ==> first <= d)
    && forall d :: d in rows && d >= first ==> d in batch
  }

  /** A batch without gaps keeps the chain: neither test has a row to fail on. */
  lemma CoveringBatchKeepsChain(rows: Rows, batch: Batch, first: Date)
    requires Chained(rows) && CoversFrom(rows, batch, first)
    ensures Chained(Upserted(rows, batch))
  {
    hide Chained, Upserted;
    forall s, b | s in rows && s !in batch && b in batch && Adjacent(rows, batch, s, b)
      ensures Predecessor(batch.Keys, b).None?
    {
      assert first in rows.Keys + batch.Keys;
      assert b == first;
    }
    ChainKeptIff(rows, batch);
  }

  /** A batch that revises a row and stops short of the next one breaks the chain: the later
      row is not recalculated. */
  lemma GapBreaksChain() returns (rows: Rows, batch: Batch)
    ensures Chained(rows) && batch.Keys == {1} && !Chained(Upserted(rows, batch))
  {
    var a := NavRow(1.0, None, None, None, "");
    var b := NavRow(1.0, None, None, Some(0.0), "");
    rows, batch := map[1 := a, 2 := b], map[1 := NavRecord(1, 2.0, None, None, "")];
    assert rows.Keys == {1, 2} && rows.Keys + batch.Keys == {1, 2};
    PredecessorIs({1, 2}, 2, 1);
    assert forall p :: !IsPredecessor({1, 2}, 1, p);
    HalvedAndKept();
    assert Chained(rows);
    assert Adjacent(rows, batch, 1, 2) && !NextRowAgrees(rows, batch, 1, 2);
    ChainKeptIff(rows, batch);
  }

  lemma HalvedAndKept()
    ensures DailyReturn(Some(1.0), 1.0) == Some(0.0) && DailyReturn(Some(2.0), 1.0) != Some(0.0)
  {
    assert 1.0 / 1.0 == 1.0 && 1.0 / 2.0 == 0.5;
    assert Steps(0.0, QUANTITY_SCALE) == 0.0 && Steps(-50.0, QUANTITY_SCALE) == -5000000000.0;
    assert (0.0 + 0.5).Floor == 0 && (5000000000.0 + 0.5).Floor == 5000000000;
  }

  /** A row that equals in unit NAV what it is compared with passes its test. */
  lemma EqualUnitsPass(rows: Rows, batch: Batch)
    requires Chained(rows)
    requires forall b, d :: b in batch && d in rows && d !in batch && Adjacent(rows, batch, b, d)
               ==> UnitOf(rows, Predecessor(rows.Keys, d)) == Some(batch[b].unit)
    requires forall s, b :: s in rows && s !in batch && b in batch && Adjacent(rows, batch, s, b)
               ==> UnitOf(rows, Some(s)) == UnitAfter(rows, batch, Predecessor(batch.Keys, b))
                   || Predecessor(batch.Keys, b).None?
    ensures Chained(Upserted(rows, batch))
  {
    hide DailyReturn, Upserted;
    ChainKeptIff(rows, batch);
  }

  /** Running the same batch again changes nothing. */
  lemma UpsertTwice(rows: Rows, batch: Batch)
    ensures Upserted(Upserted(rows, batch), batch) == Upserted(rows, batch)
  {
    var once := Upserted(rows, batch);
    forall d | d in batch ensures UsedUnit(once, batch, d) == UsedUnit(rows, batch, d) {
      if Predecessor(batch.Keys, d).None? { FirstBatchDate(rows, batch, d); }
    }
    assert Upserted(once, batch).Keys == once.Keys;
  }

  lemma FirstBatchDate(rows: Rows, batch: Batch, d: Date)
    requires d in batch && Predecessor(batch.Keys, d).None?
    ensures UnitOf(Upserted(rows, batch), Predecessor(Upserted(rows, batch).Keys, d))
            == UnitOf(rows, Predecessor(rows.Keys, d))
  {
    var once := Upserted(rows, batch);
    forall q | q in once.Keys && q < d ensures q in rows && q !in batch {
      if q in batch { PredecessorExists(batch.Keys, d, q); }
    }
    if Predecessor(rows.Keys, d).Some? {
      PredecessorIs(once.Keys, d, Predecessor(rows.Keys, d).value);
    } else if Predecessor(once.Keys, d).Some? {
      PredecessorExists(rows.Keys, d, Predecessor(once.Keys, d).value);
    }
  }
}
