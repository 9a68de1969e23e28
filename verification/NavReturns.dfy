/** What a batch leaves in a NAV series, said of the records and the rows alone. */
module NavReturns {
  import opened Sums
  import opened Calendar
  import opened Decimals
  import opened NavChain

  // ---------- the record of a date ----------

  ghost predicate LastRecordOf(records: seq<NavRecord>, d: Date, j: int)
  {
    0 <= j < |records| && records[j].navDate == d && forall i :: j < i < |records| ==> records[i].navDate != d
  }

  /** The batch holds the last record of every date that has one. */
  lemma {:induction false} LastRecordWins(records: seq<NavRecord>, d: Date)
    ensures d in ByDate(records) <==> exists j :: LastRecordOf(records, d, j)
    ensures forall j :: LastRecordOf(records, d, j) ==> d in ByDate(records) && ByDate(records)[d] == records[j]
  {
    if records != [] {
      var n := |records| - 1;
      LastRecordWins(records[..n], d);
      if records[n].navDate == d {
        assert LastRecordOf(records, d, n);
      } else {
        forall j ensures LastRecordOf(records, d, j) <==> LastRecordOf(records[..n], d, j) {
        }
      }
    }
  }

  // ---------- the return of a date ----------

  /** The latest of the dates before `d`. */
  ghost predicate LatestBefore(dates: set<Date>, d: Date, p: Date)
  {
    p in dates && p < d && forall q :: q in dates && q < d ==> q <= p
  }

  /** `pct` has eight digits and takes `base` to `unit` up to half a step. */
  ghost predicate TakesTo(base: Price, pct: real, unit: Price)
  {
    OnGrid(pct, QUANTITY_SCALE) && Abs(base * (1.0 + pct / 100.0) - unit) <= base * 0.00000000005
  }

  lemma ReturnTakesTo(base: Price, unit: Price)
    ensures DailyReturn(Some(base), unit).Some? && TakesTo(base, DailyReturn(Some(base), unit).value, unit)
  {
    hide Quantize, OnGrid;
    var exact := (unit / base - 1.0) * 100.0;
    var pct := DailyReturn(Some(base), unit).value;
    QuantizeError(exact, QUANTITY_SCALE);
    QuantizeOnGrid(exact, QUANTITY_SCALE);
    assert FromSteps(0.5, QUANTITY_SCALE) == 0.000000005;
    assert base * (unit / base) == unit;
    Deviation(base, unit / base, exact, pct);
  }

  lemma Deviation(base: Price, q: real, exact: real, pct: real)
    requires exact == (q - 1.0) * 100.0 && Abs(pct - exact) <= 0.000000005
    ensures Abs(base * (1.0 + pct / 100.0) - base * q) <= base * 0.00000000005
  {
    var e := pct / 100.0 - exact / 100.0;
    assert base * (1.0 + pct / 100.0) - base * q == base * e;
    assert -0.00000000005 <= e <= 0.00000000005;
    Scaled(base, e);
  }

  lemma Scaled(base: Price, e: real)
    requires -0.00000000005 <= e <= 0.00000000005
    ensures Abs(base * e) <= base * 0.00000000005
  {
    var below, above := 0.00000000005 - e, 0.00000000005 + e;
    assert base * below >= 0.0;
    assert base * above >= 0.0;
  }

  /** A batch writes its own dates and no others. A row written carries the record, and a return that
      takes the unit NAV of the latest batch date before it to its own, or for the first batch date
      that of the latest stored date; it has no return exactly if there is neither. */
  lemma WritesExactly(rows: Rows, batch: Batch, d: Date)
    ensures var after := Upserted(rows, batch);
            && (d in after <==> d in rows || d in batch)
            && (d in rows && d !in batch ==> after[d] == rows[d])
            && (d in batch ==>
                  && after[d].unit == batch[d].unit && after[d].accumulated == batch[d].accumulated
                  && after[d].published == batch[d].published && after[d].payloadHash == batch[d].payloadHash
                  && (forall p :: LatestBefore(batch.Keys, d, p)
                        ==> after[d].calculated.Some?
                            && TakesTo(batch[p].unit, after[d].calculated.value, batch[d].unit))
                  && ((forall p :: p in batch ==> p >= d) ==>
                        && (after[d].calculated.Some? <==> exists s :: s in rows && s < d)
                        && (forall s :: LatestBefore(rows.Keys, d, s) ==>
                              after[d].calculated.Some?
                              && TakesTo(rows[s].unit, after[d].calculated.value, batch[d].unit))))
  {
    hide DailyReturn, TakesTo;
    if d in batch {
      forall p | LatestBefore(batch.Keys, d, p)
        ensures DailyReturn(UsedUnit(rows, batch, d), batch[d].unit) == DailyReturn(Some(batch[p].unit), batch[d].unit)
      {
        PredecessorIs(batch.Keys, d, p);
      }
      forall p | LatestBefore(batch.Keys, d, p) {
        ReturnTakesTo(batch[p].unit, batch[d].unit);
      }
      if forall p :: p in batch ==> p >= d { FirstReturn(rows, batch, d); }
    }
  }

  lemma FirstReturn(rows: Rows, batch: Batch, d: Date)
    requires d in batch && forall p :: p in batch ==> p >= d
    ensures var calculated := DailyReturn(UsedUnit(rows, batch, d), batch[d].unit);
            && (calculated.Some? <==> exists s :: s in rows && s < d)
            && forall s :: LatestBefore(rows.Keys, d, s) ==>
                 calculated.Some? && TakesTo(rows[s].unit, calculated.value, batch[d].unit)
  {
    hide TakesTo;
    assert Predecessor(batch.Keys, d).None?;
    forall s | s in rows && s < d ensures Predecessor(rows.Keys, d).Some? {
      PredecessorExists(rows.Keys, d, s);
    }
    forall s | LatestBefore(rows.Keys, d, s) ensures UsedUnit(rows, batch, d) == Some(rows[s].unit) {
      PredecessorIs(rows.Keys, d, s);
    }
    forall s | LatestBefore(rows.Keys, d, s) {
      ReturnTakesTo(rows[s].unit, batch[d].unit);
    }
  }
}
