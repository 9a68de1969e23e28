/** What an import does to the ledgers: it keeps or forgets each position's entries as a whole, and
    importing one payload again on later NAVs keeps them under an exact condition. */
module ImportLedgers {
  import opened Sums
  import opened Decimals
  import opened Calendar
  import opened LedgerModel
  import opened RecurringService
  import opened PortfolioImport

  // ---------- all entries of a position, or none ----------

  ghost predicate Mentions(inputs: seq<PositionInput>, id: Identity)
  {
    exists i :: 0 <= i < |inputs| && IdentityOf(inputs[i]) == id
  }

  lemma {:induction false} SeenNotMentioned(
    p: Portfolio, shares: map<ShareCode, Share>, navs: Navs, inputs: seq<PositionInput>, seen: set<Identity>,
    id: Identity)
    requires Imported(p, shares, navs, inputs, seen).Ok? && id in seen
    ensures !Mentions(inputs, id)
    decreases inputs
  {
    if inputs != [] {
      SeenNotMentioned(Written(p, inputs[0], Validated(shares, navs, inputs[0]).value), shares, navs, inputs[1..],
                       seen + {IdentityOf(inputs[0])}, id);
      assert forall i :: 0 < i < |inputs| ==> inputs[i] == inputs[1..][i - 1];
    }
  }

  /** The entries of a position: all kept, or all gone. */
  ghost predicate SameEntries(v: View, w: View, pid: PositionId)
  {
    && (forall key :: key in v && key.0 == pid ==> key in w && w[key] == v[key])
    && (forall key :: key in w && key.0 == pid ==> key in v)
  }

  ghost predicate NoEntries(w: View, pid: PositionId)
  {
    forall key :: key in w ==> key.0 != pid
  }

  /** Some row of the payload gives the position a snapshot other than the stored one. */
  ghost predicate ResetBy(
    p: Portfolio, shares: map<ShareCode, Share>, navs: Navs, inputs: seq<PositionInput>, pid: PositionId)
    requires pid in p.positions
  {
    exists i :: 0 <= i < |inputs| && Resets(p, shares, navs, inputs[i], pid)
  }

  ghost predicate Resets(p: Portfolio, shares: map<ShareCode, Share>, navs: Navs, input: PositionInput, pid: PositionId)
    requires pid in p.positions
  {
    var position := Validated(shares, navs, input);
    RowFor(p.positions, input, pid) && position.Ok? && position.value.snapshot != p.positions[pid].snapshot
  }

  /** A position keeps its identity and all its entries, or none of them. */
  ghost predicate KeptOrForgotten(p: Portfolio, q: Portfolio, pid: PositionId, forgotten: bool)
    requires pid in p.positions
  {
    && pid in q.positions && SamePosition(q.positions[pid], p.positions[pid])
    && if forgotten then NoEntries(q.ledger, pid) else SameEntries(p.ledger, q.ledger, pid)
  }

  ghost predicate Untouched(p: Portfolio, q: Portfolio, pid: PositionId)
    requires pid in p.positions
  {
    pid in q.positions && q.positions[pid] == p.positions[pid] && SameEntries(p.ledger, q.ledger, pid)
  }

  lemma WrittenUntouched(p: Portfolio, input: PositionInput, position: Position, pid: PositionId)
    requires WellFormed(p) && pid in p.positions && !RowFor(p.positions, input, pid)
    ensures Untouched(p, Written(p, input, position), pid)
  {
  }

  lemma WrittenRowKeptOrForgotten(p: Portfolio, input: PositionInput, position: Position, pid: PositionId)
    requires WellFormed(p) && RowFor(p.positions, input, pid)
    requires position.platform == input.platform && position.share == input.share
    ensures KeptOrForgotten(p, Written(p, input, position), pid, position.snapshot != p.positions[pid].snapshot)
  {
    hide StoredSnapshot, StoredAmounts;
    RowIsUnique(p.positions, input, pid);
  }

  /** An import never touches the positions it does not list, nor their entries. */
  lemma {:induction false} ImportUntouched(
    p: Portfolio, shares: map<ShareCode, Share>, navs: Navs, inputs: seq<PositionInput>, seen: set<Identity>,
    pid: PositionId)
    requires WellFormed(p) && pid in p.positions
    requires !Mentions(inputs, (p.positions[pid].platform, p.positions[pid].share))
    requires Imported(p, shares, navs, inputs, seen).Ok?
    ensures Untouched(p, Imported(p, shares, navs, inputs, seen).value, pid)
    decreases inputs
  {
    hide WellFormed, Validated, Written;
    if inputs != [] {
      var id := (p.positions[pid].platform, p.positions[pid].share);
      var position := Validated(shares, navs, inputs[0]).value;
      assert IdentityOf(inputs[0]) != id;
      ValidatedIdentity(shares, navs, inputs[0]);
      WrittenWellFormed(p, inputs[0], position);
      WrittenUntouched(p, inputs[0], position, pid);
      assert !Mentions(inputs[1..], id) by {
        assert forall i :: 0 <= i < |inputs[1..]| ==> inputs[1..][i] == inputs[i + 1];
      }
      ImportUntouched(Written(p, inputs[0], position), shares, navs, inputs[1..], seen + {IdentityOf(inputs[0])}, pid);
    }
  }

  /** The entries of a position are forgotten exactly when the payload gives it a snapshot that
      differs from the stored one; otherwise all are kept. */
  lemma {:induction false} ImportKeepsOrForgets(
    p: Portfolio, shares: map<ShareCode, Share>, navs: Navs, inputs: seq<PositionInput>, seen: set<Identity>,
    pid: PositionId)
    requires WellFormed(p) && pid in p.positions && Imported(p, shares, navs, inputs, seen).Ok?
    ensures KeptOrForgotten(p, Imported(p, shares, navs, inputs, seen).value, pid,
                            ResetBy(p, shares, navs, inputs, pid))
    decreases inputs
  {
    hide WellFormed, Validated, Written, StoredPosition, Resets;
    if inputs != [] {
      var position := Validated(shares, navs, inputs[0]).value;
      var w, seen' := Written(p, inputs[0], position), seen + {IdentityOf(inputs[0])};
      ValidatedIdentity(shares, navs, inputs[0]);
      WrittenWellFormed(p, inputs[0], position);
      assert forall i :: 0 < i < |inputs| ==> inputs[i] == inputs[1..][i - 1];
      if RowFor(p.positions, inputs[0], pid) {
        WrittenRowKeptOrForgotten(p, inputs[0], position, pid);
        SeenNotMentioned(w, shares, navs, inputs[1..], seen', IdentityOf(inputs[0]));
        OnlyFirstResets(p, shares, navs, inputs, pid);
        RowStays(p, inputs[0], position, pid);
        ImportUntouched(w, shares, navs, inputs[1..], seen', pid);
        assert Resets(p, shares, navs, inputs[0], pid) <==> position.snapshot != p.positions[pid].snapshot by {
          ResetsIs(p, shares, navs, inputs[0], pid);
        }
      } else {
        WrittenUntouched(p, inputs[0], position, pid);
        ImportKeepsOrForgets(w, shares, navs, inputs[1..], seen', pid);
        LaterResets(p, w, shares, navs, inputs, pid);
      }
    }
  }

  lemma ResetsIs(p: Portfolio, shares: map<ShareCode, Share>, navs: Navs, input: PositionInput, pid: PositionId)
    requires RowFor(p.positions, input, pid) && Validated(shares, navs, input).Ok?
    ensures Resets(p, shares, navs, input, pid)
       <==> Validated(shares, navs, input).value.snapshot != p.positions[pid].snapshot
  {
    hide Validated;
  }

  lemma RowStays(p: Portfolio, input: PositionInput, position: Position, pid: PositionId)
    requires WellFormed(p) && RowFor(p.positions, input, pid)
    requires position.platform == input.platform && position.share == input.share
    ensures pid in Written(p, input, position).positions && RowFor(Written(p, input, position).positions, input, pid)
  {
    RowIsUnique(p.positions, input, pid);
  }

  lemma OnlyFirstResets(
    p: Portfolio, shares: map<ShareCode, Share>, navs: Navs, inputs: seq<PositionInput>, pid: PositionId)
    requires inputs != [] && RowFor(p.positions, inputs[0], pid) && !Mentions(inputs[1..], IdentityOf(inputs[0]))
    ensures ResetBy(p, shares, navs, inputs, pid) <==> Resets(p, shares, navs, inputs[0], pid)
  {
    hide Validated;
    forall i | 0 < i < |inputs| ensures !Resets(p, shares, navs, inputs[i], pid) {
      assert inputs[i] == inputs[1..][i - 1];
    }
  }

  lemma LaterResets(
    p: Portfolio, w: Portfolio, shares: map<ShareCode, Share>, navs: Navs, inputs: seq<PositionInput>, pid: PositionId)
    requires inputs != [] && pid in p.positions && !RowFor(p.positions, inputs[0], pid) && Untouched(p, w, pid)
    ensures ResetBy(p, shares, navs, inputs, pid) <==> ResetBy(w, shares, navs, inputs[1..], pid)
  {
    hide Validated;
    assert forall i :: 0 < i < |inputs| ==> inputs[i] == inputs[1..][i - 1];
    forall i | 0 < i < |inputs|
      ensures Resets(p, shares, navs, inputs[i], pid) <==> Resets(w, shares, navs, inputs[1..][i - 1], pid)
    {
    }
  }

  // ---------- what is stored after an import ----------

  /** Every listed position is already stored as its columns hold what the payload says. */
  ghost predicate AllStored(p: Portfolio, shares: map<ShareCode, Share>, navs: Navs, inputs: seq<PositionInput>)
  {
    forall i :: 0 <= i < |inputs|
      ==> Validated(shares, navs, inputs[i]).Ok?
          && Stored(p.positions, inputs[i], Validated(shares, navs, inputs[i]).value)
  }

  /** A position already stored stays so while inputs of other identities are written. */
  lemma StoredSurvives(p: Portfolio, input: PositionInput, position: Position, other: PositionInput, stored: Position)
    requires WellFormed(p) && Stored(p.positions, other, stored) && IdentityOf(other) != IdentityOf(input)
    ensures Stored(Written(p, input, position).positions, other, stored)
  {
    var pid :| RowFor(p.positions, other, pid) && p.positions[pid] == StoredPosition(stored);
    WrittenUntouched(p, input, position, pid);
    assert RowFor(Written(p, input, position).positions, other, pid);
  }

  ghost predicate SeenStored(
    p: Portfolio, shares: map<ShareCode, Share>, navs: Navs, done: seq<PositionInput>, seen: set<Identity>)
  {
    AllStored(p, shares, navs, done) && forall i :: 0 <= i < |done| ==> IdentityOf(done[i]) in seen
  }

  lemma {:induction false} ImportStores(
    p: Portfolio, shares: map<ShareCode, Share>, navs: Navs, done: seq<PositionInput>, inputs: seq<PositionInput>,
    seen: set<Identity>)
    requires WellFormed(p) && SeenStored(p, shares, navs, done, seen)
    requires Imported(p, shares, navs, inputs, seen).Ok?
    ensures WellFormed(Imported(p, shares, navs, inputs, seen).value)
    ensures AllStored(Imported(p, shares, navs, inputs, seen).value, shares, navs, done + inputs)
    decreases inputs
  {
    hide Validated, StoredPosition;
    if inputs == [] {
      assert done + [] == done;
    } else {
      ValidatedIdentity(shares, navs, inputs[0]);
      var position := Validated(shares, navs, inputs[0]).value;
      var w, done' := Written(p, inputs[0], position), done + [inputs[0]];
      WrittenWellFormed(p, inputs[0], position);
      forall i | 0 <= i < |done'|
        ensures Validated(shares, navs, done'[i]).Ok?
        ensures Stored(w.positions, done'[i], Validated(shares, navs, done'[i]).value)
      {
        if i < |done| { StoredSurvives(p, inputs[0], position, done[i], Validated(shares, navs, done[i]).value); }
      }
      ImportStores(w, shares, navs, done', inputs[1..], seen + {IdentityOf(inputs[0])});
      assert done' + inputs[1..] == done + inputs;
    }
  }

  lemma {:induction false} ImportKeepsRows(
    p: Portfolio, shares: map<ShareCode, Share>, navs: Navs, inputs: seq<PositionInput>, seen: set<Identity>)
    requires WellFormed(p) && Imported(p, shares, navs, inputs, seen).Ok?
    requires forall i :: 0 <= i < |inputs| ==> RowId(p.positions, inputs[i]).Some?
    ensures Imported(p, shares, navs, inputs, seen).value.positions.Keys == p.positions.Keys
    decreases inputs
  {
    hide Validated, StoredPosition, WellFormed;
    if inputs != [] {
      var position := Validated(shares, navs, inputs[0]).value;
      var w := Written(p, inputs[0], position);
      ValidatedIdentity(shares, navs, inputs[0]);
      WrittenWellFormed(p, inputs[0], position);
      forall i | 0 <= i < |inputs[1..]| ensures RowId(w.positions, inputs[1..][i]).Some? {
        var pid := RowId(p.positions, inputs[i + 1]).value;
        assert RowFor(w.positions, inputs[i + 1], pid);
      }
      ImportKeepsRows(w, shares, navs, inputs[1..], seen + {IdentityOf(inputs[0])});
    }
  }

  // ---------- one payload, imported again on later NAVs ----------

  ghost predicate SameAnchor(navs: Navs, navs': Navs, share: ShareCode, date: Date)
  {
    var anchor := AnchorDate(navs, share, date);
    && AnchorDate(navs', share, date) == anchor
    && (anchor.Some? ==> navs'[(share, anchor.value)].unit == navs[(share, anchor.value)].unit)
  }

  /** The anchor stays exactly when its NAV is not revised and none has arrived between it and the
      snapshot date. */
  lemma SameAnchorIff(navs: Navs, navs': Navs, share: ShareCode, date: Date, anchor: Date)
    requires AnchorDate(navs, share, date) == Some(anchor)
    ensures SameAnchor(navs, navs', share, date)
       <==> (share, anchor) in navs' && navs'[(share, anchor)].unit == navs[(share, anchor)].unit
            && forall d :: anchor < d <= date ==> (share, d) !in navs'
  {
    assert forall d :: d in NavDates(navs', share) <==> (share, d) in navs';
    if (share, anchor) in navs' && forall d :: anchor < d <= date ==> (share, d) !in navs' {
      PredecessorIs(NavDates(navs', share), date + 1, anchor);
    }
  }

  /** On other NAVs an accepted row is accepted again if it still has an anchor, and differs in
      its anchor only. */
  lemma ValidatedAgain(shares: map<ShareCode, Share>, navs: Navs, navs': Navs, input: PositionInput)
    requires Validated(shares, navs, input).Ok?
    ensures Validated(shares, navs', input).Ok? <==> AnchorDate(navs', input.share, input.snapshotDate).Some?
    ensures Validated(shares, navs', input).Ok? ==>
      var first, again := Validated(shares, navs, input).value, Validated(shares, navs', input).value;
      && AnchorMoved(StoredPosition(first), StoredPosition(again))
      && (again.snapshot == StoredSnapshot(first.snapshot)
          <==> FitsColumns(first.snapshot) && SameAnchor(navs, navs', input.share, input.snapshotDate))
  {
    hide MoneyColumn, QuantityColumn, OnGrid, RecurringValues, AnchorDate;
    StoredAsGivenIff(Validated(shares, navs, input).value.snapshot);
  }

  ghost predicate AnchorMoved(a: Position, b: Position)
  {
    b == a.(snapshot := a.snapshot.(anchorDate := b.snapshot.anchorDate, anchorNav := b.snapshot.anchorNav))
  }

  /** The payload is accepted again exactly when every row still has an anchor; so always, when no
      NAV has been deleted. */
  lemma {:induction false} AcceptedAgainIff(
    p: Portfolio, q: Portfolio, shares: map<ShareCode, Share>, navs: Navs, navs': Navs, inputs: seq<PositionInput>,
    seen: set<Identity>)
    requires Imported(p, shares, navs, inputs, seen).Ok?
    ensures Imported(q, shares, navs', inputs, seen).Ok?
       <==> forall i :: 0 <= i < |inputs| ==> AnchorDate(navs', inputs[i].share, inputs[i].snapshotDate).Some?
    ensures navs.Keys <= navs'.Keys ==> Imported(q, shares, navs', inputs, seen).Ok?
    decreases inputs
  {
    hide Validated, Written, AnchorDate;
    if inputs != [] {
      ValidatedAgain(shares, navs, navs', inputs[0]);
      if navs.Keys <= navs'.Keys { AnchorStays(shares, navs, navs', inputs[0]); }
      assert forall i :: 0 < i < |inputs| ==> inputs[i] == inputs[1..][i - 1];
      var position := Validated(shares, navs, inputs[0]).value;
      if Validated(shares, navs', inputs[0]).Ok? {
        AcceptedAgainIff(Written(p, inputs[0], position),
                         Written(q, inputs[0], Validated(shares, navs', inputs[0]).value), shares, navs, navs',
                         inputs[1..], seen + {IdentityOf(inputs[0])});
      }
    }
  }

  lemma AnchorStays(shares: map<ShareCode, Share>, navs: Navs, navs': Navs, input: PositionInput)
    requires Validated(shares, navs, input).Ok? && navs.Keys <= navs'.Keys
    ensures AnchorDate(navs', input.share, input.snapshotDate).Some?
  {
    var anchor := AnchorDate(navs, input.share, input.snapshotDate).value;
    assert (input.share, anchor) in navs';
    PredecessorExists(NavDates(navs', input.share), input.snapshotDate + 1, anchor);
  }

  /** The row's position is not read back as the payload gives it: it has a value with more digits
      than its column, or its anchor NAV is no longer the one it was stored with. */
  ghost predicate Displaced(
    positions: map<PositionId, Position>, shares: map<ShareCode, Share>, navs: Navs, navs': Navs,
    input: PositionInput, pid: PositionId)
  {
    var position := Validated(shares, navs, input);
    && RowFor(positions, input, pid) && position.Ok?
    && !(FitsColumns(position.value.snapshot) && SameAnchor(navs, navs', input.share, input.snapshotDate))
  }

  ghost function AllDisplaced(
    positions: map<PositionId, Position>, shares: map<ShareCode, Share>, navs: Navs, navs': Navs,
    inputs: seq<PositionInput>): set<PositionId>
  {
    set pid | pid in positions
              && exists i :: 0 <= i < |inputs| && Displaced(positions, shares, navs, navs', inputs[i], pid)
  }

  ghost function ForgetAll(v: View, pids: set<PositionId>): View
  {
    map key | key in v && key.0 !in pids :: v[key]
  }

  lemma StoredRow(p: Portfolio, input: PositionInput, position: Position, pid: PositionId)
    requires WellFormed(p) && Stored(p.positions, input, position) && RowFor(p.positions, input, pid)
    ensures p.positions[pid] == StoredPosition(position)
  {
    var q :| RowFor(p.positions, input, q) && p.positions[q] == StoredPosition(position);
    assert SamePosition(p.positions[pid], p.positions[q]);
  }

  lemma ResetsIffDisplaced(
    q: Portfolio, shares: map<ShareCode, Share>, navs: Navs, navs': Navs, inputs: seq<PositionInput>, pid: PositionId)
    requires WellFormed(q) && AllStored(q, shares, navs, inputs) && pid in q.positions
    requires forall i :: 0 <= i < |inputs| ==> Validated(shares, navs', inputs[i]).Ok?
    ensures ResetBy(q, shares, navs', inputs, pid) <==> pid in AllDisplaced(q.positions, shares, navs, navs', inputs)
  {
    hide WellFormed, Validated, FitsColumns, StoredSnapshot, StoredAmounts, SameAnchor, RowFor, Stored;
    forall i | 0 <= i < |inputs|
      ensures Resets(q, shares, navs', inputs[i], pid) <==> Displaced(q.positions, shares, navs, navs', inputs[i], pid)
    {
      if RowFor(q.positions, inputs[i], pid) {
        ValidatedAgain(shares, navs, navs', inputs[i]);
        StoredRow(q, inputs[i], Validated(shares, navs, inputs[i]).value, pid);
      }
    }
  }

  lemma ForgottenExactly(q: Portfolio, r: Portfolio, gone: set<PositionId>)
    requires Owned(q.ledger, q.positions) && Owned(r.ledger, r.positions) && r.positions.Keys == q.positions.Keys
    requires forall pid :: pid in q.positions ==> KeptOrForgotten(q, r, pid, pid in gone)
    ensures r.ledger == ForgetAll(q.ledger, gone)
  {
    hide SamePosition;
    forall key | key in r.ledger ensures key in q.ledger && key.0 !in gone && r.ledger[key] == q.ledger[key] {
      assert KeptOrForgotten(q, r, key.0, key.0 in gone);
    }
    forall key | key in q.ledger && key.0 !in gone ensures key in r.ledger {
      assert KeptOrForgotten(q, r, key.0, key.0 in gone);
    }
  }

  /** The same payload again, on NAVs that have changed since: rows and values stay and only anchors
      move; of the ledger built up in between exactly the entries of displaced positions are lost. */
  lemma ReimportForgets(
    p: Portfolio, later: View, shares: map<ShareCode, Share>, navs: Navs, navs': Navs, inputs: seq<PositionInput>)
    requires WellFormed(p) && Imported(p, shares, navs, inputs, {}).Ok?
    requires Owned(later, Imported(p, shares, navs, inputs, {}).value.positions)
    requires Imported(Imported(p, shares, navs, inputs, {}).value.(ledger := later), shares, navs', inputs, {}).Ok?
    ensures var q := Imported(p, shares, navs, inputs, {}).value.(ledger := later);
            var r := Imported(q, shares, navs', inputs, {}).value;
            && r.positions.Keys == q.positions.Keys
            && (forall pid :: pid in q.positions ==> AnchorMoved(q.positions[pid], r.positions[pid]))
            && r.ledger == ForgetAll(later, AllDisplaced(q.positions, shares, navs, navs', inputs))
  {
    hide Imported, Validated, AllDisplaced, ForgetAll, ResetBy, RowFor, SamePosition, Displaced, StoredPosition;
    var q := Imported(p, shares, navs, inputs, {}).value.(ledger := later);
    var r := Imported(q, shares, navs', inputs, {}).value;
    ImportStores(p, shares, navs, [], inputs, {});
    ImportStores(q, shares, navs', [], inputs, {});
    assert [] + inputs == inputs;
    forall i | 0 <= i < |inputs| ensures RowId(q.positions, inputs[i]).Some? {
    }
    ImportKeepsRows(q, shares, navs', inputs, {});
    var gone := AllDisplaced(q.positions, shares, navs, navs', inputs);
    forall pid | pid in q.positions ensures KeptOrForgotten(q, r, pid, pid in gone) {
      ImportKeepsOrForgets(q, shares, navs', inputs, {}, pid);
      ResetsIffDisplaced(q, shares, navs, navs', inputs, pid);
    }
    ForgottenExactly(q, r, gone);
    forall pid | pid in q.positions ensures AnchorMoved(q.positions[pid], r.positions[pid]) {
      OnlyAnchorMoves(q, r, shares, navs, navs', inputs, pid);
    }
  }

  lemma OnlyAnchorMoves(
    q: Portfolio, r: Portfolio, shares: map<ShareCode, Share>, navs: Navs, navs': Navs, inputs: seq<PositionInput>,
    pid: PositionId)
    requires WellFormed(q) && WellFormed(r) && pid in q.positions && Imported(q, shares, navs', inputs, {}) == Ok(r)
    requires AllStored(q, shares, navs, inputs) && AllStored(r, shares, navs', inputs)
    ensures pid in r.positions && AnchorMoved(q.positions[pid], r.positions[pid])
  {
    hide Imported, Validated, WellFormed, StoredPosition, Stored;
    ImportKeepsOrForgets(q, shares, navs', inputs, {}, pid);
    var id := (q.positions[pid].platform, q.positions[pid].share);
    if Mentions(inputs, id) {
      var i :| 0 <= i < |inputs| && IdentityOf(inputs[i]) == id;
      StoredRow(q, inputs[i], Validated(shares, navs, inputs[i]).value, pid);
      StoredRow(r, inputs[i], Validated(shares, navs', inputs[i]).value, pid);
      ValidatedAgain(shares, navs, navs', inputs[i]);
    } else {
      ImportUntouched(q, shares, navs', inputs, {}, pid);
    }
  }

  /** So a re-import keeps the ledger exactly when every listed position with entries is given with
      no more digits than its columns hold and has kept its anchor. */
  lemma ReimportKeepsLedgerIff(
    p: Portfolio, later: View, shares: map<ShareCode, Share>, navs: Navs, navs': Navs, inputs: seq<PositionInput>)
    requires WellFormed(p) && Imported(p, shares, navs, inputs, {}).Ok?
    requires Owned(later, Imported(p, shares, navs, inputs, {}).value.positions)
    requires Imported(Imported(p, shares, navs, inputs, {}).value.(ledger := later), shares, navs', inputs, {}).Ok?
    ensures var q := Imported(p, shares, navs, inputs, {}).value.(ledger := later);
            Imported(q, shares, navs', inputs, {}).value.ledger == later
            <==> forall key, i :: key in later && 0 <= i < |inputs|
                   ==> !Displaced(q.positions, shares, navs, navs', inputs[i], key.0)
  {
    hide Imported, Displaced;
    var q := Imported(p, shares, navs, inputs, {}).value.(ledger := later);
    ReimportForgets(p, later, shares, navs, navs', inputs);
    var gone := AllDisplaced(q.positions, shares, navs, navs', inputs);
    KeptIff(later, gone);
    forall key | key in later
      ensures key.0 in gone
         <==> exists i :: 0 <= i < |inputs| && Displaced(q.positions, shares, navs, navs', inputs[i], key.0)
    {
    }
  }

  lemma KeptIff(v: View, pids: set<PositionId>)
    ensures ForgetAll(v, pids) == v <==> forall key :: key in v ==> key.0 !in pids
  {
    if key :| key in v && key.0 in pids { assert key !in ForgetAll(v, pids); }
    if forall key :: key in v ==> key.0 !in pids { assert ForgetAll(v, pids) == v; }
  }

  /** A profit of seven decimals is such a value: importing the row twice clears the ledger of its
      position, though nothing was edited and no NAV arrived. */
  lemma SevenDigitsLoseLedger(
    p: Portfolio, later: View, shares: map<ShareCode, Share>, navs: Navs, input: PositionInput, pid: PositionId)
    requires WellFormed(p) && Imported(p, shares, navs, [input], {}).Ok? && input.profit == 12.3456789
    requires Owned(later, Imported(p, shares, navs, [input], {}).value.positions)
    requires RowFor(Imported(p, shares, navs, [input], {}).value.positions, input, pid)
    ensures var q := Imported(p, shares, navs, [input], {}).value.(ledger := later);
            var again := Imported(q, shares, navs, [input], {});
            again.Ok? && forall key :: key in again.value.ledger ==> key.0 != pid
  {
    var q := Imported(p, shares, navs, [input], {}).value.(ledger := later);
    assert Validated(shares, navs, input).Ok? && Validated(shares, navs, input).value.snapshot.profit == 12.3456789;
    SevenDigits();
    assert Displaced(q.positions, shares, navs, navs, [input][0], pid) by { hide OnGrid, SameAnchor; }
    hide Imported, Validated, Displaced, StoredPosition;
    AcceptedAgainIff(p, q, shares, navs, navs, [input], {});
    ReimportForgets(p, later, shares, navs, navs, [input]);
    assert pid in AllDisplaced(q.positions, shares, navs, navs, [input]);
  }

  lemma SevenDigits()
    ensures !OnGrid(12.3456789, MONEY_SCALE)
  {
    assert Steps(12.3456789, MONEY_SCALE) == 12345678.9;
    assert 12345678.9.Floor == 12345678;
  }
}
