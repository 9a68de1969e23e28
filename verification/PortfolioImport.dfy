/** Import of a portfolio snapshot (backend/app/portfolio.py): validation, the positions it
    writes, and the ledgers that it clears because their snapshot changed.

    A payload is compared with the stored row digit by digit, but its values are rounded to the
    scale of their columns when they are written. */
module PortfolioImport {
  import opened Sums
  import opened Decimals
  import opened Calendar
  import opened LedgerModel
  import opened RecurringLedger
  import opened RecurringService

  datatype RecurringInput = RecurringInput(daily: bool, gross: real, fee: real, net: Option<real>, lag: int)

  datatype PositionInput = PositionInput(
    share: ShareCode, platform: string, snapshotDate: Date, currency: Option<string>,
    units: real, market: real, profit: real, returnPct: real, cumulative: Option<real>,
    recurring: Option<RecurringInput>, active: bool)

  datatype ImportError =
    | DuplicatePosition
    | UnknownShare
    | NoNav
    | CurrencyMismatch
    | NotPositive
    | InvalidRecurring
    | ConstraintViolated

  /** The validated recurring plan. The net amount defaults to gross / (1 + fee), in cents. */
  function RecurringValues(recurring: Option<RecurringInput>): (r: Result<Option<Plan>, ImportError>)
  {
    match recurring
    case None => Ok(None)
    case Some(plan) =>
      if !plan.daily || plan.gross <= 0.0 || plan.fee < 0.0 || plan.fee > 100.0 then Err(InvalidRecurring)
      else
        var expected := ExpectedNet(plan.gross, plan.fee);
        var net := if plan.net.Some? then plan.net.value else expected;
        if Abs(net - expected) > 0.01 || plan.lag < 0 || plan.lag > 10 then Err(InvalidRecurring)
        else Ok(Some(Plan(Amounts(plan.gross, plan.fee, net), plan.lag)))
  }

  function ExpectedNet(gross: real, fee: real): real
    requires 0.0 <= fee
  {
    Quantize(Over(gross, FeeFactor(fee)), CENTS)
  }

  /** An accepted plan's net amount is within one and a half cents of gross / (1 + fee). */
  lemma AcceptedNetIsClose(input: RecurringInput, plan: Plan)
    requires RecurringValues(Some(input)) == Ok(Some(plan))
    ensures plan.amounts.gross == input.gross > 0.0
    ensures plan.amounts.fee == input.fee && 0.0 <= input.fee <= 100.0 && 0 <= plan.lag <= 10
    ensures Abs(plan.amounts.net - Over(input.gross, FeeFactor(input.fee))) <= 0.015
  {
    hide Quantize, Over, FeeFactor;
    QuantizeError(Over(input.gross, FeeFactor(input.fee)), CENTS);
    assert FromSteps(0.5, CENTS) == 0.005;
  }

  // ---------- columns ----------

  function MoneyColumn(x: real): real
  {
    Quantize(x, MONEY_SCALE)
  }

  function QuantityColumn(x: real): real
  {
    Quantize(x, QUANTITY_SCALE)
  }

  /** A snapshot as its columns hold it. The anchor NAV comes from a column of its own. */
  function StoredSnapshot(s: Snapshot): Snapshot
  {
    s.(units := QuantityColumn(s.units), market := MoneyColumn(s.market), profit := MoneyColumn(s.profit),
       returnPct := QuantityColumn(s.returnPct),
       cumulative := if s.cumulative.Some? then Some(MoneyColumn(s.cumulative.value)) else None)
  }

  function StoredAmounts(a: Amounts): Amounts
  {
    Amounts(MoneyColumn(a.gross), QuantityColumn(a.fee), MoneyColumn(a.net))
  }

  function StoredPosition(p: Position): Position
  {
    p.(snapshot := StoredSnapshot(p.snapshot),
       plan := if p.plan.Some? then Some(Plan(StoredAmounts(p.plan.value.amounts), p.plan.value.lag)) else None)
  }

  /** The check constraints of the position table, on the values the columns hold. */
  predicate ConstraintsHold(p: Position)
  {
    && p.snapshot.units > 0.0 && p.snapshot.market > 0.0
    && (p.plan.Some? ==> p.plan.value.amounts.gross > 0.0 && p.plan.value.amounts.net > 0.0)
  }

  /** No value of the snapshot has more digits than its column. */
  ghost predicate FitsColumns(s: Snapshot)
  {
    && OnGrid(s.units, QUANTITY_SCALE) && OnGrid(s.market, MONEY_SCALE) && OnGrid(s.profit, MONEY_SCALE)
    && OnGrid(s.returnPct, QUANTITY_SCALE) && (s.cumulative.Some? ==> OnGrid(s.cumulative.value, MONEY_SCALE))
  }

  lemma ColumnKeepsIff(x: real)
    ensures MoneyColumn(x) == x <==> OnGrid(x, MONEY_SCALE)
    ensures QuantityColumn(x) == x <==> OnGrid(x, QUANTITY_SCALE)
  {
    hide Quantize, OnGrid;
    QuantizeOnGrid(x, MONEY_SCALE);
    QuantizeOnGrid(x, QUANTITY_SCALE);
  }

  /** Only a snapshot that fits its columns is read back as it was written. */
  lemma StoredAsGivenIff(s: Snapshot)
    ensures StoredSnapshot(s) == s <==> FitsColumns(s)
  {
    hide MoneyColumn, QuantityColumn, OnGrid;
    ColumnKeepsIff(s.units);
    ColumnKeepsIff(s.market);
    ColumnKeepsIff(s.profit);
    ColumnKeepsIff(s.returnPct);
    if s.cumulative.Some? { ColumnKeepsIff(s.cumulative.value); }
  }

  lemma ColumnError(x: real)
    ensures Abs(MoneyColumn(x) - x) <= 0.0000005 && Abs(QuantityColumn(x) - x) <= 0.000000005
    ensures 0.0 <= x <= 100.0 ==> 0.0 <= QuantityColumn(x) <= 100.0
  {
    QuantizeError(x, MONEY_SCALE);
    QuantizeError(x, QUANTITY_SCALE);
    assert FromSteps(0.5, MONEY_SCALE) == 0.0000005 && FromSteps(0.5, QUANTITY_SCALE) == 0.000000005;
    assert Steps(0.0, QUANTITY_SCALE) == 0.0 && Steps(100.0, QUANTITY_SCALE) == 10000000000.0;
    hide Quantize;
    QuantizeOnGrid(0.0, QUANTITY_SCALE);
    QuantizeOnGrid(100.0, QUANTITY_SCALE);
    if 0.0 <= x <= 100.0 {
      QuantizeMonotone(0.0, x, QUANTITY_SCALE);
      QuantizeMonotone(x, 100.0, QUANTITY_SCALE);
    }
  }

  lemma NetBound(g: real, n: real, g': real, n': real, u: real, v: real)
    requires g' >= 0.0 && u >= 1.0 && v >= 1.0 && Abs(v - u) <= 0.00000000005
    requires Abs(n - Over(g, u)) <= 0.015 && Abs(n' - n) <= 0.0000005 && Abs(g' - g) <= 0.0000005
    ensures Abs(n' - Over(g', v)) <= 0.015001 + g' * 0.00000000005
  {
    hide Over, Times;
    DivideStable(g, g', u, v);
    TimesBound(g', Abs(u - v), 0.00000000005);
    var a, b, slack := Over(g, u), Over(g', v), g' * 0.00000000005;
    assert Abs(a - b) <= 0.0000005 + slack;
    Triangle(n, n', a, b, slack);
  }

  lemma Triangle(n: real, n': real, a: real, b: real, slack: real)
    requires Abs(n - a) <= 0.015 && Abs(n' - n) <= 0.0000005 && Abs(a - b) <= 0.0000005 + slack
    ensures Abs(n' - b) <= 0.015001 + slack
  {
  }

  function FeeFactor(fee: real): (u: real)
    requires fee >= 0.0
    ensures u >= 1.0
  {
    1.0 + fee / 100.0
  }

  /** The stored amounts of an accepted plan still differ by the fee, up to a cent and a half, the
      rounding of the two amounts, and that of the fee rate. */
  lemma StoredNetIsClose(input: RecurringInput, plan: Plan)
    requires RecurringValues(Some(input)) == Ok(Some(plan)) && StoredAmounts(plan.amounts).gross > 0.0
    ensures var a := StoredAmounts(plan.amounts);
            && 0.0 <= a.fee <= 100.0
            && Abs(a.net - Over(a.gross, FeeFactor(a.fee))) <= 0.015001 + a.gross * 0.00000000005
  {
    AcceptedNetIsClose(input, plan);
    hide RecurringValues, MoneyColumn, QuantityColumn, Over, FeeFactor;
    var raw, a := plan.amounts, StoredAmounts(plan.amounts);
    ColumnError(raw.gross);
    ColumnError(raw.net);
    ColumnError(raw.fee);
    FactorsClose(raw.fee, a.fee);
    NetBound(raw.gross, raw.net, a.gross, a.net, FeeFactor(raw.fee), FeeFactor(a.fee));
  }

  lemma FactorsClose(fee: real, fee': real)
    requires fee >= 0.0 && fee' >= 0.0 && Abs(fee' - fee) <= 0.000000005
    ensures Abs(FeeFactor(fee') - FeeFactor(fee)) <= 0.00000000005
  {
  }

  // ---------- the anchor NAV ----------

  function NavDates(navs: Navs, share: ShareCode): set<Date>
  {
    set k | k in navs && k.0 == share :: k.1
  }

  /** The latest NAV date of a share on or before the snapshot date. */
  ghost function AnchorDate(navs: Navs, share: ShareCode, date: Date): Option<Date>
  {
    Predecessor(NavDates(navs, share), date + 1)
  }

  // ---------- specification of one position, and of a whole payload ----------

  datatype Portfolio = Portfolio(positions: map<PositionId, Position>, ledger: View, next: int)

  ghost predicate WellFormed(p: Portfolio)
  {
    && Owned(p.ledger, p.positions) && UniquePositions(p.positions)
    && forall pid :: pid in p.positions ==> pid < p.next
  }

  predicate RowFor(positions: map<PositionId, Position>, input: PositionInput, pid: PositionId)
  {
    pid in positions && positions[pid].platform == input.platform && positions[pid].share == input.share
  }

  /** The position a payload row asks for, digit by digit, if it is accepted. */
  ghost function Validated(
    shares: map<ShareCode, Share>, navs: Navs, input: PositionInput): Result<Position, ImportError>
  {
    if input.share !in shares then Err(UnknownShare)
    else
      var anchor := AnchorDate(navs, input.share, input.snapshotDate);
      if anchor.None? then Err(NoNav)
      else if input.currency.Some? && input.currency.value != shares[input.share].currency then Err(CurrencyMismatch)
      else if input.units <= 0.0 || input.market <= 0.0 then Err(NotPositive)
      else
        var plan := RecurringValues(input.recurring);
        if plan.Err? then Err(plan.error)
        else
          var p := Position(input.platform, input.share,
                            Snapshot(input.snapshotDate, input.units, input.market, input.profit, input.returnPct,
                                     input.cumulative, anchor.value, navs[(input.share, anchor.value)].unit),
                            plan.value, input.active);
          if ConstraintsHold(StoredPosition(p)) then Ok(p) else Err(ConstraintViolated)
  }

  /** The stored row of an input, if there is one. */
  ghost function RowId(positions: map<PositionId, Position>, input: PositionInput): (r: Option<PositionId>)
    ensures r.Some? ==> RowFor(positions, input, r.value)
    ensures r.None? ==> forall pid :: !RowFor(positions, input, pid)
  {
    if pid :| RowFor(positions, input, pid) then Some(pid) else None
  }

  /** Writes one validated position as its columns hold it; a snapshot that differs from the stored
      one forgets the position's ledger. */
  ghost function Written(p: Portfolio, input: PositionInput, position: Position): Portfolio
  {
    match RowId(p.positions, input)
    case Some(pid) =>
      Portfolio(p.positions[pid := StoredPosition(position)],
                if p.positions[pid].snapshot != position.snapshot then Forget(p.ledger, pid) else p.ledger, p.next)
    case None =>
      Portfolio(p.positions[p.next := StoredPosition(position)], p.ledger, p.next + 1)
  }

  type Identity = (string, ShareCode)

  function IdentityOf(input: PositionInput): Identity { (input.platform, input.share) }

  ghost function Imported(
    p: Portfolio, shares: map<ShareCode, Share>, navs: Navs, inputs: seq<PositionInput>, seen: set<Identity>)
    : Result<Portfolio, ImportError>
    decreases inputs
  {
    if inputs == [] then Ok(p)
    else if IdentityOf(inputs[0]) in seen then Err(DuplicatePosition)
    else
      var position := Validated(shares, navs, inputs[0]);
      if position.Err? then Err(position.error)
      else Imported(Written(p, inputs[0], position.value), shares, navs, inputs[1..], seen + {IdentityOf(inputs[0])})
  }

  // ---------- what an import keeps ----------

  lemma RowIsUnique(positions: map<PositionId, Position>, input: PositionInput, pid: PositionId)
    requires UniquePositions(positions) && RowFor(positions, input, pid)
    ensures RowId(positions, input) == Some(pid)
  {
    var q := RowId(positions, input).value;
    assert SamePosition(positions[pid], positions[q]);
  }

  ghost predicate Stored(positions: map<PositionId, Position>, input: PositionInput, position: Position)
  {
    exists pid :: RowFor(positions, input, pid) && positions[pid] == StoredPosition(position)
  }

  lemma WrittenWellFormed(p: Portfolio, input: PositionInput, position: Position)
    requires WellFormed(p) && position.platform == input.platform && position.share == input.share
    ensures WellFormed(Written(p, input, position))
    ensures Stored(Written(p, input, position).positions, input, position)
  {
    hide StoredSnapshot, StoredAmounts;
    var w := Written(p, input, position);
    var pid := if RowId(p.positions, input).Some? then RowId(p.positions, input).value else p.next;
    assert RowFor(w.positions, input, pid) && w.positions[pid] == StoredPosition(position);
    forall z | z in p.positions && z != pid ensures !RowFor(p.positions, input, z) {
      if RowId(p.positions, input).Some? { assert SamePosition(p.positions[z], p.positions[pid]) ==> z == pid; }
    }
    forall x, y | x in w.positions && y in w.positions && SamePosition(w.positions[x], w.positions[y]) ensures x == y {
      if x != pid && y != pid { assert SamePosition(p.positions[x], p.positions[y]); }
    }
  }

  lemma ValidatedIdentity(shares: map<ShareCode, Share>, navs: Navs, input: PositionInput)
    requires Validated(shares, navs, input).Ok?
    ensures Validated(shares, navs, input).value.platform == input.platform
    ensures Validated(shares, navs, input).value.share == input.share
  {
  }

  // ---------- the import over the tables ----------

  lemma TableClear(orders: Orders, executions: Executions, nextOrder: int, nextExecution: int, v: View, pid: PositionId)
    requires Tables(orders, executions, nextOrder, nextExecution, v)
    ensures Tables(map i | i in orders && orders[i].position != pid :: orders[i],
                   map e | e in executions && executions[e].position != pid :: executions[e],
                   nextOrder, nextExecution, Forget(v, pid))
  {
    hide Consistent, Contents;
    ClearPosition(orders, executions, pid,
                  map i | i in orders && orders[i].position != pid :: orders[i],
                  map e | e in executions && executions[e].position != pid :: executions[e]);
  }

  method FindRow(positions: map<PositionId, Position>, input: PositionInput) returns (r: Option<PositionId>)
    requires UniquePositions(positions)
    ensures r == RowId(positions, input)
  {
    if pid :| pid in positions && RowFor(positions, input, pid) {
      RowIsUnique(positions, input, pid);
      return Some(pid);
    }
    return None;
  }

  method Validate(
    shares: map<ShareCode, Share>, navs: Navs, input: PositionInput) returns (r: Result<Position, ImportError>)
    ensures r == Validated(shares, navs, input)
  {
    if input.share !in shares {
      return Err(UnknownShare);
    }
    var anchor := FindPredecessor(NavDates(navs, input.share), input.snapshotDate + 1);
    if anchor.None? {
      return Err(NoNav);
    }
    if input.currency.Some? && input.currency.value != shares[input.share].currency {
      return Err(CurrencyMismatch);
    }
    if input.units <= 0.0 || input.market <= 0.0 {
      return Err(NotPositive);
    }
    var plan := RecurringValues(input.recurring);
    if plan.Err? {
      return Err(plan.error);
    }
    var snapshot := Snapshot(input.snapshotDate, input.units, input.market, input.profit, input.returnPct,
                             input.cumulative, anchor.value, navs[(input.share, anchor.value)].unit);
    var position := Position(input.platform, input.share, snapshot, plan.value, input.active);
    if !ConstraintsHold(StoredPosition(position)) {
      return Err(ConstraintViolated);
    }
    r := Ok(position);
  }

  /** All or nothing: an error anywhere in the payload leaves every table as it was. */
  method ImportPortfolio(store: LedgerStore, inputs: seq<PositionInput>) returns (r: Result<nat, ImportError>)
    requires store.Valid()
    modifies store
    ensures store.Valid() && store.shares == old(store.shares) && store.navs == old(store.navs)
    ensures var before := Portfolio(old(store.positions), old(store.ledger), old(store.nextPosition));
            var result := Imported(before, store.shares, store.navs, inputs, {});
            var after := Portfolio(store.positions, store.ledger, store.nextPosition);
            match r
            case Err(error) => result == Err(error) && after == before
            case Ok(written) => result == Ok(after) && written == |inputs|
  {
    hide Tables, Owned, UniquePositions, Imported, Validated, Written, Forget, StoredPosition;
    var positions, next := store.positions, store.nextPosition;
    var orders, executions := store.orders, store.executions;
    var seen: set<Identity> := {};
    ghost var p := Portfolio(positions, store.ledger, next);
    ghost var result := Imported(p, store.shares, store.navs, inputs, {});
    assert inputs[0..] == inputs;
    for i := 0 to |inputs|
      invariant unchanged(store)
      invariant Portfolio(positions, p.ledger, next) == p && WellFormed(p)
      invariant Tables(orders, executions, store.nextOrder, store.nextExecution, p.ledger)
      invariant Imported(p, store.shares, store.navs, inputs[i..], seen) == result
    {
      var input := inputs[i];
      ImportStep(p, store.shares, store.navs, inputs, i, seen);
      if IdentityOf(input) in seen {
        return Err(DuplicatePosition);
      }
      seen := seen + {IdentityOf(input)};
      var position := Validate(store.shares, store.navs, input);
      if position.Err? {
        return Err(position.error);
      }
      var row := FindRow(positions, input);
      WrittenIs(p, input, position.value);
      if row.Some? {
        if positions[row.value].snapshot != position.value.snapshot {
          TableClear(orders, executions, store.nextOrder, store.nextExecution, p.ledger, row.value);
          executions := map e | e in executions && executions[e].position != row.value :: executions[e];
          orders := map o | o in orders && orders[o].position != row.value :: orders[o];
        }
        positions := positions[row.value := StoredPosition(position.value)];
      } else {
        positions := positions[next := StoredPosition(position.value)];
        next := next + 1;
      }
      p := Written(p, input, position.value);
    }
    ImportEnds(p, store.shares, store.navs, inputs, seen);
    store.positions, store.nextPosition, store.ledger := positions, next, p.ledger;
    store.orders, store.executions := orders, executions;
    r := Ok(|inputs|);
  }

  lemma ImportStep(
    p: Portfolio, shares: map<ShareCode, Share>, navs: Navs, inputs: seq<PositionInput>, i: nat, seen: set<Identity>)
    requires i < |inputs| && WellFormed(p)
    ensures var input := inputs[i];
            var position := Validated(shares, navs, input);
            Imported(p, shares, navs, inputs[i..], seen)
            == if IdentityOf(input) in seen then Err(DuplicatePosition)
               else if position.Err? then Err(position.error)
               else Imported(Written(p, input, position.value), shares, navs, inputs[i + 1..],
                             seen + {IdentityOf(input)})
    ensures Validated(shares, navs, inputs[i]).Ok?
        ==> WellFormed(Written(p, inputs[i], Validated(shares, navs, inputs[i]).value))
  {
    assert inputs[i..][1..] == inputs[i + 1..];
    if Validated(shares, navs, inputs[i]).Ok? {
      WrittenWellFormed(p, inputs[i], Validated(shares, navs, inputs[i]).value);
    }
  }

  lemma ImportEnds(
    p: Portfolio, shares: map<ShareCode, Share>, navs: Navs, inputs: seq<PositionInput>, seen: set<Identity>)
    ensures Imported(p, shares, navs, inputs[|inputs|..], seen) == Ok(p)
  {
  }

  lemma WrittenIs(p: Portfolio, input: PositionInput, position: Position)
    ensures Written(p, input, position)
         == match RowId(p.positions, input)
            case Some(pid) =>
              Portfolio(p.positions[pid := StoredPosition(position)],
                        if p.positions[pid].snapshot != position.snapshot then Forget(p.ledger, pid) else p.ledger,
                        p.next)
            case None =>
              Portfolio(p.positions[p.next := StoredPosition(position)], p.ledger, p.next + 1)
  {
  }
}
