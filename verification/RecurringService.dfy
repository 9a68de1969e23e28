/** The service functions that create, check and settle recurring orders, over the tables. */
module RecurringService {
  import opened Sums
  import opened Calendar
  import opened LedgerModel
  import opened RecurringLedger

  datatype CreationResult = CreationResult(ordersCreated: nat, positionsOrdered: nat, orderDate: Date)

  datatype SettlementError = UnitsNotPositive

  datatype SettlementResult = SettlementResult(
    ordersSettled: nat, executionsWritten: nat, positionsUpdated: nat, latestNavDate: Option<Date>)

  lemma {:induction false} LeastExists(s: set<int>) returns (m: int)
    requires s != {}
    ensures m in s && forall y :: y in s ==> m <= y
    decreases |s|
  {
    var x := Pick(s);
    m := x;
    if s - {x} != {} {
      var n := LeastExists(s - {x});
      m := if x < n then x else n;
    }
    assert forall y :: y in s ==> y == x || y in s - {x};
  }

  /** Orders by date, then by id. */
  predicate Earlier(orders: Orders, i: int, j: int)
    requires i in orders && j in orders
  {
    orders[i].date < orders[j].date || (orders[i].date == orders[j].date && i <= j)
  }

  lemma {:induction false} EarliestExists(orders: Orders, s: set<int>) returns (m: int)
    requires s != {} && forall i :: i in s ==> i in orders
    ensures m in s && forall j :: j in s ==> Earlier(orders, m, j)
    decreases |s|
  {
    var x := Pick(s);
    m := x;
    if s - {x} != {} {
      var n := EarliestExists(orders, s - {x});
      m := if Earlier(orders, x, n) then x else n;
    }
    assert forall y :: y in s ==> y == x || y in s - {x};
  }

  predicate ForKey(e: Execution, key: Key)
  {
    e.position == key.0 && e.navDate == key.1
  }

  function OrElse(found: Option<int>, fallback: int): int
  {
    match found case Some(x) => x case None => fallback
  }

  /** The latest of the dates of the given keys. */
  ghost predicate IsLatest(latest: Option<Date>, keys: set<Key>)
  {
    && (latest.None? <==> keys == {})
    && (latest.Some? ==> exists key :: key in keys && key.1 == latest.value)
    && (latest.Some? ==> forall key :: key in keys ==> key.1 <= latest.value)
  }

  ghost function PositionsOf(keys: set<Key>): set<PositionId>
  {
    set key | key in keys :: key.0
  }

  /** The tables between two writes of one transaction. */
  ghost predicate Tables(orders: Orders, executions: Executions, nextOrder: int, nextExecution: int, v: View)
  {
    && Consistent(orders, executions)
    && Contents(orders, executions) == v
    && (forall i :: i in orders ==> i < nextOrder)
    && (forall e :: e in executions ==> e < nextExecution)
  }

  lemma EmptyTables()
    ensures Tables(map[], map[], 0, 0, map[])
  {
  }

  // ---------- creating one order ----------

  lemma NothingOrdered(v: View, ctx: Context, date: Date)
    ensures WithOrders(v, ctx, {}, date) == v
  {
  }

  lemma OrderPresent(v: View, ctx: Context, done: set<PositionId>, date: Date, pid: PositionId)
    requires HavePlans(ctx, done + {pid}) && (pid, date) in WithOrders(v, ctx, done, date)
    ensures WithOrders(v, ctx, done + {pid}, date) == WithOrders(v, ctx, done, date)
  {
    assert KeysOn(done + {pid}, date) == KeysOn(done, date) + {(pid, date)};
    assert v.Keys + KeysOn(done + {pid}, date) == v.Keys + KeysOn(done, date);
  }

  lemma OrderAdded(v: View, ctx: Context, done: set<PositionId>, date: Date, pid: PositionId)
    requires HavePlans(ctx, done + {pid}) && pid !in done && (pid, date) !in v
    ensures (pid, date) !in WithOrders(v, ctx, done, date)
    ensures WithOrders(v, ctx, done + {pid}, date)
         == WithOrders(v, ctx, done, date)[(pid, date) := NewEntry(ctx, (pid, date))]
  {
    hide NewEntry;
    assert KeysOn(done + {pid}, date) == KeysOn(done, date) + {(pid, date)};
  }

  lemma OrderCounted(v: View, w: View, key: Key, entry: Entry)
    requires key !in v && key !in w
    ensures |w[key := entry].Keys - v.Keys| == |w.Keys - v.Keys| + 1
  {
    assert w[key := entry].Keys - v.Keys == (w.Keys - v.Keys) + {key};
  }

  lemma TableInsert(orders: Orders, executions: Executions, nextOrder: int, nextExecution: int, v: View, o: Order)
    requires Tables(orders, executions, nextOrder, nextExecution, v)
    requires KeyOf(o) !in v && o.status == PENDING && o.execution == None
    ensures Tables(orders[nextOrder := o], executions, nextOrder + 1, nextExecution,
                   v[KeyOf(o) := Waiting(o.amounts, o.expected)])
  {
    hide Consistent, Contents;
    InsertOrder(orders, executions, nextOrder, o);
  }

  /** Positions in `done` have their order, `created` of them are new. */
  ghost predicate Ordered(
    orders: Orders, executions: Executions, nextOrder: int, nextExecution: int,
    v: View, ctx: Context, done: set<PositionId>, date: Date, created: nat)
  {
    && HavePlans(ctx, done)
    && Tables(orders, executions, nextOrder, nextExecution, WithOrders(v, ctx, done, date))
    && created == |WithOrders(v, ctx, done, date).Keys - v.Keys|
  }

  /** The creating loop: positions no longer in `rest` are done. */
  ghost predicate Ordering(
    orders: Orders, executions: Executions, nextOrder: int, nextExecution: int,
    v: View, ctx: Context, planned: set<PositionId>, rest: set<PositionId>, date: Date, created: nat)
  {
    && HavePlans(ctx, planned)
    && Ordered(orders, executions, nextOrder, nextExecution, v, ctx, planned - rest, date, created)
  }

  lemma OrderingStarts(
    orders: Orders, executions: Executions, nextOrder: int, nextExecution: int,
    v: View, ctx: Context, planned: set<PositionId>, date: Date, existing: set<PositionId>)
    requires HavePlans(ctx, planned) && Tables(orders, executions, nextOrder, nextExecution, v)
    requires existing == set i | i in orders && orders[i].position in planned && orders[i].date == date
                         :: orders[i].position
    ensures forall pid :: pid in planned ==> (pid in existing <==> (pid, date) in v)
    ensures Ordering(orders, executions, nextOrder, nextExecution, v, ctx, planned, planned, date, 0)
  {
    hide Consistent, Contents;
    ExistingPositions(orders, executions, planned, date, existing);
    NothingOrdered(v, ctx, date);
    assert planned - planned == {} && v.Keys - v.Keys == {};
  }

  lemma OrderingSkips(
    orders: Orders, executions: Executions, nextOrder: int, nextExecution: int,
    v: View, ctx: Context, planned: set<PositionId>, rest: set<PositionId>, date: Date, created: nat, pid: PositionId)
    requires HavePlans(ctx, planned)
    requires Ordering(orders, executions, nextOrder, nextExecution, v, ctx, planned, rest, date, created)
    requires rest <= planned && pid in rest && (pid, date) in v
    ensures Ordering(orders, executions, nextOrder, nextExecution, v, ctx, planned, rest - {pid}, date, created)
  {
    hide Tables;
    assert planned - (rest - {pid}) == (planned - rest) + {pid};
    OrderPresent(v, ctx, planned - rest, date, pid);
  }

  lemma OrderingAdds(
    orders: Orders, executions: Executions, nextOrder: int, nextExecution: int,
    v: View, ctx: Context, planned: set<PositionId>, rest: set<PositionId>, date: Date, created: nat, pid: PositionId)
    requires HavePlans(ctx, planned)
    requires Ordering(orders, executions, nextOrder, nextExecution, v, ctx, planned, rest, date, created)
    requires rest <= planned && pid in rest && (pid, date) !in v
    ensures var plan := ctx.positions[pid].plan.value;
            Ordering(orders[nextOrder := Order(pid, date, WeekdaysAfter(date, plan.lag), PENDING, plan.amounts, None)],
                     executions, nextOrder + 1, nextExecution, v, ctx, planned, rest - {pid}, date, created + 1)
  {
    hide Ordered, WeekdaysAfter;
    assert planned - (rest - {pid}) == (planned - rest) + {pid};
    OrderedAdds(orders, executions, nextOrder, nextExecution, v, ctx, planned - rest, date, created, pid);
  }

  lemma OrderedAdds(
    orders: Orders, executions: Executions, nextOrder: int, nextExecution: int,
    v: View, ctx: Context, done: set<PositionId>, date: Date, created: nat, pid: PositionId)
    requires HavePlans(ctx, done + {pid}) && pid !in done && (pid, date) !in v
    requires Ordered(orders, executions, nextOrder, nextExecution, v, ctx, done, date, created)
    ensures pid in ctx.positions && ctx.positions[pid].plan.Some?
    ensures var plan := ctx.positions[pid].plan.value;
            Ordered(orders[nextOrder := Order(pid, date, WeekdaysAfter(date, plan.lag), PENDING, plan.amounts, None)],
                    executions, nextOrder + 1, nextExecution, v, ctx, done + {pid}, date, created + 1)
  {
    assert pid in done + {pid};
    assert pid in ctx.positions && ctx.positions[pid].plan.Some?;
    hide Tables, WithOrders, WeekdaysAfter, NewEntry, HavePlans;
    OrderAdded(v, ctx, done, date, pid);
    OrderCounted(v, WithOrders(v, ctx, done, date), (pid, date), NewEntry(ctx, (pid, date)));
    InsertPlanned(orders, executions, nextOrder, nextExecution, WithOrders(v, ctx, done, date), ctx, pid, date);
  }

  lemma InsertPlanned(
    orders: Orders, executions: Executions, nextOrder: int, nextExecution: int, v: View, ctx: Context, pid: PositionId,
    date: Date)
    requires Tables(orders, executions, nextOrder, nextExecution, v) && (pid, date) !in v
    requires pid in ctx.positions && ctx.positions[pid].plan.Some?
    ensures var plan := ctx.positions[pid].plan.value;
            Tables(orders[nextOrder := Order(pid, date, WeekdaysAfter(date, plan.lag), PENDING, plan.amounts, None)],
                   executions, nextOrder + 1, nextExecution, v[(pid, date) := NewEntry(ctx, (pid, date))])
  {
    hide Tables, WeekdaysAfter;
    var plan := ctx.positions[pid].plan.value;
    TableInsert(orders, executions, nextOrder, nextExecution, v,
                Order(pid, date, WeekdaysAfter(date, plan.lag), PENDING, plan.amounts, None));
  }

  lemma OrderingEnds(
    orders: Orders, executions: Executions, nextOrder: int, nextExecution: int,
    v: View, ctx: Context, planned: set<PositionId>, date: Date, created: nat)
    requires HavePlans(ctx, planned)
    requires Ordering(orders, executions, nextOrder, nextExecution, v, ctx, planned, {}, date, created)
    ensures Tables(orders, executions, nextOrder, nextExecution, WithOrders(v, ctx, planned, date))
    ensures created == |WithOrders(v, ctx, planned, date).Keys - v.Keys|
  {
    assert planned - {} == planned;
  }

  /** The positions that already have an order on that date, as the first query finds them. */
  lemma ExistingPositions(
    orders: Orders, executions: Executions, planned: set<PositionId>, date: Date, existing: set<PositionId>)
    requires Consistent(orders, executions)
    requires existing == set i | i in orders && orders[i].position in planned && orders[i].date == date
                         :: orders[i].position
    ensures forall pid :: pid in planned ==> (pid in existing <==> (pid, date) in Contents(orders, executions))
  {
    forall pid | pid in planned ensures pid in existing <==> (pid, date) in Contents(orders, executions) {
      if (pid, date) in Contents(orders, executions) {
        var i := ContentsFrom(orders, executions, (pid, date));
      }
      if pid in existing {
        var i :| i in orders && orders[i].position == pid && orders[i].date == date;
        ContentsAt(orders, executions, i);
      }
    }
  }

  // ---------- settling one order ----------

  /** Orders still to visit: all wait and may settle, and none that could settle is missing. */
  ghost predicate Worklist(orders: Orders, ctx: Context, navs: Navs, codes: set<FundCode>, rest: set<int>)
  {
    && (forall i :: i in rest ==> i in orders && IsOpen(orders[i], ctx, codes))
    && (forall i :: i in orders && IsOpen(orders[i], ctx, codes) && HasNav(ctx, navs, KeyOf(orders[i])) ==> i in rest)
  }

  predicate IsOpen(o: Order, ctx: Context, codes: set<FundCode>)
  {
    o.status == PENDING && InFunds(ctx, o.position, codes) && IsActive(ctx, o.position)
  }

  lemma NothingSettled(v: View, ctx: Context, navs: Navs)
    ensures SettleKeys(v, ctx, navs, {}) == v
  {
  }

  lemma OneMoreSettled(v: View, ctx: Context, navs: Navs, done: set<Key>, key: Key)
    requires NavsKnown(ctx, navs, done + {key}) && key in v && key !in done
    ensures SettleKeys(v, ctx, navs, done)[key] == v[key]
    ensures SettleKeys(v, ctx, navs, done + {key})
         == SettleKeys(v, ctx, navs, done)[key := SettleEntry(ctx, navs, key, v[key])]
  {
    hide SettleEntry;
  }

  /** The entry of an order that still waits. */
  lemma OpenEntry(orders: Orders, executions: Executions, i: int)
    requires Consistent(orders, executions) && i in orders && orders[i].status == PENDING
    ensures KeyOf(orders[i]) in Contents(orders, executions)
    ensures Contents(orders, executions)[KeyOf(orders[i])] == Waiting(orders[i].amounts, orders[i].expected)
  {
    ContentsAt(orders, executions, i);
    assert OrderSound(orders[i], executions);
  }

  lemma OpenIsRipe(
    orders: Orders, executions: Executions, v: View, ctx: Context, navs: Navs, codes: set<FundCode>, done: set<Key>,
    i: int)
    requires Consistent(orders, executions) && NavsKnown(ctx, navs, done)
    requires Contents(orders, executions) == SettleKeys(v, ctx, navs, done)
    requires i in orders && IsOpen(orders[i], ctx, codes) && HasNav(ctx, navs, KeyOf(orders[i]))
    ensures KeyOf(orders[i]) !in done && IsRipe(v, ctx, navs, codes, KeyOf(orders[i]))
    ensures v[KeyOf(orders[i])] == Waiting(orders[i].amounts, orders[i].expected)
  {
    hide Consistent, Contents, UnitsFor;
    OpenEntry(orders, executions, i);
  }

  lemma AllRipeDone(
    orders: Orders, executions: Executions, v: View, ctx: Context, navs: Navs, codes: set<FundCode>, done: set<Key>)
    requires Consistent(orders, executions) && NavsKnown(ctx, navs, done)
    requires Contents(orders, executions) == SettleKeys(v, ctx, navs, done)
    requires Worklist(orders, ctx, navs, codes, {}) && done <= Ripe(v, ctx, navs, codes)
    ensures done == Ripe(v, ctx, navs, codes)
  {
    forall key | key in Ripe(v, ctx, navs, codes) ensures key in done {
      var i := ContentsFrom(orders, executions, key);
      ContentsAt(orders, executions, i);
      assert OrderSound(orders[i], executions);
    }
  }

  lemma TableSettle(
    orders: Orders, executions: Executions, nextOrder: int, nextExecution: int, v: View, i: int, x: Execution)
    requires Tables(orders, executions, nextOrder, nextExecution, v)
    requires i in orders && orders[i].status == PENDING && Matches(orders[i], x)
    ensures Tables(orders[i := orders[i].(status := SETTLED, execution := Some(nextExecution))],
                   executions[nextExecution := x], nextOrder, nextExecution + 1,
                   v[KeyOf(orders[i]) := Settled(orders[i].amounts, orders[i].expected, x.nav, x.units)])
  {
    hide Consistent, Contents, Matches;
    var orders' := orders[i := orders[i].(status := SETTLED, execution := Some(nextExecution))];
    SettleOrder(orders, executions, i, nextExecution, x, orders', executions[nextExecution := x]);
  }

  lemma WorklistAfter(orders: Orders, ctx: Context, navs: Navs, codes: set<FundCode>, rest: set<int>, i: int, e: int)
    requires Worklist(orders, ctx, navs, codes, rest) && i in rest
    ensures Worklist(orders[i := orders[i].(status := SETTLED, execution := Some(e))], ctx, navs, codes, rest - {i})
  {
  }

  ghost predicate AllOpen(orders: Orders, ctx: Context, codes: set<FundCode>, rest: set<int>)
  {
    forall i :: i in rest ==> i in orders && IsOpen(orders[i], ctx, codes)
  }

  /** The settling loop: `done` keys are settled exactly as specified, `rest` is to be visited. */
  ghost predicate Progress(
    orders: Orders, executions: Executions, nextOrder: int, nextExecution: int,
    v: View, ctx: Context, navs: Navs, codes: set<FundCode>, rest: set<int>, done: set<Key>)
  {
    && done <= Ripe(v, ctx, navs, codes) && NavsKnown(ctx, navs, done)
    && Tables(orders, executions, nextOrder, nextExecution, SettleKeys(v, ctx, navs, done))
    && Worklist(orders, ctx, navs, codes, rest)
  }

  lemma ProgressStarts(
    orders: Orders, executions: Executions, nextOrder: int, nextExecution: int,
    v: View, ctx: Context, navs: Navs, codes: set<FundCode>, rest: set<int>)
    requires Tables(orders, executions, nextOrder, nextExecution, v)
    requires rest == set i | i in orders && IsOpen(orders[i], ctx, codes)
    ensures Progress(orders, executions, nextOrder, nextExecution, v, ctx, navs, codes, rest, {})
    ensures PositionsOf({}) == {} && IsLatest(None, {})
  {
    hide Consistent, Contents;
    NothingSettled(v, ctx, navs);
  }

  lemma ProgressSkips(
    orders: Orders, executions: Executions, nextOrder: int, nextExecution: int,
    v: View, ctx: Context, navs: Navs, codes: set<FundCode>, rest: set<int>, done: set<Key>, i: int)
    requires Progress(orders, executions, nextOrder, nextExecution, v, ctx, navs, codes, rest, done)
    requires i in rest && i in orders && !HasNav(ctx, navs, KeyOf(orders[i]))
    ensures Progress(orders, executions, nextOrder, nextExecution, v, ctx, navs, codes, rest - {i}, done)
  {
    hide Consistent, Contents, SettleKeys, Ripe;
  }

  lemma ProgressSettles(
    orders: Orders, executions: Executions, nextOrder: int, nextExecution: int,
    v: View, ctx: Context, navs: Navs, codes: set<FundCode>, rest: set<int>, done: set<Key>, i: int, found: Option<int>)
    requires Progress(orders, executions, nextOrder, nextExecution, v, ctx, navs, codes, rest, done)
    requires i in rest && i in orders && HasNav(ctx, navs, KeyOf(orders[i]))
    requires found.Some? ==> found.value in executions && ForKey(executions[found.value], KeyOf(orders[i]))
    ensures found.None?
    ensures var o, key := orders[i], KeyOf(orders[i]);
            var nav := NavFor(ctx, navs, key);
            && key !in done && IsRipe(v, ctx, navs, codes, key) && v[key].amounts == o.amounts
            && PositionsOf(done + {key}) == PositionsOf(done) + {o.position}
            && Progress(orders[i := o.(status := SETTLED, execution := Some(nextExecution))],
                        executions[nextExecution := Execution(o.position, o.date, nav, o.amounts,
                                                              UnitsFor(o.amounts.net, nav))],
                        nextOrder, nextExecution + 1, v, ctx, navs, codes, rest - {i}, done + {key})
  {
    hide Consistent, Contents, UnitsFor, SettleKeys;
    var o, key := orders[i], KeyOf(orders[i]);
    var nav := NavFor(ctx, navs, key);
    if found.Some? { NoStrayExecution(orders, executions, i, found.value); }
    OpenIsRipe(orders, executions, v, ctx, navs, codes, done, i);
    OneMoreSettled(v, ctx, navs, done, key);
    WorklistAfter(orders, ctx, navs, codes, rest, i, nextExecution);
    TableSettle(orders, executions, nextOrder, nextExecution, SettleKeys(v, ctx, navs, done), i,
                Execution(o.position, o.date, nav, o.amounts, UnitsFor(o.amounts.net, nav)));
  }

  lemma ProgressEnds(
    orders: Orders, executions: Executions, nextOrder: int, nextExecution: int,
    v: View, ctx: Context, navs: Navs, codes: set<FundCode>, done: set<Key>)
    requires Progress(orders, executions, nextOrder, nextExecution, v, ctx, navs, codes, {}, done)
    ensures done == Ripe(v, ctx, navs, codes)
    ensures Tables(orders, executions, nextOrder, nextExecution, Settle(v, ctx, navs, codes))
  {
    hide Consistent, Contents;
    AllRipeDone(orders, executions, v, ctx, navs, codes, done);
  }

  lemma LatestAfter(latest: Option<Date>, keys: set<Key>, key: Key)
    requires IsLatest(latest, keys)
    ensures IsLatest(if latest.None? || key.1 > latest.value then Some(key.1) else latest, keys + {key})
  {
    assert key in keys + {key};
    if latest.Some? {
      var k :| k in keys && k.1 == latest.value;
      assert k in keys + {key};
    }
  }

  // ---------- ownership, and the check for work ----------

  ghost predicate Owned(v: View, positions: map<PositionId, Position>)
  {
    forall key :: key in v ==> key.0 in positions
  }

  /** One position per platform and share. */
  ghost predicate UniquePositions(positions: map<PositionId, Position>)
  {
    forall p, q :: p in positions && q in positions && SamePosition(positions[p], positions[q]) ==> p == q
  }

  predicate SamePosition(p: Position, q: Position)
  {
    p.platform == q.platform && p.share == q.share
  }

  lemma CreatedOwned(v: View, ctx: Context, pids: set<PositionId>, date: Date)
    requires Owned(v, ctx.positions) && HavePlans(ctx, pids)
    ensures Owned(WithOrders(v, ctx, pids, date), ctx.positions)
  {
  }

  lemma SettledOwned(v: View, ctx: Context, navs: Navs, codes: set<FundCode>)
    requires Owned(v, ctx.positions)
    ensures Owned(Settle(v, ctx, navs, codes), ctx.positions)
  {
  }

  /** The join of the check: a waiting order of a listed fund, with a NAV on its own date. */
  predicate SettleableOrder(o: Order, ctx: Context, navs: Navs, codes: set<FundCode>)
  {
    o.status == PENDING && InFunds(ctx, o.position, codes) && HasNav(ctx, navs, KeyOf(o))
  }

  lemma SettleableOrders(orders: Orders, executions: Executions, ctx: Context, navs: Navs, codes: set<FundCode>)
    requires Consistent(orders, executions)
    ensures (exists i :: i in orders && SettleableOrder(orders[i], ctx, navs, codes))
       <==> var v := Contents(orders, executions);
            exists key :: key in v && v[key].Waiting? && InFunds(ctx, key.0, codes) && HasNav(ctx, navs, key)
  {
    var v := Contents(orders, executions);
    if i :| i in orders && SettleableOrder(orders[i], ctx, navs, codes) {
      OpenEntry(orders, executions, i);
      assert v[KeyOf(orders[i])].Waiting?;
    }
    if key :| key in v && v[key].Waiting? && InFunds(ctx, key.0, codes) && HasNav(ctx, navs, key) {
      var i := ContentsFrom(orders, executions, key);
      ContentsAt(orders, executions, i);
      assert OrderSound(orders[i], executions);
      assert SettleableOrder(orders[i], ctx, navs, codes);
    }
  }

  class LedgerStore {
    var positions: map<PositionId, Position>
    var shares: map<ShareCode, Share>
    var navs: Navs
    var orders: Orders
    var executions: Executions
    var nextPosition: int
    var nextOrder: int
    var nextExecution: int

    /** The ledger that the two tables hold. */
    ghost var ledger: View

    ghost predicate Valid()
      reads this
    {
      && Tables(orders, executions, nextOrder, nextExecution, ledger)
      && Owned(ledger, positions)
      && UniquePositions(positions)
      && forall pid :: pid in positions ==> pid < nextPosition
    }

    function Joined(): Context
      reads this
    {
      Context(positions, shares)
    }

    /** A catalogue of shares, with neither positions nor orders yet. */
    constructor (shares: map<ShareCode, Share>)
      ensures Valid() && ledger == map[]
      ensures Joined() == Context(map[], shares) && navs == map[] && nextPosition == 0
    {
      hide Tables;
      this.shares := shares;
      positions, navs, orders, executions := map[], map[], map[], map[];
      nextPosition, nextOrder, nextExecution := 0, 0, 0;
      ledger := map[];
      EmptyTables();
    }

    /** One immutable plan snapshot per planned position, on weekdays only. */
    method CreateRecurringOrders(codes: set<FundCode>, orderDate: Date) returns (r: CreationResult)
      requires Valid()
      modifies this`orders, this`nextOrder, this`ledger
      ensures Valid() && ledger == CreateOrders(old(ledger), Joined(), codes, orderDate)
      ensures r.ordersCreated == r.positionsOrdered == |ledger.Keys - old(ledger).Keys|
      ensures r.orderDate == orderDate
    {
      hide Ordering, WithOrders, Tables, Owned, UniquePositions, PlannedPositions;
      ghost var v := ledger;
      assert v.Keys - v.Keys == {};
      if Weekday(orderDate) >= 5 {
        return CreationResult(0, 0, orderDate);
      }
      var ctx := Joined();
      var planned := PlannedPositions(ctx, codes);
      var existing := set i | i in orders && orders[i].position in planned && orders[i].date == orderDate
                      :: orders[i].position;
      var table, next := orders, nextOrder;
      var rest := planned;
      var created := 0;
      PlannedHavePlans(ctx, codes);
      OrderingStarts(table, executions, next, nextExecution, v, ctx, planned, orderDate, existing);
      while rest != {}
        invariant rest <= planned
        invariant Ordering(table, executions, next, nextExecution, v, ctx, planned, rest, orderDate, created)
        decreases rest
      {
        ghost var least := LeastExists(rest);
        var pid :| pid in rest && forall q :: q in rest ==> pid <= q;
        if pid in existing {
          OrderingSkips(table, executions, next, nextExecution, v, ctx, planned, rest, orderDate, created, pid);
          rest := rest - {pid};
          continue;
        }
        var plan := ctx.positions[pid].plan.value;
        var expected := AddWeekdays(orderDate, plan.lag);
        OrderingAdds(table, executions, next, nextExecution, v, ctx, planned, rest, orderDate, created, pid);
        table, next := table[next := Order(pid, orderDate, expected, PENDING, plan.amounts, None)], next + 1;
        created := created + 1;
        rest := rest - {pid};
      }
      OrderingEnds(table, executions, next, nextExecution, v, ctx, planned, orderDate, created);
      orders, nextOrder, ledger := table, next, WithOrders(v, ctx, planned, orderDate);
      CreatedOwned(v, ctx, planned, orderDate);
      r := CreationResult(created, created, orderDate);
    }

    /** A NAV row arrives, or replaces the one of the same share and date. */
    method RecordNav(share: ShareCode, date: Date, nav: Nav)
      requires Valid()
      modifies this`navs
      ensures Valid() && navs == old(navs)[(share, date) := nav]
    {
      hide Tables, Owned, UniquePositions;
      navs := navs[(share, date) := nav];
    }

    /** Is today's order of some planned position missing, or can some waiting order settle? */
    method RecurringPlansPending(codes: set<FundCode>, orderDate: Date) returns (pending: bool)
      requires Valid()
      ensures pending == Pending(ledger, Joined(), navs, codes, orderDate)
    {
      hide Consistent, Contents;
      var ctx := Joined();
      var planned := PlannedPositions(ctx, codes);
      SettleableOrders(orders, executions, ctx, navs, codes);
      if Weekday(orderDate) < 5 {
        var existing := set i | i in orders && orders[i].position in planned && orders[i].date == orderDate
                        :: orders[i].position;
        ExistingPositions(orders, executions, planned, orderDate, existing);
        if exists pid :: pid in planned && pid !in existing {
          return true;
        }
      }
      pending := exists i :: i in orders && SettleableOrder(orders[i], ctx, navs, codes);
    }

    /** The execution already written for a position and date, if any. */
    method FindExecution(pid: PositionId, date: Date, executions: Executions) returns (found: Option<int>)
      ensures found.Some? ==> found.value in executions && ForKey(executions[found.value], (pid, date))
      ensures found.None? ==> forall e :: e in executions ==> !ForKey(executions[e], (pid, date))
    {
      if e :| e in executions && ForKey(executions[e], (pid, date)) {
        return Some(e);
      }
      return None;
    }

    /** The transaction of a settlement, before it is committed: the tables it would leave, or the
        constraint that it violates. */
    method SettleOrders(codes: set<FundCode>)
        returns (r: Result<SettlementResult, SettlementError>, table: Orders, log: Executions, next: int)
      requires Valid()
      ensures r.Err? <==> Aborts(ledger, Joined(), navs, codes)
      ensures r.Ok? ==> Tables(table, log, nextOrder, next, Settle(ledger, Joined(), navs, codes))
      ensures r.Ok? ==> Counted(r.value, Ripe(ledger, Joined(), navs, codes))
    {
      hide Progress, UnitsFor, Settle, Ripe, Tables, PositionsOf, Owned, UniquePositions, HasNav, NavFor, IsOpen;
      hide ForKey;
      hide IsLatest, AllBuyUnits, Aborts;
      ghost var v := ledger;
      var ctx := Joined();
      var rest := set i | i in orders && IsOpen(orders[i], ctx, codes);
      table, log, next := orders, executions, nextExecution;
      var settled, written := 0, 0;
      var updated: set<PositionId> := {};
      var latest: Option<Date> := None;
      ghost var done: set<Key> := {};
      ProgressStarts(table, log, nextOrder, next, v, ctx, navs, codes, rest);
      NoneBuyUnits(v, ctx, navs);
      while rest != {}
        invariant Progress(table, log, nextOrder, next, v, ctx, navs, codes, rest, done)
        invariant AllOpen(table, ctx, codes, rest)
        invariant settled == written == |done|
        invariant updated == PositionsOf(done) && IsLatest(latest, done) && AllBuyUnits(v, ctx, navs, done)
        decreases rest
      {
        ghost var first := EarliestExists(table, rest);
        var id :| id in rest && forall j :: j in rest ==> Earlier(table, id, j);
        var order := table[id];
        if !HasNav(ctx, navs, KeyOf(order)) {
          ProgressSkips(table, log, nextOrder, next, v, ctx, navs, codes, rest, done, id);
          rest := rest - {id};
          continue;
        }
        var nav := NavFor(ctx, navs, KeyOf(order));
        var found := FindExecution(order.position, order.date, log);
        ProgressSettles(table, log, nextOrder, next, v, ctx, navs, codes, rest, done, id, found);
        LatestAfter(latest, done, KeyOf(order));
        var execution := OrElse(found, next);
        if found.None? {
          var units := UnitsFor(order.amounts.net, nav);
          if units <= 0.0 {
            OneAborts(v, ctx, navs, codes, KeyOf(order));
            r := Err(UnitsNotPositive);
            return;
          }
          log := log[next := Execution(order.position, order.date, nav, order.amounts, units)];
          next := next + 1;
          written := written + 1;
        }
        OneMoreBuysUnits(v, ctx, navs, done, KeyOf(order));
        table := table[id := order.(status := SETTLED, execution := Some(execution))];
        settled := settled + 1;
        updated := updated + {order.position};
        latest := if latest.None? || order.date > latest.value then Some(order.date) else latest;
        done := done + {KeyOf(order)};
        rest := rest - {id};
      }
      ProgressEnds(table, log, nextOrder, next, v, ctx, navs, codes, done);
      NoneAborts(v, ctx, navs, codes);
      r := Ok(SettlementResult(settled, written, |updated|, latest));
    }

    /** Settles waiting orders of active positions whose own order date has a NAV. An order too
        small to buy units violates a table constraint, and then nothing at all is settled. */
    method SettleRecurringPlans(codes: set<FundCode>) returns (r: Result<SettlementResult, SettlementError>)
      requires Valid()
      modifies this`orders, this`executions, this`nextExecution, this`ledger
      ensures Valid() && ledger == SettleOrAbort(old(ledger), Joined(), navs, codes)
      ensures r.Err? <==> Aborts(old(ledger), Joined(), navs, codes)
      ensures r.Err? ==> orders == old(orders) && executions == old(executions)
      ensures r.Ok? ==> Counted(r.value, Ripe(old(ledger), Joined(), navs, codes))
    {
      hide Tables, Settle, Owned, UniquePositions, Ripe, Counted;
      var table, log, next;
      r, table, log, next := SettleOrders(codes);
      if r.Ok? {
        SettledOwned(ledger, Joined(), navs, codes);
        orders, executions, nextExecution, ledger := table, log, next, Settle(ledger, Joined(), navs, codes);
      }
    }
  }

  /** The counters of a settlement of exactly these keys. */
  ghost predicate Counted(r: SettlementResult, keys: set<Key>)
  {
    && r.ordersSettled == r.executionsWritten == |keys|
    && r.positionsUpdated == |PositionsOf(keys)|
    && IsLatest(r.latestNavDate, keys)
  }

  ghost predicate AllBuyUnits(v: View, ctx: Context, navs: Navs, keys: set<Key>)
  {
    forall key :: key in keys ==>
      key in v && HasNav(ctx, navs, key) && UnitsFor(v[key].amounts.net, NavFor(ctx, navs, key)) > 0.0
  }

  lemma NoneBuyUnits(v: View, ctx: Context, navs: Navs)
    ensures AllBuyUnits(v, ctx, navs, {})
  {
  }

  lemma OneMoreBuysUnits(v: View, ctx: Context, navs: Navs, keys: set<Key>, key: Key)
    requires AllBuyUnits(v, ctx, navs, keys) && key in v && HasNav(ctx, navs, key)
    requires UnitsFor(v[key].amounts.net, NavFor(ctx, navs, key)) > 0.0
    ensures AllBuyUnits(v, ctx, navs, keys + {key})
  {
  }

  lemma OneAborts(v: View, ctx: Context, navs: Navs, codes: set<FundCode>, key: Key)
    requires IsRipe(v, ctx, navs, codes, key) && UnitsFor(v[key].amounts.net, NavFor(ctx, navs, key)) <= 0.0
    ensures Aborts(v, ctx, navs, codes)
  {
    assert Vanishes(v, ctx, navs, codes, key);
  }

  lemma NoneAborts(v: View, ctx: Context, navs: Navs, codes: set<FundCode>)
    requires AllBuyUnits(v, ctx, navs, Ripe(v, ctx, navs, codes))
    ensures !Aborts(v, ctx, navs, codes)
  {
    hide UnitsFor;
    assert forall key :: IsRipe(v, ctx, navs, codes, key) ==> key in Ripe(v, ctx, navs, codes);
  }

  lemma PlannedHavePlans(ctx: Context, codes: set<FundCode>)
    ensures HavePlans(ctx, PlannedPositions(ctx, codes))
  {
  }
}
