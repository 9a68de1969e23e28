/** Recurring orders and executions as database tables
    (backend/app/portfolio_recurring.py, with the reset of backend/app/portfolio.py). */
module RecurringLedger {
  import opened Sums
  import opened Calendar
  import opened LedgerModel

  datatype OrderStatus = PENDING | SETTLED

  datatype Order = Order(
    position: PositionId, date: Date, expected: Date, status: OrderStatus, amounts: Amounts, execution: Option<int>)

  datatype Execution = Execution(position: PositionId, navDate: Date, nav: Nav, amounts: Amounts, units: real)

  type Orders = map<int, Order>
  type Executions = map<int, Execution>

  function KeyOf(o: Order): Key { (o.position, o.date) }

  // ---------- table invariants ----------

  /** At most one order for a position and date. */
  ghost predicate UniqueOrders(orders: Orders)
  {
    forall i, j :: i in orders && j in orders && KeyOf(orders[i]) == KeyOf(orders[j]) ==> i == j
  }

  /** The execution recorded for an order carries that order's position, date and amounts. */
  ghost predicate Matches(o: Order, e: Execution)
  {
    && e.position == o.position && e.navDate == o.date && e.amounts == o.amounts
    && e.units == UnitsFor(o.amounts.net, e.nav)
  }

  ghost predicate OrderSound(o: Order, executions: Executions)
  {
    && (o.status == SETTLED <==> o.execution.Some?)
    && (o.execution.Some? ==> o.execution.value in executions && Matches(o, executions[o.execution.value]))
  }

  ghost predicate Recorded(e: int, orders: Orders)
  {
    exists i :: i in orders && orders[i].execution == Some(e)
  }

  ghost predicate Consistent(orders: Orders, executions: Executions)
  {
    && UniqueOrders(orders)
    && (forall i :: i in orders ==> OrderSound(orders[i], executions))
    && (forall e :: e in executions ==> Recorded(e, orders))
  }

  ghost function EntryOf(o: Order, executions: Executions): Entry
  {
    if o.execution.Some? && o.execution.value in executions
    then var e := executions[o.execution.value]; Settled(o.amounts, o.expected, e.nav, e.units)
    else Waiting(o.amounts, o.expected)
  }

  ghost function Contents(orders: Orders, executions: Executions): View
    requires UniqueOrders(orders)
  {
    map i | i in orders :: KeyOf(orders[i]) := EntryOf(orders[i], executions)
  }

  lemma ContentsAt(orders: Orders, executions: Executions, i: int)
    requires UniqueOrders(orders) && i in orders
    ensures KeyOf(orders[i]) in Contents(orders, executions)
    ensures Contents(orders, executions)[KeyOf(orders[i])] == EntryOf(orders[i], executions)
  {
  }

  lemma ContentsFrom(orders: Orders, executions: Executions, key: Key) returns (i: int)
    requires UniqueOrders(orders) && key in Contents(orders, executions)
    ensures i in orders && KeyOf(orders[i]) == key
  {
    i :| i in orders && KeyOf(orders[i]) == key;
  }

  ghost predicate HasKey(orders: Orders, key: Key)
  {
    exists i :: i in orders && KeyOf(orders[i]) == key
  }

  lemma ContentsIs(orders: Orders, executions: Executions, v: View)
    requires UniqueOrders(orders)
    requires forall i :: i in orders ==> KeyOf(orders[i]) in v && v[KeyOf(orders[i])] == EntryOf(orders[i], executions)
    requires forall key :: key in v ==> HasKey(orders, key)
    ensures Contents(orders, executions) == v
  {
    hide EntryOf;
    var c := Contents(orders, executions);
    forall key | key in c ensures key in v && c[key] == v[key] {
      var i := ContentsFrom(orders, executions, key);
    }
    forall key | key in v ensures key in c {
      var i :| i in orders && KeyOf(orders[i]) == key;
    }
  }

  // ---------- how single table writes show in the contents ----------

  lemma InsertOrder(orders: Orders, executions: Executions, i: int, o: Order)
    requires Consistent(orders, executions) && i !in orders
    requires KeyOf(o) !in Contents(orders, executions) && o.status == PENDING && o.execution == None
    ensures Consistent(orders[i := o], executions)
    ensures Contents(orders[i := o], executions)
         == Contents(orders, executions)[KeyOf(o) := Waiting(o.amounts, o.expected)]
  {
    hide Contents, EntryOf, Matches;
    var orders' := orders[i := o];
    forall j | j in orders ensures KeyOf(orders[j]) != KeyOf(o) {
      ContentsAt(orders, executions, j);
    }
    assert UniqueOrders(orders');
    forall e | e in executions ensures Recorded(e, orders') {
      var j :| j in orders && orders[j].execution == Some(e);
      assert orders'[j].execution == Some(e);
    }
    InsertOrderContents(orders, executions, i, o);
  }

  lemma InsertOrderContents(orders: Orders, executions: Executions, i: int, o: Order)
    requires UniqueOrders(orders) && UniqueOrders(orders[i := o]) && i !in orders && o.execution == None
    ensures Contents(orders[i := o], executions)
         == Contents(orders, executions)[KeyOf(o) := Waiting(o.amounts, o.expected)]
  {
    var orders' := orders[i := o];
    var v := Contents(orders, executions)[KeyOf(o) := Waiting(o.amounts, o.expected)];
    assert orders'[i] == o;
    forall j | j in orders' ensures KeyOf(orders'[j]) in v && v[KeyOf(orders'[j])] == EntryOf(orders'[j], executions) {
      if j != i {
        ContentsAt(orders, executions, j);
        assert KeyOf(orders'[j]) != KeyOf(orders'[i]);
      }
    }
    forall key | key in v ensures HasKey(orders', key) {
      if key != KeyOf(o) { var j := ContentsFrom(orders, executions, key); assert orders'[j] == orders[j]; }
    }
    ContentsIs(orders', executions, v);
  }

  /** Under the invariants a waiting order never finds an execution already written. */
  lemma NoStrayExecution(orders: Orders, executions: Executions, i: int, e: int)
    requires Consistent(orders, executions) && i in orders && orders[i].status == PENDING && e in executions
    ensures (executions[e].position, executions[e].navDate) != KeyOf(orders[i])
  {
    var j :| j in orders && orders[j].execution == Some(e);
    assert OrderSound(orders[j], executions);
    assert OrderSound(orders[i], executions);
  }

  lemma SettleOrder(
    orders: Orders, executions: Executions, i: int, e: int, x: Execution, orders': Orders, executions': Executions)
    requires Consistent(orders, executions) && i in orders && orders[i].status == PENDING
    requires e !in executions && Matches(orders[i], x)
    requires executions' == executions[e := x]
    requires orders' == orders[i := orders[i].(status := SETTLED, execution := Some(e))]
    ensures Consistent(orders', executions')
    ensures Contents(orders', executions')
         == Contents(orders, executions)[
              KeyOf(orders[i]) := Settled(orders[i].amounts, orders[i].expected, x.nav, x.units)]
  {
    assert forall j :: j in orders ==> j in orders' && KeyOf(orders'[j]) == KeyOf(orders[j]);
    assert UniqueOrders(orders');
    forall j | j in orders'
      ensures OrderSound(orders'[j], executions')
      ensures j != i ==> EntryOf(orders'[j], executions') == EntryOf(orders[j], executions)
    {
      assert OrderSound(orders[j], executions);
    }
    forall d | d in executions' ensures Recorded(d, orders') {
      if d == e {
        assert orders'[i].execution == Some(e);
      } else {
        var j :| j in orders && orders[j].execution == Some(d);
        assert OrderSound(orders[i], executions);
        assert orders'[j].execution == Some(d);
      }
    }
    SettleOrderContents(orders, executions, i, orders', executions',
                        Settled(orders[i].amounts, orders[i].expected, x.nav, x.units));
  }

  lemma SettleOrderContents(
    orders: Orders, executions: Executions, i: int, orders': Orders, executions': Executions, entry: Entry)
    requires UniqueOrders(orders) && UniqueOrders(orders') && orders'.Keys == orders.Keys && i in orders
    requires forall j :: j in orders ==> KeyOf(orders'[j]) == KeyOf(orders[j])
    requires forall j :: j in orders && j != i ==> EntryOf(orders'[j], executions') == EntryOf(orders[j], executions)
    requires EntryOf(orders'[i], executions') == entry
    ensures Contents(orders', executions') == Contents(orders, executions)[KeyOf(orders[i]) := entry]
  {
    var a, b := Contents(orders', executions'), Contents(orders, executions)[KeyOf(orders[i]) := entry];
    forall key | key in a ensures key in b && a[key] == b[key] {
      var j := ContentsFrom(orders', executions', key);
      ContentsAt(orders', executions', j);
      ContentsAt(orders, executions, j);
    }
    forall key | key in b ensures key in a {
      var j := ContentsFrom(orders, executions, key);
      ContentsAt(orders', executions', j);
    }
  }

  /** Clearing a position's two collections removes exactly its entries. */
  lemma ClearPosition(orders: Orders, executions: Executions, pid: PositionId, orders': Orders, executions': Executions)
    requires Consistent(orders, executions)
    requires orders' == map i | i in orders && orders[i].position != pid :: orders[i]
    requires executions' == map e | e in executions && executions[e].position != pid :: executions[e]
    ensures Consistent(orders', executions')
    ensures Contents(orders', executions') == Forget(Contents(orders, executions), pid)
  {
    forall i | i in orders'
      ensures OrderSound(orders'[i], executions') && EntryOf(orders'[i], executions') == EntryOf(orders[i], executions)
    {
      assert OrderSound(orders[i], executions);
    }
    forall e | e in executions' ensures Recorded(e, orders') {
      var i :| i in orders && orders[i].execution == Some(e);
      assert OrderSound(orders[i], executions);
      assert orders'[i].execution == Some(e);
    }
    ClearPositionContents(orders, executions, pid, orders', executions');
  }

  lemma ClearPositionContents(
    orders: Orders, executions: Executions, pid: PositionId, orders': Orders, executions': Executions)
    requires UniqueOrders(orders)
    requires orders' == map i | i in orders && orders[i].position != pid :: orders[i]
    requires forall i :: i in orders' ==> EntryOf(orders'[i], executions') == EntryOf(orders[i], executions)
    ensures UniqueOrders(orders')
    ensures Contents(orders', executions') == Forget(Contents(orders, executions), pid)
  {
    var v := Forget(Contents(orders, executions), pid);
    forall i | i in orders' ensures KeyOf(orders'[i]) in v && v[KeyOf(orders'[i])] == EntryOf(orders'[i], executions') {
      ContentsAt(orders, executions, i);
    }
    forall key | key in v ensures HasKey(orders', key) {
      var i := ContentsFrom(orders, executions, key);
      assert orders'[i] == orders[i];
    }
    ContentsIs(orders', executions', v);
  }

  // ---------- conservation between the two tables ----------

  ghost function OrdersOf(orders: Orders, pid: PositionId): set<int>
  {
    set i | i in orders && orders[i].position == pid
  }

  ghost function WithStatus(orders: Orders, pid: PositionId, status: OrderStatus): set<int>
  {
    set i | i in orders && orders[i].position == pid && orders[i].status == status
  }

  ghost function ExecutionsOf(executions: Executions, pid: PositionId): set<int>
  {
    set e | e in executions && executions[e].position == pid
  }

  ghost function OrderAmount(orders: Orders, amount: Amounts -> real): int -> real
  {
    i => if i in orders then amount(orders[i].amounts) else 0.0
  }

  ghost function ExecutionAmount(executions: Executions, amount: Amounts -> real): int -> real
  {
    e => if e in executions then amount(executions[e].amounts) else 0.0
  }

  /** The execution an order was settled by. */
  ghost function Link(orders: Orders, i: int): int
  {
    if i in orders && orders[i].execution.Some? then orders[i].execution.value else -1
  }

  lemma SameLink(orders: Orders, executions: Executions, i: int, j: int)
    requires Consistent(orders, executions) && i in orders && j in orders
    requires orders[i].execution.Some? && orders[i].execution == orders[j].execution
    ensures i == j
  {
    hide UnitsFor;
    assert OrderSound(orders[i], executions) && OrderSound(orders[j], executions);
    assert KeyOf(orders[i]) == KeyOf(orders[j]);
  }

  /** A position's settled orders and its executions correspond one to one, each pair with the
      same date and the same amounts. */
  lemma SettledOrdersAreExecutions(orders: Orders, executions: Executions, pid: PositionId)
    requires Consistent(orders, executions)
    ensures forall i :: i in WithStatus(orders, pid, SETTLED)
              ==> (Link(orders, i) in ExecutionsOf(executions, pid) && Matches(orders[i], executions[Link(orders, i)]))
    ensures forall i, j :: i in WithStatus(orders, pid, SETTLED) && j in WithStatus(orders, pid, SETTLED)
              ==> Link(orders, i) == Link(orders, j) ==> i == j
    ensures forall e :: e in ExecutionsOf(executions, pid)
              ==> exists i :: i in WithStatus(orders, pid, SETTLED) && Link(orders, i) == e
  {
    hide UnitsFor;
    assert forall i :: i in orders ==> OrderSound(orders[i], executions);
    forall i, j | i in WithStatus(orders, pid, SETTLED) && j in WithStatus(orders, pid, SETTLED)
                && Link(orders, i) == Link(orders, j)
      ensures i == j
    {
      assert OrderSound(orders[i], executions) && OrderSound(orders[j], executions);
      SameLink(orders, executions, i, j);
    }
    forall e | e in ExecutionsOf(executions, pid)
      ensures exists i :: i in WithStatus(orders, pid, SETTLED) && Link(orders, i) == e
    {
      var i :| i in orders && orders[i].execution == Some(e);
      assert OrderSound(orders[i], executions);
      assert i in WithStatus(orders, pid, SETTLED) && Link(orders, i) == e;
    }
  }

  /** Nothing is invested twice or lost: for gross, fee or net amounts alike, what is executed
      plus what still waits is what was ordered. */
  lemma AmountsConserved(orders: Orders, executions: Executions, pid: PositionId, amount: Amounts -> real)
    requires Consistent(orders, executions)
    ensures SumOver(ExecutionsOf(executions, pid), ExecutionAmount(executions, amount))
          + SumOver(WithStatus(orders, pid, PENDING), OrderAmount(orders, amount))
         == SumOver(OrdersOf(orders, pid), OrderAmount(orders, amount))
  {
    hide Consistent, UnitsFor;
    var settled, waiting := WithStatus(orders, pid, SETTLED), WithStatus(orders, pid, PENDING);
    var log := ExecutionsOf(executions, pid);
    SettledOrdersAreExecutions(orders, executions, pid);
    var link: int -> int := i => Link(orders, i);
    forall i | i in settled
      ensures link(i) in log && OrderAmount(orders, amount)(i) == ExecutionAmount(executions, amount)(link(i))
    {
      assert Matches(orders[i], executions[Link(orders, i)]);
    }
    forall e | e in log ensures exists i :: i in settled && link(i) == e {
      var i :| i in settled && Link(orders, i) == e;
      assert link(i) == e;
    }
    SumReindexed(settled, log, link, ExecutionAmount(executions, amount), OrderAmount(orders, amount));
    assert forall i :: i in orders ==> orders[i].status.PENDING? || orders[i].status.SETTLED?;
    assert settled + waiting == OrdersOf(orders, pid);
    SumUnion(settled, waiting, OrderAmount(orders, amount));
  }
}
