/**
 The three writing transactions as programs of single-row steps.

 A worker's `Task` is the point its transaction has reached, with the local variables
 that are still live there. `Step` performs the one table access of that point.
 Whether the access can be made at all is `Hit`: the row that the code reads without
 looking at the result of `get` is there.
 */
module Engine {
  import opened Schema
  import opened OrderedScan

  const SCANNED: nat := 10  // lines taken by one delivery scan

  // ----- the draws of a transaction

  datatype LineArgs = LineArgs(item: nat, supply: nat, quantity: nat)
  datatype NewOrderArgs = NewOrderArgs(w: nat, d: nat, c: nat, lines: seq<LineArgs>)
  datatype PaymentArgs = PaymentArgs(w: nat, d: nat, cw: nat, cd: nat, c: nat, amount: int, date: nat)
  datatype DeliveryArgs = DeliveryArgs(w: nat, carrier: nat)

  predicate ValidLine(warehouses: nat, l: LineArgs)
  {
    IsItem(l.item) && 1 <= l.supply <= warehouses && 1 <= l.quantity <= 10
  }

  predicate ValidNewOrder(warehouses: nat, a: NewOrderArgs)
  {
    && 1 <= a.w <= warehouses && IsDistrict(a.d) && IsCustomer(a.c)
    && 5 <= |a.lines| <= 15
    && forall l :: l in a.lines ==> ValidLine(warehouses, l)
  }

  predicate ValidPayment(warehouses: nat, a: PaymentArgs)
  {
    && 1 <= a.w <= warehouses && IsDistrict(a.d)
    && 1 <= a.cw <= warehouses && IsDistrict(a.cd) && IsCustomer(a.c)
    && 100 <= a.amount <= 500000
  }

  predicate ValidDelivery(warehouses: nat, a: DeliveryArgs)
  {
    1 <= a.w <= warehouses && 1 <= a.carrier <= DISTRICTS
  }

  // ----- programs

  /** txn_new_order; `row` is the local copy of the district row. */
  datatype NewOrderTask =
    | NoReadDistrict(a: NewOrderArgs)
    | NoWriteDistrict(a: NewOrderArgs, row: District)
    | NoInsertNewOrder(a: NewOrderArgs, row: District)
    | NoSetPending(a: NewOrderArgs, row: District)
    | NoSetLatest(a: NewOrderArgs, row: District)
    | NoInsertOrder(a: NewOrderArgs, row: District)
    | NoReadItem(a: NewOrderArgs, row: District, i: nat)
    | NoReadStock(a: NewOrderArgs, row: District, i: nat, price: nat)
    | NoWriteStock(a: NewOrderArgs, row: District, i: nat, price: nat, stock: Stock)
    | NoInsertLine(a: NewOrderArgs, row: District, i: nat, price: nat)
    | NoUndoDistrict(a: NewOrderArgs, row: District)
    | NoUndoNewOrder(a: NewOrderArgs, row: District)
    | NoUndoOrder(a: NewOrderArgs, row: District)

  /** txn_payment; the local copies are the rows as read. */
  datatype PaymentTask =
    | PayReadWarehouse(a: PaymentArgs)
    | PayWriteWarehouse(a: PaymentArgs, ytd: int)
    | PayReadDistrict(a: PaymentArgs)
    | PayWriteDistrict(a: PaymentArgs, row: District)
    | PayReadCustomer(a: PaymentArgs)
    | PayWriteCustomer(a: PaymentArgs, cust: Customer)
    | PayInsertHistory(a: PaymentArgs)

  /** txn_delivery, at work on district `d`. */
  datatype DeliveryTask =
    | DelReadPending(a: DeliveryArgs, d: nat)
    | DelReadNewOrder(a: DeliveryArgs, d: nat, o: nat)
    | DelReadOrder(a: DeliveryArgs, d: nat, o: nat)
    | DelRemoveNewOrder(a: DeliveryArgs, d: nat, o: nat, order: Order)
    | DelWriteOrder(a: DeliveryArgs, d: nat, o: nat, order: Order)
    | DelScanLines(a: DeliveryArgs, d: nat, o: nat, order: Order)
    | DelWriteLine(a: DeliveryArgs, d: nat, o: nat, order: Order, rows: seq<Row>, i: nat, total: int)
    | DelReadCustomer(a: DeliveryArgs, d: nat, o: nat, order: Order, total: int)
    | DelWriteCustomer(a: DeliveryArgs, d: nat, o: nat, order: Order, total: int, cust: Customer)

  datatype Task =
    | Idle
    | NewOrder(n: NewOrderTask)
    | Payment(p: PaymentTask)
    | Delivery(v: DeliveryTask)

  /** Tables, task and the worker's own counter behind GetCurrentTimeMillis. */
  datatype Point = Point(db: Db, task: Task, clock: nat)

  /** The warehouse a task works for; 0, which is no warehouse, when idle. */
  function WarehouseOf(t: Task): nat
  {
    match t
    case Idle => 0
    case NewOrder(n) => n.a.w
    case Payment(p) => p.a.w
    case Delivery(v) => v.a.w
  }

  function NewKey(a: NewOrderArgs, row: District): OKey { OKey(a.w, a.d, row.next) }

  function CustomerOf(a: PaymentArgs): CKey { CKey(a.cw, a.cd, a.c) }

  function HistoryKey(a: PaymentArgs): HKey { HKey(a.w, a.d, a.cw, a.cd, a.c, a.date) }

  predicate AllLocal(a: NewOrderArgs) { forall l :: l in a.lines ==> l.supply == a.w }

  /** The new version of a stock row; the subtraction is on unsigned 32-bit numbers. */
  function Restock(s: Stock, quantity: nat, remote: bool): Stock
  {
    Stock(
      if (s.quantity - quantity) % TWO32 >= 10 then (s.quantity - quantity) % TWO32
      else (s.quantity + (91 - quantity)) % TWO32,
      s.ytd + quantity,
      s.orderCnt + 1,
      s.remoteCnt + if remote then 1 else 0)
  }

  /** What the two branches are meant to do: 91 pieces come in when fewer than ten would be left. */
  function NextQuantity(quantity: nat, x: nat): nat
    requires x <= quantity + 91
  {
    if quantity >= x + 10 then quantity - x else quantity + 91 - x
  }

  lemma Wrapped(x: int)
    requires -100 <= x <= 200
    ensures x % TWO32 == if x < 0 then x + TWO32 else x
  {
  }

  lemma Plus91(x: nat)
    ensures (x + 91) % 91 == x % 91
  {
  }

  /** The unsigned subtraction never wraps for stored and ordered quantities. */
  lemma RestockQuantity(s: Stock, x: nat, remote: bool)
    requires 10 <= s.quantity <= 100 && 1 <= x <= 10
    ensures Restock(s, x, remote).quantity == NextQuantity(s.quantity, x)
    ensures 10 <= NextQuantity(s.quantity, x) <= 100
  {
    Wrapped(s.quantity - x);
    Wrapped(s.quantity + (91 - x));
  }

  function Bumped(row: District): District { row.(next := Inc32(row.next)) }

  function Unbumped(row: District): District { row.(next := Dec32(row.next)) }

  function Collected(row: District, amount: int): District { row.(ytd := row.ytd + amount) }

  function Paid(c: Customer, amount: int): Customer
  {
    c.(balance := c.balance - amount, ytdPayment := c.ytdPayment + amount, paymentCnt := c.paymentCnt + 1)
  }

  function Credited(c: Customer, total: int): Customer
  {
    c.(balance := c.balance + total, deliveryCnt := c.deliveryCnt + 1)
  }

  function NextItem(a: NewOrderArgs, row: District, i: nat): Task
  {
    if i < |a.lines| then NewOrder(NoReadItem(a, row, i)) else Idle
  }

  function NextDistrict(a: DeliveryArgs, d: nat): Task
  {
    if d <= DISTRICTS then Delivery(DelReadPending(a, d)) else Idle
  }

  function NextLine(a: DeliveryArgs, d: nat, o: nat, order: Order, rows: seq<Row>, i: nat, total: int): Task
  {
    Delivery(if i < |rows| then DelWriteLine(a, d, o, order, rows, i, total)
             else DelReadCustomer(a, d, o, order, total))
  }

  // ----- steps

  predicate NewOrderHit(db: Db, t: NewOrderTask)
  {
    match t
    case NoReadDistrict(a) => DKey(a.w, a.d) in db.district
    case NoReadItem(a, _, i) => i < |a.lines|
    case NoReadStock(a, _, i, _) => i < |a.lines| && SKey(a.lines[i].supply, a.lines[i].item) in db.stock
    case NoWriteStock(a, _, i, _, _) => i < |a.lines|
    case NoInsertLine(a, _, i, _) => i < |a.lines|
    case _ => true
  }

  function NewOrderStep(db: Db, t: NewOrderTask, clock: nat): Point
    requires NewOrderHit(db, t)
  {
    match t
    case NoReadDistrict(a) =>
      Point(db, NewOrder(NoWriteDistrict(a, db.district[DKey(a.w, a.d)])), clock)
    case NoWriteDistrict(a, row) =>
      Point(db.(district := db.district[DKey(a.w, a.d) := Bumped(row)]),
            NewOrder(NoInsertNewOrder(a, Bumped(row))), clock)
    case NoInsertNewOrder(a, row) =>
      Point(db.(newOrder := db.newOrder + {NewKey(a, row)}), NewOrder(NoSetPending(a, row)), clock)
    case NoSetPending(a, row) =>
      Point(db.(pending := db.pending[DKey(a.w, a.d) := row.next]), NewOrder(NoSetLatest(a, row)), clock)
    case NoSetLatest(a, row) =>
      Point(db.(latest := db.latest[CKey(a.w, a.d, a.c) := row.next]), NewOrder(NoInsertOrder(a, row)), clock)
    case NoInsertOrder(a, row) =>
      Point(db.(order := db.order[NewKey(a, row) := Order(a.c, 0, |a.lines|, AllLocal(a), clock)]),
            NextItem(a, row, 0), Inc32(clock))
    case NoReadItem(a, row, i) =>
      var item := a.lines[i].item;
      Point(db, NewOrder(if item in db.item then NoReadStock(a, row, i, db.item[item]) else NoUndoDistrict(a, row)),
            clock)
    case NoReadStock(a, row, i, price) =>
      Point(db, NewOrder(NoWriteStock(a, row, i, price, db.stock[SKey(a.lines[i].supply, a.lines[i].item)])), clock)
    case NoWriteStock(a, row, i, price, stock) =>
      var l := a.lines[i];
      Point(db.(stock := db.stock[SKey(l.supply, l.item) := Restock(stock, l.quantity, l.supply != a.w)]),
            NewOrder(NoInsertLine(a, row, i, price)), clock)
    case NoInsertLine(a, row, i, price) =>
      var l := a.lines[i];
      var line := OrderLine(l.item, 0, l.quantity * price, l.supply, l.quantity);
      Point(db.(orderLine := db.orderLine[OLKey(a.w, a.d, row.next, i + 1) := line]), NextItem(a, row, i + 1), clock)
    case NoUndoDistrict(a, row) =>
      Point(db.(district := db.district[DKey(a.w, a.d) := Unbumped(row)]), NewOrder(NoUndoNewOrder(a, row)), clock)
    case NoUndoNewOrder(a, row) =>
      Point(db.(newOrder := db.newOrder - {NewKey(a, row)}), NewOrder(NoUndoOrder(a, row)), clock)
    case NoUndoOrder(a, row) =>
      Point(db.(order := db.order - {NewKey(a, row)}), Idle, clock)
  }

  predicate PaymentHit(db: Db, t: PaymentTask)
  {
    match t
    case PayReadWarehouse(a) => a.w in db.warehouse
    case PayReadDistrict(a) => DKey(a.w, a.d) in db.district
    case PayReadCustomer(a) => CustomerOf(a) in db.customer
    case _ => true
  }

  function PaymentStep(db: Db, t: PaymentTask, clock: nat): Point
    requires PaymentHit(db, t)
  {
    match t
    case PayReadWarehouse(a) =>
      Point(db, Payment(PayWriteWarehouse(a, db.warehouse[a.w])), clock)
    case PayWriteWarehouse(a, ytd) =>
      Point(db.(warehouse := db.warehouse[a.w := ytd + a.amount]), Payment(PayReadDistrict(a)), clock)
    case PayReadDistrict(a) =>
      Point(db, Payment(PayWriteDistrict(a, db.district[DKey(a.w, a.d)])), clock)
    case PayWriteDistrict(a, row) =>
      Point(db.(district := db.district[DKey(a.w, a.d) := Collected(row, a.amount)]),
            Payment(PayReadCustomer(a)), clock)
    case PayReadCustomer(a) =>
      Point(db, Payment(PayWriteCustomer(a, db.customer[CustomerOf(a)])), clock)
    case PayWriteCustomer(a, cust) =>
      Point(db.(customer := db.customer[CustomerOf(a) := Paid(cust, a.amount)]), Payment(PayInsertHistory(a)), clock)
    case PayInsertHistory(a) =>
      Point(db.(history := db.history[HistoryKey(a) := a.amount]), Idle, clock)
  }

  predicate DeliveryHit(db: Db, t: DeliveryTask)
  {
    match t
    case DelReadPending(a, d) => IsDistrict(d) && DKey(a.w, d) in db.pending
    case DelWriteLine(_, _, _, _, rows, i, _) => i < |rows|
    case DelReadCustomer(a, d, _, order, _) => CKey(a.w, d, order.c) in db.customer
    case _ => true
  }

  function DeliveryStep(db: Db, t: DeliveryTask, clock: nat): Point
    requires DeliveryHit(db, t)
  {
    match t
    case DelReadPending(a, d) =>
      Point(db, Delivery(DelReadNewOrder(a, d, db.pending[DKey(a.w, d)])), clock)
    case DelReadNewOrder(a, d, o) =>
      Point(db, if OKey(a.w, d, o) in db.newOrder then Delivery(DelReadOrder(a, d, o)) else NextDistrict(a, d + 1),
            clock)
    case DelReadOrder(a, d, o) =>
      var k := OKey(a.w, d, o);
      Point(db, if k in db.order then Delivery(DelRemoveNewOrder(a, d, o, db.order[k])) else Idle, clock)
    case DelRemoveNewOrder(a, d, o, order) =>
      Point(db.(newOrder := db.newOrder - {OKey(a.w, d, o)}), Delivery(DelWriteOrder(a, d, o, order)), clock)
    case DelWriteOrder(a, d, o, order) =>
      var order' := order.(carrier := a.carrier);
      Point(db.(order := db.order[OKey(a.w, d, o) := order']), Delivery(DelScanLines(a, d, o, order')), clock)
    case DelScanLines(a, d, o, order) =>
      Point(db, NextLine(a, d, o, order, Scan(db.orderLine, OLKey(a.w, d, o, 0), SCANNED), 0, 0), clock)
    case DelWriteLine(a, d, o, order, rows, i, total) =>
      var (k, line) := rows[i];
      Point(db.(orderLine := db.orderLine[k := line.(delivered := clock)]),
            NextLine(a, d, o, order, rows, i + 1, total + line.amount), Inc32(clock))
    case DelReadCustomer(a, d, o, order, total) =>
      Point(db, Delivery(DelWriteCustomer(a, d, o, order, total, db.customer[CKey(a.w, d, order.c)])), clock)
    case DelWriteCustomer(a, d, _, order, total, cust) =>
      Point(db.(customer := db.customer[CKey(a.w, d, order.c) := Credited(cust, total)]), NextDistrict(a, d + 1), clock)
  }

  predicate Hit(db: Db, t: Task)
  {
    match t
    case Idle => false
    case NewOrder(n) => NewOrderHit(db, n)
    case Payment(p) => PaymentHit(db, p)
    case Delivery(v) => DeliveryHit(db, v)
  }

  /** One table access and the local computation up to the next one. */
  function Step(x: Point): Point
    requires Hit(x.db, x.task)
  {
    match x.task
    case NewOrder(n) => NewOrderStep(x.db, n, x.clock)
    case Payment(p) => PaymentStep(x.db, p, x.clock)
    case Delivery(v) => DeliveryStep(x.db, v, x.clock)
  }

  /** How a transaction may start: draws in range, and a payment's date is the current tick. */
  predicate ValidStart(warehouses: nat, t: Task, clock: nat)
  {
    match t
    case NewOrder(NoReadDistrict(a)) => ValidNewOrder(warehouses, a)
    case Payment(PayReadWarehouse(a)) => ValidPayment(warehouses, a) && a.date == clock
    case Delivery(DelReadPending(a, d)) => ValidDelivery(warehouses, a) && d == 1
    case _ => false
  }

  /** The counter once the draws are made: a payment draws its date first. */
  function ClockAfterStart(t: Task, clock: nat): nat { if t.Payment? then Inc32(clock) else clock }

  /** No 32-bit counter wraps in the next step. */
  predicate NoWrap(x: Point)
  {
    && x.clock + 1 < TWO32
    && (x.task.NewOrder? && x.task.n.NoWriteDistrict? ==> x.task.n.row.next + 1 < TWO32)
  }

  // ----- a transaction run without interruption

  function ItemsLeft(a: NewOrderArgs, i: nat): nat { if i < |a.lines| then 4 * (|a.lines| - i) else 0 }

  function DistrictsLeft(d: nat): nat { if d <= DISTRICTS then (DISTRICTS - d) * 20 else 0 }

  /** An upper bound on the steps that are left. */
  function StepsLeft(t: Task): nat
  {
    match t
    case Idle => 0
    case NewOrder(n) => NewOrderLeft(n)
    case Payment(p) => PaymentLeft(p)
    case Delivery(v) => DeliveryLeft(v)
  }

  function NewOrderLeft(t: NewOrderTask): nat
  {
    match t
    case NoReadDistrict(a) => ItemsLeft(a, 0) + 10
    case NoWriteDistrict(a, _) => ItemsLeft(a, 0) + 9
    case NoInsertNewOrder(a, _) => ItemsLeft(a, 0) + 8
    case NoSetPending(a, _) => ItemsLeft(a, 0) + 7
    case NoSetLatest(a, _) => ItemsLeft(a, 0) + 6
    case NoInsertOrder(a, _) => ItemsLeft(a, 0) + 5
    case NoReadItem(a, _, i) => ItemsLeft(a, i) + 4
    case NoReadStock(a, _, i, _) => ItemsLeft(a, i) + 3
    case NoWriteStock(a, _, i, _, _) => ItemsLeft(a, i) + 2
    case NoInsertLine(a, _, i, _) => ItemsLeft(a, i) + 1
    case NoUndoDistrict(_, _) => 3
    case NoUndoNewOrder(_, _) => 2
    case NoUndoOrder(_, _) => 1
  }

  function PaymentLeft(t: PaymentTask): nat
  {
    match t
    case PayReadWarehouse(_) => 7
    case PayWriteWarehouse(_, _) => 6
    case PayReadDistrict(_) => 5
    case PayWriteDistrict(_, _) => 4
    case PayReadCustomer(_) => 3
    case PayWriteCustomer(_, _) => 2
    case PayInsertHistory(_) => 1
  }

  function DeliveryLeft(t: DeliveryTask): nat
  {
    match t
    case DelReadPending(_, d) => DistrictsLeft(d) + 20
    case DelReadNewOrder(_, d, _) => DistrictsLeft(d) + 19
    case DelReadOrder(_, d, _) => DistrictsLeft(d) + 18
    case DelRemoveNewOrder(_, d, _, _) => DistrictsLeft(d) + 17
    case DelWriteOrder(_, d, _, _) => DistrictsLeft(d) + 16
    case DelScanLines(_, d, _, _) => DistrictsLeft(d) + 15
    case DelWriteLine(_, d, _, _, rows, i, _) => DistrictsLeft(d) + 3 + if i < |rows| then |rows| - i else 0
    case DelReadCustomer(_, d, _, _, _) => DistrictsLeft(d) + 2
    case DelWriteCustomer(_, d, _, _, _, _) => DistrictsLeft(d) + 1
  }

  lemma NewOrderLeftDecreases(db: Db, t: NewOrderTask, clock: nat)
    requires NewOrderHit(db, t)
    ensures StepsLeft(NewOrderStep(db, t, clock).task) < NewOrderLeft(t)
  {
  }

  lemma PaymentLeftDecreases(db: Db, t: PaymentTask, clock: nat)
    requires PaymentHit(db, t)
    ensures StepsLeft(PaymentStep(db, t, clock).task) < PaymentLeft(t)
  {
  }

  lemma DeliveryLeftDecreases(db: Db, t: DeliveryTask, clock: nat)
    requires DeliveryHit(db, t)
    ensures StepsLeft(DeliveryStep(db, t, clock).task) < DeliveryLeft(t)
  {
  }

  /** Every transaction ends within a number of its own steps that is fixed at its start. */
  lemma StepsLeftDecreases(x: Point)
    requires Hit(x.db, x.task)
    ensures StepsLeft(Step(x).task) < StepsLeft(x.task)
  {
    match x.task
    case NewOrder(n) => NewOrderLeftDecreases(x.db, n, x.clock);
    case Payment(p) => PaymentLeftDecreases(x.db, p, x.clock);
    case Delivery(v) => DeliveryLeftDecreases(x.db, v, x.clock);
  }

  datatype Outcome = Missed | Finished(db: Db, clock: nat)

  /** The outcome of a task whose steps nobody interrupts. */
  ghost function Finish(x: Point): Outcome
    decreases StepsLeft(x.task)
  {
    if x.task.Idle? then Finished(x.db, x.clock)
    else if !Hit(x.db, x.task) then Missed
    else StepsLeftDecreases(x); Finish(Step(x))
  }

  lemma Done(x: Point)
    requires x.task.Idle?
    ensures Finish(x) == Finished(x.db, x.clock)
  {
  }

  lemma Onward(x: Point)
    requires !x.task.Idle? && Hit(x.db, x.task)
    ensures Finish(Step(x)) == Finish(x)
  {
  }
}
