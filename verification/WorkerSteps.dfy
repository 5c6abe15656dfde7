/** Every move of every worker keeps the invariant of all of them, so every run does. */
module WorkerSteps {
  import opened Common
  import opened Schema
  import opened OrderedScan
  import opened Engine
  import opened DeliveryScan
  import opened WarehouseView
  import opened WarehouseInvariant
  import opened WarehouseSteps
  import opened Workers

  // ----- rows shared by all workers

  /** The unsigned subtraction never wraps, and the quantity moves by 91 or by the order. */
  lemma RestockKeepsStock(first: nat, s: Stock, quantity: nat, remote: bool)
    requires StockOk(first, s) && 1 <= quantity <= 10
    ensures StockOk(first, Restock(s, quantity, remote))
    ensures Restock(s, quantity, remote).quantity
         == if s.quantity >= quantity + 10 then s.quantity - quantity else s.quantity - quantity + 91
  {
    RestockQuantity(s, quantity, remote);
    Plus91(s.quantity + s.ytd);
  }

  lemma TaskOkLater(cfg: Config, first: map<SKey, nat>, before: map<OLKey, OrderLine>,
                    after: map<OLKey, OrderLine>, t: Task)
    requires TaskOk(cfg, first, before, t) && LinesKept(before, after)
    ensures TaskOk(cfg, first, after, t)
  {
    if t.Delivery? && (t.v.DelWriteLine? || t.v.DelReadCustomer? || t.v.DelWriteCustomer?) {
      CreditKept(before, after, OKey(t.v.a.w, t.v.d, t.v.o), t.v.order.lines);
      hide Credit, LinesThere, SameLine;
    }
  }

  lemma NextLineIsNew(v: View, t: NewOrderTask, clock: nat)
    requires WarehouseInv(v, NewOrder(t), clock) && t.NoInsertLine?
    ensures OLKey(t.a.w, t.a.d, t.row.next, t.i + 1) !in v.lines
  {
  }

  ghost predicate SharedOk(cfg: Config, first: map<SKey, nat>, x: Point)
  {
    && RowsPresent(cfg, x.db) && StockInv(first, x.db.stock) && LineTable(cfg.warehouses, x.db.orderLine)
    && TaskOk(cfg, first, x.db.orderLine, x.task) && Hit(x.db, x.task)
  }

  /** What a move leaves of the rows that other workers rely on. */
  ghost predicate SharedKept(cfg: Config, first: map<SKey, nat>, before: Db, y: Point)
  {
    && RowsPresent(cfg, y.db) && StockInv(first, y.db.stock) && LineTable(cfg.warehouses, y.db.orderLine)
    && TaskOk(cfg, first, y.db.orderLine, y.task)
    && LinesKept(before.orderLine, y.db.orderLine)
  }

  lemma RowsStay(cfg: Config, db: Db, db': Db)
    requires RowsPresent(cfg, db)
    requires db.warehouse.Keys <= db'.warehouse.Keys && db.customer.Keys <= db'.customer.Keys
    requires db.item == db'.item && db.stock.Keys <= db'.stock.Keys
    ensures RowsPresent(cfg, db')
  {
    assert forall k :: k in db.customer ==> k in db'.customer;
    assert forall k :: k in db.stock ==> k in db'.stock;
  }

  lemma PutStock(first: map<SKey, nat>, stock: map<SKey, Stock>, k: SKey, row: Stock)
    requires StockInv(first, stock) && k in first && StockOk(first[k], row)
    ensures StockInv(first, stock[k := row])
  {
  }

  lemma PutLineKeepsLines(lines: map<OLKey, OrderLine>, k: OLKey, line: OrderLine)
    requires k in lines ==> SameLine(lines[k], line)
    ensures LinesKept(lines, lines[k := line])
  {
  }

  /** A new line of a run-time order has a positive amount. */
  lemma PutNewLine(warehouses: nat, lines: map<OLKey, OrderLine>, k: OLKey, line: OrderLine)
    requires LineTable(warehouses, lines) && IsWarehouse(warehouses, k.w) && IsDistrict(k.d)
    requires k.o > LOADED_DELIVERED && 1 <= k.n && line.amount >= 1
    ensures LineTable(warehouses, lines[k := line])
  {
  }

  lemma PutOldLine(warehouses: nat, lines: map<OLKey, OrderLine>, k: OLKey, line: OrderLine)
    requires LineTable(warehouses, lines) && k in lines && SameLine(lines[k], line)
    ensures LineTable(warehouses, lines[k := line])
  {
  }

  lemma ReadStockOk(first: map<SKey, nat>, stock: map<SKey, Stock>, k: SKey)
    requires StockInv(first, stock) && k in stock
    ensures k in first && StockOk(first[k], stock[k])
  {
  }

  lemma SameLinesKept(lines: map<OLKey, OrderLine>)
    ensures LinesKept(lines, lines)
  {
  }

  lemma WrittenStockOk(cfg: Config, first: map<SKey, nat>, db: Db, t: NewOrderTask)
    requires t.NoWriteStock? && StockInv(first, db.stock) && TaskOk(cfg, first, db.orderLine, NewOrder(t))
    ensures var l := t.a.lines[t.i];
            StockInv(first, db.stock[SKey(l.supply, l.item) := Restock(t.stock, l.quantity, l.supply != t.a.w)])
  {
    hide StockInv, StockOk, Restock;
    var l := t.a.lines[t.i];
    assert ValidLine(cfg.warehouses, l);
    var k := SKey(l.supply, l.item);
    RestockKeepsStock(first[k], t.stock, l.quantity, l.supply != t.a.w);
    PutStock(first, db.stock, k, Restock(t.stock, l.quantity, l.supply != t.a.w));
  }

  lemma EnteredLineOk(cfg: Config, db: Db, t: NewOrderTask)
    requires t.NoInsertLine? && LineTable(cfg.warehouses, db.orderLine) && t.i < |t.a.lines|
    requires ValidNewOrder(cfg.warehouses, t.a) && t.price >= 1
    requires t.row.next > LOADED_DELIVERED && OLKey(t.a.w, t.a.d, t.row.next, t.i + 1) !in db.orderLine
    ensures var l := t.a.lines[t.i];
            var lines := db.orderLine[OLKey(t.a.w, t.a.d, t.row.next, t.i + 1)
                                      := OrderLine(l.item, 0, l.quantity * t.price, l.supply, l.quantity)];
            LineTable(cfg.warehouses, lines) && LinesKept(db.orderLine, lines)
  {
    hide LineTable, LinesKept;
    var l := t.a.lines[t.i];
    assert ValidLine(cfg.warehouses, l);
    var k := OLKey(t.a.w, t.a.d, t.row.next, t.i + 1);
    var line := OrderLine(l.item, 0, l.quantity * t.price, l.supply, l.quantity);
    PutLineKeepsLines(db.orderLine, k, line);
    PutNewLine(cfg.warehouses, db.orderLine, k, line);
  }

  lemma NewOrderKeepsShared(cfg: Config, first: map<SKey, nat>, db: Db, t: NewOrderTask, clock: nat)
    requires SharedOk(cfg, first, Point(db, NewOrder(t), clock)) && !Undoing(t)
    requires t.NoReadItem? ==> t.a.lines[t.i].item in db.item && db.item[t.a.lines[t.i].item] >= 1
    requires t.NoInsertLine? ==>
               t.row.next > LOADED_DELIVERED && OLKey(t.a.w, t.a.d, t.row.next, t.i + 1) !in db.orderLine
    ensures SharedKept(cfg, first, db, NewOrderStep(db, t, clock))
  {
    hide RowsPresent, StockInv, LinesKept, StockOk, Restock, LineTable;
    RowsStay(cfg, db, NewOrderStep(db, t, clock).db);
    SameLinesKept(db.orderLine);
    if t.NoReadStock? {
      ReadStockOk(first, db.stock, SKey(t.a.lines[t.i].supply, t.a.lines[t.i].item));
    } else if t.NoWriteStock? {
      WrittenStockOk(cfg, first, db, t);
    } else if t.NoInsertLine? {
      EnteredLineOk(cfg, db, t);
    }
  }

  lemma PaymentKeepsShared(cfg: Config, first: map<SKey, nat>, db: Db, t: PaymentTask, clock: nat)
    requires SharedOk(cfg, first, Point(db, Payment(t), clock))
    ensures SharedKept(cfg, first, db, PaymentStep(db, t, clock))
  {
    hide RowsPresent, StockInv, LinesKept, LineTable;
    RowsStay(cfg, db, PaymentStep(db, t, clock).db);
    SameLinesKept(db.orderLine);
  }

  lemma ScannedRowsLater(before: map<OLKey, OrderLine>, after: map<OLKey, OrderLine>, rows: seq<Row>)
    requires ScannedRows(before, rows) && LinesKept(before, after)
    ensures ScannedRows(after, rows)
  {
  }

  lemma ScanIsCurrent(lines: map<OLKey, OrderLine>, start: OLKey, n: nat)
    ensures ScannedRows(lines, Scan(lines, start, n))
  {
  }

  lemma RowsFrom(rows: seq<Row>, i: nat)
    requires i < |rows|
    ensures RowsTotal(rows[i..]) == rows[i].1.amount + RowsTotal(rows[i + 1..])
  {
    assert rows[i..][1..] == rows[i + 1..];
  }

  /** Collecting one row moves its amount from the rest to the total. */
  lemma CollectRow(warehouses: nat, lines: map<OLKey, OrderLine>, t: DeliveryTask, line: OrderLine, clock: nat)
    requires t.DelWriteLine? && Collecting(lines, t) && LineTable(warehouses, lines)
    requires line == t.rows[t.i].1.(delivered := clock)
    ensures var lines' := lines[t.rows[t.i].0 := line];
            && LineTable(warehouses, lines') && LinesKept(lines, lines')
            && Collecting(lines', NextLine(t.a, t.d, t.o, t.order, t.rows, t.i + 1, t.total + t.rows[t.i].1.amount).v)
  {
    hide Credit, LinesThere, LineTable, ScannedRows, LinesKept, RowsShape, RowsTotal;
    var k := t.rows[t.i].0;
    var lines' := lines[k := line];
    ScannedRow(lines, t.rows, t.i);
    PutOldLine(warehouses, lines, k, line);
    PutLineKeepsLines(lines, k, line);
    CreditKept(lines, lines', OKey(t.a.w, t.d, t.o), t.order.lines);
    ScannedRowsLater(lines, lines', t.rows);
    RowsFrom(t.rows, t.i);
    NoRowsLeft(t.rows, t.i + 1);
  }

  lemma NoRowsLeft(rows: seq<Row>, i: nat)
    requires i <= |rows|
    ensures i == |rows| ==> RowsTotal(rows[i..]) == 0
  {
  }

  lemma ScanCollects(warehouses: nat, lines: map<OLKey, OrderLine>, t: DeliveryTask)
    requires t.DelScanLines? && LineTable(warehouses, lines) && t.order.lines >= LEAST_LINES
    requires NewestLines(lines, OKey(t.a.w, t.d, t.o), t.order.lines)
    ensures var rows := Scan(lines, OLKey(t.a.w, t.d, t.o, 0), SCANNED);
            Collecting(lines, NextLine(t.a, t.d, t.o, t.order, rows, 0, 0).v)
  {
    var rows := Scan(lines, OLKey(t.a.w, t.d, t.o, 0), SCANNED);
    ScanOfNewest(warehouses, lines, OKey(t.a.w, t.d, t.o), t.order.lines);
    ScanShape(warehouses, lines, OKey(t.a.w, t.d, t.o), t.order.lines);
    ScanIsCurrent(lines, OLKey(t.a.w, t.d, t.o, 0), SCANNED);
    assert rows[0..] == rows;
    hide Scan, LineTable, Credit;
  }

  lemma DeliveryKeepsShared(cfg: Config, first: map<SKey, nat>, db: Db, t: DeliveryTask, clock: nat)
    requires SharedOk(cfg, first, Point(db, Delivery(t), clock))
    requires t.DelScanLines? ==>
               t.order.lines >= LEAST_LINES && NewestLines(db.orderLine, OKey(t.a.w, t.d, t.o), t.order.lines)
    ensures SharedKept(cfg, first, db, DeliveryStep(db, t, clock))
  {
    hide RowsPresent, StockInv, LinesKept, ScannedRows, Scan, LineTable, NewestLines, Credit, LinesThere;
    RowsStay(cfg, db, DeliveryStep(db, t, clock).db);
    SameLinesKept(db.orderLine);
    if t.DelScanLines? {
      ScanCollects(cfg.warehouses, db.orderLine, t);
      hide Collecting;
    } else if t.DelWriteLine? {
      CollectRow(cfg.warehouses, db.orderLine, t, t.rows[t.i].1.(delivered := clock), clock);
      hide Collecting;
    }
  }

  lemma ScannedRow(lines: map<OLKey, OrderLine>, rows: seq<Row>, i: nat)
    requires ScannedRows(lines, rows) && i < |rows|
    ensures rows[i].0 in lines && SameLine(rows[i].1, lines[rows[i].0])
  {
  }

  // ----- reads that never miss

  /** What a new order's next step relies on. */
  ghost predicate NewOrderReady(db: Db, t: NewOrderTask)
  {
    && NewOrderHit(db, t) && !Undoing(t)
    && (t.NoReadItem? ==> t.a.lines[t.i].item in db.item && db.item[t.a.lines[t.i].item] >= 1)
    && (t.NoInsertLine? ==>
         t.row.next > LAST_LOADED && OLKey(t.a.w, t.a.d, t.row.next, t.i + 1) !in db.orderLine)
  }

  lemma NewOrderHits(cfg: Config, first: map<SKey, nat>, db: Db, w: nat, t: NewOrderTask, clock: nat)
    requires w in db.warehouse && t.a.w == w && WarehouseInv(ViewOf(db, w), NewOrder(t), clock)
    requires RowsPresent(cfg, db) && TaskOk(cfg, first, db.orderLine, NewOrder(t))
    ensures NewOrderReady(db, t)
  {
    hide Money, Dated, Carriers, PendingOk, LatestOk, Waiting, LineDates;
    if t.NoReadItem? || t.NoReadStock? {
      assert ValidLine(cfg.warehouses, t.a.lines[t.i]);
    } else if t.NoInsertLine? {
      NextLineIsNew(ViewOf(db, w), t, clock);
    } else if t.NoReadDistrict? {
      assert DKey(w, t.a.d) in ViewOf(db, w).district;
    }
  }

  lemma PaymentHits(cfg: Config, first: map<SKey, nat>, db: Db, w: nat, t: PaymentTask, clock: nat)
    requires w in db.warehouse && t.a.w == w && WarehouseInv(ViewOf(db, w), Payment(t), clock)
    requires RowsPresent(cfg, db) && TaskOk(cfg, first, db.orderLine, Payment(t))
    ensures PaymentHit(db, t)
  {
    hide Money, Dated, Ids, Carriers, Lines, PendingOk, LatestOk, Waiting, LineDates;
    assert DKey(w, t.a.d) in ViewOf(db, w).district;
  }

  /** What a delivery's next step relies on. */
  ghost predicate DeliveryReady(db: Db, t: DeliveryTask)
  {
    && DeliveryHit(db, t)
    && (t.DelScanLines? ==>
         t.order.lines >= LEAST_LINES && NewestLines(db.orderLine, OKey(t.a.w, t.d, t.o), t.order.lines))
  }

  lemma DeliveryHits(cfg: Config, first: map<SKey, nat>, db: Db, w: nat, t: DeliveryTask, clock: nat)
    requires w in db.warehouse && t.a.w == w && WarehouseInv(ViewOf(db, w), Delivery(t), clock)
    requires RowsPresent(cfg, db) && TaskOk(cfg, first, db.orderLine, Delivery(t))
    ensures DeliveryReady(db, t)
  {
    hide Money, Dated, Ids, Carriers, Lines, LatestOk, NewestLines, Waiting, LineDates;
    if t.DelReadPending? {
      assert DKey(w, t.d) in ViewOf(db, w).pending;
    } else if t.DelScanLines? {
      HomeNewestLines(db, OKey(w, t.d, t.o), t.order.lines);
    }
  }

  lemma HomeNewestLines(db: Db, k: OKey, n: nat)
    requires k.w in db.warehouse
    requires IsNewest(k.w, ViewOf(db, k.w).order, k.d, k.o) && ViewOf(db, k.w).order[k].lines == n
    requires Lines(ViewOf(db, k.w).order, ViewOf(db, k.w).lines, None, 0)
    ensures NewestLines(db.orderLine, k, n)
  {
    var v := ViewOf(db, k.w);
    assert LineCount(v.order, k, None, 0) == n;
    assert forall l :: l in db.orderLine && l.w == k.w ==> l in v.lines;
    assert forall i: nat :: 1 <= i <= n ==> OLKey(k.w, k.d, k.o, i) in v.lines;
  }

  lemma Owned(cfg: Config, first: map<SKey, nat>, s: State, i: nat, w: nat)
    requires ValidConfig(cfg) && Inv(cfg, first, s) && OwnedBy(cfg, i, w)
    ensures OwnerInv(s.db, s.tasks[i], s.clocks[i], w)
  {
  }

  ghost predicate Ready(db: Db, t: Task)
  {
    match t
    case Idle => false
    case NewOrder(n) => NewOrderReady(db, n)
    case Payment(p) => PaymentHit(db, p)
    case Delivery(v) => DeliveryReady(db, v)
  }

  /** A line of another district that a scan runs into is dated already. */
  lemma SpillIsDated(db: Db, t: Task, clock: nat, w: nat, l: OLKey)
    requires OwnerInv(db, t, clock, w) && l in db.orderLine && l.w == w && l.o == 1
    ensures db.orderLine[l].delivered != 0
  {
    hide Money, Dated, Ids, Carriers, PendingOk, LatestOk, Waiting;
    assert l in ViewOf(db, w).lines;
  }

  lemma LineIsHome(warehouses: nat, lines: map<OLKey, OrderLine>, l: OLKey)
    requires LineTable(warehouses, lines) && l in lines
    ensures IsWarehouse(warehouses, l.w)
  {
  }

  lemma ShapeAt(rows: seq<Row>, k: OKey, n: nat, i: nat)
    requires RowsShape(rows, k, n) && i < |rows|
    ensures rows[i].0.w != k.w ==> rows[i].0.o == 1
  {
  }

  /** The rows that a delivery is about to write back are there, and dated where they are not its own. */
  lemma RowsAreThere(cfg: Config, first: map<SKey, nat>, s: State, i: nat)
    requires ValidConfig(cfg) && Inv(cfg, first, s) && i < cfg.workers && !s.tasks[i].Idle?
    ensures RowsExist(s.db, s.tasks[i])
  {
    hide RowsPresent, StockInv, LineTable, OwnerInv, OwnedBy, RangeOf, NewestLines, Credit, LinesThere, RowsShape,
         ScannedRows;
    if s.tasks[i].Delivery? && s.tasks[i].v.DelWriteLine? {
      var v := s.tasks[i].v;
      assert TaskOk(cfg, first, s.db.orderLine, s.tasks[i]);
      forall j | 0 <= j < |v.rows| ensures RowExists(s.db, v.a.w, v.rows[j].0) {
        var l := v.rows[j].0;
        ScannedRow(s.db.orderLine, v.rows, j);
        ShapeAt(v.rows, OKey(v.a.w, v.d, v.o), v.order.lines, j);
        if l.w != v.a.w {
          LineIsHome(cfg.warehouses, s.db.orderLine, l);
          var owner := OwnerExists(cfg, l.w);
          Owned(cfg, first, s, owner, l.w);
          SpillIsDated(s.db, s.tasks[owner], s.clocks[owner], l.w, l);
        }
      }
    }
  }

  lemma ScanIsOk(cfg: Config, first: map<SKey, nat>, db: Db, t: DeliveryTask)
    requires LineTable(cfg.warehouses, db.orderLine) && TaskOk(cfg, first, db.orderLine, Delivery(t))
    requires DeliveryReady(db, t)
    ensures ScanOk(db, Delivery(t))
  {
    hide LineTable, NewestLines, RowsShape, Scan, ScannedRows, Credit, LinesThere;
    if t.DelScanLines? {
      ScanShape(cfg.warehouses, db.orderLine, OKey(t.a.w, t.d, t.o), t.order.lines);
    }
  }

  /** A busy worker's next read finds its row, and a line it is about to enter is new. */
  lemma BusyHits(cfg: Config, first: map<SKey, nat>, s: State, i: nat)
    requires ValidConfig(cfg) && Inv(cfg, first, s) && i < cfg.workers && !s.tasks[i].Idle?
    ensures Hit(s.db, s.tasks[i]) && RowsExist(s.db, s.tasks[i]) && Ready(s.db, s.tasks[i])
    ensures s.clocks[i] != 0
    ensures NoWrap(PointOf(s, i)) ==>
              var w := WarehouseOf(s.tasks[i]);
              w in s.db.warehouse && At(s.db, ViewOf(s.db, w), s.tasks[i], s.clocks[i])
    ensures SharedOk(cfg, first, PointOf(s, i))
  {
    hide ViewOf, OwnedBy, Money, Dated, Ids, Carriers, Lines, PendingOk, LatestOk, RowsPresent, StockInv, LineTable,
         NewestLines, Credit, LinesThere, Waiting, LineDates, RowsExist, ScanOk, RowsShape;
    var w := WarehouseOf(s.tasks[i]);
    assert OwnedBy(cfg, i, w);
    Owned(cfg, first, s, i, w);
    RowsAreThere(cfg, first, s, i);
    match s.tasks[i]
    case NewOrder(n) =>
      NewOrderHits(cfg, first, s.db, w, n, s.clocks[i]);
      OnlyDeliveriesScan(s.db, s.tasks[i]);
    case Payment(p) =>
      PaymentHits(cfg, first, s.db, w, p, s.clocks[i]);
      OnlyDeliveriesScan(s.db, s.tasks[i]);
    case Delivery(v) =>
      DeliveryHits(cfg, first, s.db, w, v, s.clocks[i]);
      ScanIsOk(cfg, first, s.db, v);
  }

  lemma OnlyDeliveriesScan(db: Db, t: Task)
    requires !t.Delivery?
    ensures ScanOk(db, t)
  {
  }

  // ----- moves

  /** Where nothing is under way, only the clock may have advanced. */
  lemma IdleLater(v: View, clock: nat, clock': nat)
    requires WarehouseInv(v, Idle, clock) && clock <= clock'
    ensures WarehouseInv(v, Idle, clock')
  {
    hide Money, Ids, Carriers, Lines, PendingOk, LatestOk, Waiting, LineDates;
  }

  lemma StartKeeps(cfg: Config, v: View, start: Task, clock: nat)
    requires WarehouseInv(v, Idle, clock) && clock + 1 < TWO32
    requires ValidStart(cfg.warehouses, start, clock) && WarehouseOf(start) == v.w
    ensures WarehouseInv(v, start, ClockAfterStart(start, clock))
  {
    hide Money, Ids, Carriers, Lines, PendingOk, LatestOk, Waiting, LineDates;
  }

  lemma StepStays(x: Point)
    requires Hit(x.db, x.task) && x.clock + 1 < TWO32
    ensures Step(x).task.Idle? || WarehouseOf(Step(x).task) == WarehouseOf(x.task)
    ensures x.clock <= Step(x).clock
  {
    match x.task
    case NewOrder(n) => NewOrderStays(x.db, n, x.clock);
    case Payment(p) =>
    case Delivery(v) => DeliveryStays(x.db, v, x.clock);
  }

  lemma NewOrderStays(db: Db, t: NewOrderTask, clock: nat)
    requires NewOrderHit(db, t) && clock + 1 < TWO32
    ensures var y := NewOrderStep(db, t, clock);
            (y.task.Idle? || WarehouseOf(y.task) == t.a.w) && clock <= y.clock
  {
  }

  lemma DeliveryStays(db: Db, t: DeliveryTask, clock: nat)
    requires DeliveryHit(db, t) && clock + 1 < TWO32
    ensures var y := DeliveryStep(db, t, clock);
            (y.task.Idle? || WarehouseOf(y.task) == t.a.w) && clock <= y.clock
  {
  }

  /** What a move does to the shared rows, seen from all workers. */
  lemma MoveKeepsShared(cfg: Config, first: map<SKey, nat>, s: State, m: Move)
    requires ValidConfig(cfg) && Inv(cfg, first, s) && CanMove(cfg, s, m)
    ensures SharedKept(cfg, first, s.db, MoveResult(s, m))
  {
    hide RowsPresent, StockInv, LineTable, OwnerInv, LineTable, LinesKept, Collecting, NewestLines, At, RowsExist, OwnedBy;
    hide NewOrderStep, PaymentStep, DeliveryStep;
    var t := s.tasks[m.worker];
    if t.Idle? {
      SameLinesKept(s.db.orderLine);
    } else {
      BusyHits(cfg, first, s, m.worker);
      match t
      case NewOrder(n) => NewOrderKeepsShared(cfg, first, s.db, n, s.clocks[m.worker]);
      case Payment(p) => PaymentKeepsShared(cfg, first, s.db, p, s.clocks[m.worker]);
      case Delivery(v) => DeliveryKeepsShared(cfg, first, s.db, v, s.clocks[m.worker]);
    }
  }

  /** What a move does to the warehouse `w` of worker `i`. */
  lemma MoveKeepsOwner(cfg: Config, first: map<SKey, nat>, s: State, m: Move, i: nat, w: nat)
    requires ValidConfig(cfg) && Inv(cfg, first, s) && CanMove(cfg, s, m) && OwnedBy(cfg, i, w)
    ensures var s' := After(cfg, s, m); OwnerInv(s'.db, s'.tasks[i], s'.clocks[i], w)
  {
    hide RowsPresent, StockInv, LineTable, Ready, WarehouseInv, OwnedBy, TaskOk, Step, Effect;
    Owned(cfg, first, s, i, w);
    var j := m.worker;
    OwnerIsUnique(cfg, i, i, w);
    if s.tasks[j].Idle? {
      if i == j {
        if WarehouseOf(m.start) == w {
          StartKeeps(cfg, ViewOf(s.db, w), m.start, s.clocks[j]);
        } else {
          IdleLater(ViewOf(s.db, w), s.clocks[j], ClockAfterStart(m.start, s.clocks[j]));
        }
      }
    } else {
      BusyHits(cfg, first, s, j);
      var x := PointOf(s, j);
      StepStays(x);
      StepView(x, w);
      if WarehouseOf(x.task) == w {
        OwnerIsUnique(cfg, i, j, w);
        StepKeepsWarehouse(x, w);
      } else if i == j {
        IdleLater(ViewOf(s.db, w), x.clock, Step(x).clock);
      }
    }
  }

  lemma MoveStays(cfg: Config, first: map<SKey, nat>, s: State, m: Move)
    requires ValidConfig(cfg) && Inv(cfg, first, s) && CanMove(cfg, s, m)
    ensures var t := MoveResult(s, m).task; t.Idle? || OwnedBy(cfg, m.worker, WarehouseOf(t))
  {
    hide RowsPresent, StockInv, LineTable, OwnerInv, OwnedBy, TaskOk, Step;
    if !s.tasks[m.worker].Idle? {
      BusyHits(cfg, first, s, m.worker);
      StepStays(PointOf(s, m.worker));
    }
  }

  lemma MoveKeepsTask(cfg: Config, first: map<SKey, nat>, s: State, m: Move, i: nat)
    requires ValidConfig(cfg) && Inv(cfg, first, s) && CanMove(cfg, s, m) && i < cfg.workers
    ensures var s' := After(cfg, s, m); TaskOk(cfg, first, s'.db.orderLine, s'.tasks[i])
  {
    hide RowsPresent, StockInv, LineTable, OwnerInv, OwnedBy, TaskOk, LinesKept, Step;
    MoveKeepsShared(cfg, first, s, m);
    if i != m.worker {
      TaskOkLater(cfg, first, s.db.orderLine, MoveResult(s, m).db.orderLine, s.tasks[i]);
    }
  }

  /** The invariant survives every move of every worker. */
  lemma MoveKeepsInv(cfg: Config, first: map<SKey, nat>, s: State, m: Move)
    requires ValidConfig(cfg) && Inv(cfg, first, s) && CanMove(cfg, s, m)
    ensures Inv(cfg, first, After(cfg, s, m))
  {
    hide RowsPresent, StockInv, LineTable, OwnerInv, RangeOf, TaskOk, LinesKept, Step, Hit, NoWrap, ValidStart, WarehouseOf;
    var s' := After(cfg, s, m);
    forall i: nat | i < cfg.workers ensures TaskOk(cfg, first, s'.db.orderLine, s'.tasks[i]) {
      MoveKeepsTask(cfg, first, s, m, i);
    }
    forall i: nat, w: nat | OwnedBy(cfg, i, w) ensures OwnerInv(s'.db, s'.tasks[i], s'.clocks[i], w) {
      MoveKeepsOwner(cfg, first, s, m, i, w);
    }
    MoveKeepsShared(cfg, first, s, m);
    MoveStays(cfg, first, s, m);
  }

  /** ... and so it holds in every state of every interleaved run. */
  lemma {:induction false} RunKeepsInv(cfg: Config, first: map<SKey, nat>, s: State, moves: seq<Move>)
    requires ValidConfig(cfg) && Inv(cfg, first, s) && IsRun(cfg, s, moves)
    ensures Inv(cfg, first, Run(cfg, s, moves))
    decreases |moves|
  {
    if moves != [] {
      MoveKeepsInv(cfg, first, s, moves[0]);
      RunKeepsInv(cfg, first, After(cfg, s, moves[0]), moves[1..]);
    }
  }
}
