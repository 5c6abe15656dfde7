/**
 What deliveries owe a customer, read off the tables: the amounts of the dated lines of the
 customer's orders. In every state of every interleaved run they are what deliveries have
 credited and what those under way are about to credit.
 */
module DeliveredMoney {
  import opened Totals
  import opened Schema
  import opened OrderedScan
  import opened Engine
  import opened DeliveryScan
  import opened WarehouseView
  import opened WarehouseInvariant
  import opened WarehouseSteps
  import opened Workers
  import opened WorkerSteps
  import opened LoadedState
  import opened Consistency
  import opened CustomerMoney

  // ----- the lines that count

  type LineRows = map<OLKey, OrderLine>

  /** Line `l` belongs to an order of the customer. */
  predicate IsLineFor(order: Orders, l: OLKey, ck: CKey)
  {
    var k := OKey(l.w, l.d, l.o);
    k in order && l.w == ck.w && l.d == ck.d && order[k].c == ck.c
  }

  predicate IsDatedFor(order: Orders, lines: LineRows, l: OLKey, ck: CKey)
  {
    l in lines && IsLineFor(order, l, ck) && lines[l].delivered != 0
  }

  /** The amounts of the customer's delivered lines: OL_DELIVERY_D is set. */
  ghost function DatedLines(order: Orders, lines: LineRows, ck: CKey): map<OLKey, int>
  {
    map l | l in lines && IsDatedFor(order, lines, l, ck) :: lines[l].amount
  }

  /** What a delivery has collected and not yet put on the customer's row. */
  function UnderWayOf(t: Task, ck: CKey): int
  {
    if t.Delivery? && (t.v.DelWriteLine? || t.v.DelReadCustomer? || t.v.DelWriteCustomer?)
       && CKey(t.v.a.w, t.v.d, t.v.order.c) == ck
    then t.v.total else 0
  }

  ghost function UnderWay(tasks: seq<Task>, ck: CKey): int
  {
    if tasks == [] then 0 else UnderWayOf(tasks[0], ck) + UnderWay(tasks[1..], ck)
  }

  lemma {:induction false} UnderWayUpdate(tasks: seq<Task>, i: nat, t: Task, ck: CKey)
    requires i < |tasks|
    ensures UnderWay(tasks[i := t], ck) == UnderWay(tasks, ck) - UnderWayOf(tasks[i], ck) + UnderWayOf(t, ck)
  {
    if i == 0 {
      assert tasks[i := t][1..] == tasks[1..];
    } else {
      assert tasks[i := t][1..] == tasks[1..][i - 1 := t];
      UnderWayUpdate(tasks[1..], i - 1, t, ck);
    }
  }

  lemma {:induction false} NothingUnderWay(tasks: seq<Task>, ck: CKey)
    requires forall i :: 0 <= i < |tasks| ==> UnderWayOf(tasks[i], ck) == 0
    ensures UnderWay(tasks, ck) == 0
  {
    if tasks != [] {
      NothingUnderWay(tasks[1..], ck);
    }
  }

  function CreditOf(t: Task, ck: CKey): int
  {
    if WritesCustomer(t) && t.Delivery? && CustomerWritten(t) == ck then t.v.total else 0
  }

  // ----- one table write

  lemma InsertOrderDates(order: Orders, lines: LineRows, k: OKey, row: Order, ck: CKey)
    requires k !in order && forall l :: l in lines ==> OKey(l.w, l.d, l.o) != k
    ensures DatedLines(order[k := row], lines, ck) == DatedLines(order, lines, ck)
  {
  }

  lemma MarkOrderDates(order: Orders, lines: LineRows, k: OKey, row: Order, ck: CKey)
    requires k in order && order[k].c == row.c
    ensures DatedLines(order[k := row], lines, ck) == DatedLines(order, lines, ck)
  {
    assert forall l :: IsLineFor(order[k := row], l, ck) <==> IsLineFor(order, l, ck);
  }

  lemma InsertLineDates(order: Orders, lines: LineRows, l: OLKey, line: OrderLine, ck: CKey)
    requires l !in lines && line.delivered == 0
    ensures DatedLines(order, lines[l := line], ck) == DatedLines(order, lines, ck)
  {
  }

  /** Dating a line adds its amount once. */
  lemma DateLineDates(order: Orders, lines: LineRows, l: OLKey, line: OrderLine, ck: CKey)
    requires l in lines && SameLine(line, lines[l]) && line.delivered != 0
    ensures Total(DatedLines(order, lines[l := line], ck))
         == Total(DatedLines(order, lines, ck))
            + if lines[l].delivered == 0 && IsLineFor(order, l, ck) then line.amount else 0
  {
    var before, after := DatedLines(order, lines, ck), DatedLines(order, lines[l := line], ck);
    if lines[l].delivered == 0 && IsLineFor(order, l, ck) {
      assert after == before[l := line.amount];
      TotalInsert(before, l, line.amount);
    } else {
      assert after == before;
    }
  }

  // ----- one step

  /** A line of its own order that delivery has not written back yet is not dated. */
  lemma OwnLineIsUndated(db: Db, t: DeliveryTask, clock: nat, l: OLKey)
    requires OwnerInv(db, Delivery(t), clock, t.a.w) && t.DelWriteLine?
    requires l in db.orderLine && l == LineKey(OKey(t.a.w, t.d, t.o), t.i + 1) && t.i < SCANNED
    ensures db.orderLine[l].delivered == 0
  {
    hide Money, Dated, Carriers, Lines, LatestOk, Waiting;
    var w := t.a.w;
    var v := ViewOf(db, w);
    NewestIsNotOld(w, v.district, v.order, v.pending, t.d);
    assert l in v.lines && OKey(w, t.d, t.o) in v.order;
  }

  /** The order in hand is in the table, as it was read. */
  lemma OrderInHand(db: Db, t: DeliveryTask, clock: nat)
    requires OwnerInv(db, Delivery(t), clock, t.a.w)
    requires !t.DelReadPending? && !t.DelReadNewOrder? && !t.DelReadOrder?
    ensures var k := OKey(t.a.w, t.d, t.o); k in db.order && db.order[k] == t.order && t.o >= LAST_LOADED
  {
    hide Money, Dated, Carriers, Lines, LatestOk, Waiting, LineDates;
    var v := ViewOf(db, t.a.w);
    NewestIsNotOld(t.a.w, v.district, v.order, v.pending, t.d);
    assert OKey(t.a.w, t.d, t.o) in v.order;
  }

  lemma LoadedLineIsFree(warehouses: nat, lines: LineRows, l: OLKey)
    requires LineTable(warehouses, lines) && l in lines && l.o == 1
    ensures lines[l].amount == 0
  {
  }

  lemma ShapeOf(rows: seq<Row>, k: OKey, n: nat, i: nat)
    requires RowsShape(rows, k, n) && i < |rows|
    ensures i < SCANNED
    ensures rows[i].0 == LineKey(k, i + 1) || rows[i].0.o == 1
  {
  }

  /** Writing back a scanned row dates as much as it collects. */
  lemma WriteLineDates(warehouses: nat, db: Db, t: DeliveryTask, clock: nat, ck: CKey)
    requires t.DelWriteLine? && DeliveryHit(db, t) && clock != 0
    requires OwnerInv(db, Delivery(t), clock, t.a.w) && LineTable(warehouses, db.orderLine)
    requires Collecting(db.orderLine, t)
    requires t.rows[t.i].0.o == 1 ==> t.rows[t.i].0 in db.orderLine && db.orderLine[t.rows[t.i].0].delivered != 0
    ensures Total(DatedLines(db.order, DeliveryStep(db, t, clock).db.orderLine, ck))
         == Total(DatedLines(db.order, db.orderLine, ck))
            + if CKey(t.a.w, t.d, t.order.c) == ck then t.rows[t.i].1.amount else 0
  {
    hide OwnerInv, LineTable, RowsShape, ScannedRows, LinesThere, Credit, DatedLines, Total;
    var l, k := t.rows[t.i].0, OKey(t.a.w, t.d, t.o);
    ScannedRow(db.orderLine, t.rows, t.i);
    ShapeOf(t.rows, k, t.order.lines, t.i);
    OrderInHand(db, t, clock);
    DateLineDates(db.order, db.orderLine, l, t.rows[t.i].1.(delivered := clock), ck);
    if l.o == 1 {
      LoadedLineIsFree(warehouses, db.orderLine, l);
    } else {
      OwnLineIsUndated(db, t, clock, l);
    }
  }

  lemma PaymentDates(db: Db, t: PaymentTask, clock: nat, ck: CKey)
    requires PaymentHit(db, t)
    ensures var x := PaymentStep(db, t, clock);
            && x.db.order == db.order && x.db.orderLine == db.orderLine
            && UnderWayOf(x.task, ck) == 0
  {
  }

  lemma EnterOrderDates(db: Db, t: NewOrderTask, clock: nat, ck: CKey)
    requires NewOrderIsFresh(db, t) && t.NoInsertOrder?
    ensures DatedLines(NewOrderStep(db, t, clock).db.order, db.orderLine, ck) == DatedLines(db.order, db.orderLine, ck)
  {
    hide DatedLines, AllLocal;
    var k := NewKey(t.a, t.row);
    assert forall l :: l in db.orderLine && OKey(l.w, l.d, l.o) == k ==> l in LineKeys(db, k);
    InsertOrderDates(db.order, db.orderLine, k, Order(t.a.c, 0, |t.a.lines|, AllLocal(t.a), clock), ck);
  }

  lemma EnterLineDates(db: Db, t: NewOrderTask, clock: nat, ck: CKey)
    requires NewOrderReady(db, t) && t.NoInsertLine?
    ensures DatedLines(db.order, NewOrderStep(db, t, clock).db.orderLine, ck) == DatedLines(db.order, db.orderLine, ck)
  {
    hide DatedLines;
    var l := t.a.lines[t.i];
    InsertLineDates(db.order, db.orderLine, OLKey(t.a.w, t.a.d, t.row.next, t.i + 1),
                    OrderLine(l.item, 0, l.quantity * t.price, l.supply, l.quantity), ck);
  }

  lemma NewOrderDates(db: Db, t: NewOrderTask, clock: nat, ck: CKey)
    requires NewOrderReady(db, t) && NewOrderIsFresh(db, t)
    ensures var x := NewOrderStep(db, t, clock);
            && DatedLines(x.db.order, x.db.orderLine, ck) == DatedLines(db.order, db.orderLine, ck)
            && UnderWayOf(x.task, ck) == 0
  {
    hide DatedLines, NewOrderIsFresh, AllLocal;
    if t.NoInsertOrder? {
      EnterOrderDates(db, t, clock, ck);
    } else if t.NoInsertLine? {
      EnterLineDates(db, t, clock, ck);
    }
  }

  lemma DeliveryDates(warehouses: nat, db: Db, t: DeliveryTask, clock: nat, ck: CKey)
    requires DeliveryHit(db, t) && clock != 0
    requires OwnerInv(db, Delivery(t), clock, t.a.w) && LineTable(warehouses, db.orderLine)
    requires t.DelWriteLine? ==>
               && Collecting(db.orderLine, t)
               && (t.rows[t.i].0.o == 1 ==>
                    t.rows[t.i].0 in db.orderLine && db.orderLine[t.rows[t.i].0].delivered != 0)
    ensures var x := DeliveryStep(db, t, clock);
            Total(DatedLines(x.db.order, x.db.orderLine, ck)) - UnderWayOf(x.task, ck)
            == Total(DatedLines(db.order, db.orderLine, ck)) - UnderWayOf(Delivery(t), ck) + CreditOf(Delivery(t), ck)
  {
    hide OwnerInv, LineTable, Collecting, DatedLines, Total, Scan;
    if t.DelWriteLine? {
      WriteLineDates(warehouses, db, t, clock, ck);
    } else if t.DelWriteOrder? {
      OrderInHand(db, t, clock);
      MarkOrderDates(db.order, db.orderLine, OKey(t.a.w, t.d, t.o), t.order.(carrier := t.a.carrier), ck);
    }
  }

  // ----- moves and runs

  /** A scanned line of an order 1 is dated already. */
  lemma SpillsAreDated(cfg: Config, first: map<SKey, nat>, s: State, i: nat)
    requires ValidConfig(cfg) && Inv(cfg, first, s) && i < cfg.workers
    requires s.tasks[i].Delivery? && s.tasks[i].v.DelWriteLine?
    ensures var t := s.tasks[i].v;
            Collecting(s.db.orderLine, t)
            && (t.rows[t.i].0.o == 1 ==>
                 t.rows[t.i].0 in s.db.orderLine && s.db.orderLine[t.rows[t.i].0].delivered != 0)
  {
    hide RowsPresent, StockInv, LineTable, OwnerInv, OwnedBy, RangeOf, LinesThere, Credit, RowsShape, ScannedRows;
    var t := s.tasks[i].v;
    assert TaskOk(cfg, first, s.db.orderLine, s.tasks[i]);
    var l := t.rows[t.i].0;
    ScannedRow(s.db.orderLine, t.rows, t.i);
    if l.o == 1 {
      LineIsHome(cfg.warehouses, s.db.orderLine, l);
      var owner := OwnerExists(cfg, l.w);
      Owned(cfg, first, s, owner, l.w);
      SpillIsDated(s.db, s.tasks[owner], s.clocks[owner], l.w, l);
    }
  }

  lemma StartHasNothingUnderWay(cfg: Config, start: Task, clock: nat, ck: CKey)
    requires ValidStart(cfg.warehouses, start, clock)
    ensures UnderWayOf(start, ck) == 0
  {
  }

  lemma StepDates(cfg: Config, first: map<SKey, nat>, s: State, i: nat, ck: CKey)
    requires ValidConfig(cfg) && Inv(cfg, first, s) && i < cfg.workers && !s.tasks[i].Idle?
    ensures Hit(s.db, s.tasks[i])
    ensures var x, t := Step(PointOf(s, i)), s.tasks[i];
            Total(DatedLines(x.db.order, x.db.orderLine, ck)) - UnderWayOf(x.task, ck)
            == Total(DatedLines(s.db.order, s.db.orderLine, ck)) - UnderWayOf(t, ck) + CreditOf(t, ck)
  {
    hide RowsPresent, StockInv, LineTable, OwnerInv, OwnedBy, RangeOf, TaskOk, DatedLines, Total, NewOrderStep, PaymentStep,
         DeliveryStep, NewOrderReady, NewOrderIsFresh, DeliveryReady, RowsExist, SharedOk, At, Collecting;
    BusyHits(cfg, first, s, i);
    BusyProceeds(cfg, first, s, i);
    Owned(cfg, first, s, i, WarehouseOf(s.tasks[i]));
    match s.tasks[i]
    case NewOrder(n) => NewOrderDates(s.db, n, s.clocks[i], ck);
    case Payment(p) => PaymentDates(s.db, p, s.clocks[i], ck);
    case Delivery(v) =>
      if v.DelWriteLine? {
        SpillsAreDated(cfg, first, s, i);
      }
      DeliveryDates(cfg.warehouses, s.db, v, s.clocks[i], ck);
  }

  /** Dated lines less what is under way grow by what the move credits to the customer's row. */
  lemma MoveDates(cfg: Config, first: map<SKey, nat>, s: State, m: Move, ck: CKey)
    requires ValidConfig(cfg) && Inv(cfg, first, s) && CanMove(cfg, s, m)
    ensures var s' := After(cfg, s, m);
            Total(DatedLines(s'.db.order, s'.db.orderLine, ck)) - UnderWay(s'.tasks, ck)
            == Total(DatedLines(s.db.order, s.db.orderLine, ck)) - UnderWay(s.tasks, ck)
               + CreditOf(s.tasks[m.worker], ck)
  {
    hide Inv, UnderWay, DatedLines, Total, Step, Hit, NoWrap, ValidStart;
    UnderWayUpdate(s.tasks, m.worker, MoveResult(s, m).task, ck);
    WorkerIsThere(cfg, s, m);
    if s.tasks[m.worker].Idle? {
      StartHasNothingUnderWay(cfg, m.start, s.clocks[m.worker], ck);
    } else {
      StepDates(cfg, first, s, m.worker, ck);
    }
  }

  /** What a run credits to a customer by deliveries. */
  ghost function Credits(cfg: Config, s: State, moves: seq<Move>, ck: CKey): int
    requires ValidConfig(cfg) && IsRun(cfg, s, moves)
    decreases |moves|
  {
    if moves == [] then 0
    else CreditOf(s.tasks[moves[0].worker], ck) + Credits(cfg, After(cfg, s, moves[0]), moves[1..], ck)
  }

  lemma {:induction false} RunDates(cfg: Config, first: map<SKey, nat>, s: State, moves: seq<Move>, ck: CKey)
    requires ValidConfig(cfg) && Inv(cfg, first, s) && IsRun(cfg, s, moves)
    ensures var s' := Run(cfg, s, moves);
            Total(DatedLines(s'.db.order, s'.db.orderLine, ck)) - UnderWay(s'.tasks, ck)
            == Total(DatedLines(s.db.order, s.db.orderLine, ck)) - UnderWay(s.tasks, ck) + Credits(cfg, s, moves, ck)
    decreases |moves|
  {
    if moves != [] {
      hide Inv, DatedLines, Total, UnderWay, CreditOf;
      MoveDates(cfg, first, s, moves[0], ck);
      MoveKeepsInv(cfg, first, s, moves[0]);
      RunDates(cfg, first, After(cfg, s, moves[0]), moves[1..], ck);
    }
  }

  lemma {:induction false} TotalOfZeros<K>(m: map<K, int>)
    requires forall k :: k in m ==> m[k] == 0
    ensures Total(m) == 0
    decreases |m|
  {
    if m != map[] {
      var k :| k in m;
      TotalRemove(m, k);
      TotalOfZeros(m - {k});
    }
  }

  lemma InitDates(cfg: Config, s0: State, ck: CKey)
    requires Init(cfg, s0)
    ensures Total(DatedLines(s0.db.order, s0.db.orderLine, ck)) == 0 && UnderWay(s0.tasks, ck) == 0
  {
    hide LoadedWarehouse, LoadedDistrict, LoadedCustomer, LoadedHistory, LoadedItem, LoadedStock, LoadedPending,
         LoadedLatest, LoadedNewOrder, LoadedOrder;
    TotalOfZeros(DatedLines(s0.db.order, s0.db.orderLine, ck));
    NothingUnderWay(s0.tasks, ck);
  }

  /** In every interleaved run, lost updates included: credits made and under way are the dated lines. */
  lemma CreditsAreDatedLines(cfg: Config, s0: State, moves: seq<Move>, ck: CKey)
    requires Init(cfg, s0) && IsRun(cfg, s0, moves)
    ensures var s := Run(cfg, s0, moves);
            Credits(cfg, s0, moves, ck) + UnderWay(s.tasks, ck) == Total(DatedLines(s.db.order, s.db.orderLine, ck))
  {
    hide Inv, IsRun, Run, Credits, DatedLines, Total, UnderWay, Loaded;
    InitIsInv(cfg, s0);
    InitDates(cfg, s0, ck);
    RunDates(cfg, FirstQuantities(s0.db), s0, moves, ck);
  }

  // ----- what a delivery adds

  /** A delivery about to credit a run-time order credits something. */
  lemma CreditIsPositive(cfg: Config, first: map<SKey, nat>, s: State, i: nat)
    requires ValidConfig(cfg) && Inv(cfg, first, s) && i < cfg.workers
    requires s.tasks[i].Delivery? && s.tasks[i].v.DelWriteCustomer?
    ensures s.tasks[i].v.total > 0
  {
    hide RowsPresent, StockInv, LineTable, OwnedBy, LineSum, OwnerInv;
    var t := s.tasks[i].v;
    Owned(cfg, first, s, i, t.a.w);
    OrderInHand(s.db, t, s.clocks[i]);
    HandHasLines(s.db, t, s.clocks[i]);
    assert TaskOk(cfg, first, s.db.orderLine, s.tasks[i]);
    SumPositive(cfg.warehouses, s.db.orderLine, OKey(t.a.w, t.d, t.o), 1, Min(t.order.lines, SCANNED));
  }

  lemma HandHasLines(db: Db, t: DeliveryTask, clock: nat)
    requires OwnerInv(db, Delivery(t), clock, t.a.w) && t.DelWriteCustomer?
    ensures t.order.lines >= 5
  {
    hide Money, Dated, Ids, Carriers, Lines, PendingOk, LatestOk, Waiting, LineDates;
  }

  // ----- whole orders

  predicate IsDeliveredFor(order: Orders, l: OLKey, ck: CKey)
  {
    IsLineFor(order, l, ck) && order[OKey(l.w, l.d, l.o)].carrier != 0
  }

  /** All lines of the customer's delivered orders. */
  ghost function DeliveredLines(order: Orders, lines: LineRows, ck: CKey): map<OLKey, int>
  {
    map l | l in lines && IsDeliveredFor(order, l, ck) :: lines[l].amount
  }

  /** An order of the customer that delivery has credited only in part. */
  ghost predicate IsCutOff(order: Orders, k: OKey, ck: CKey)
  {
    && k in order && k.w == ck.w && k.d == ck.d && order[k].c == ck.c
    && order[k].carrier != 0 && k.o > LOADED_DELIVERED && order[k].lines > SCANNED
  }

  lemma {:induction false} TotalOfPositives<K>(m: map<K, int>)
    requires forall k :: k in m ==> m[k] >= 1
    ensures Total(m) >= |m|
    decreases |m|
  {
    if m != map[] {
      var k :| k in m;
      TotalRemove(m, k);
      TotalOfPositives(m - {k});
    }
  }

  lemma PositiveAmount(warehouses: nat, lines: LineRows, l: OLKey)
    requires LineTable(warehouses, lines) && l in lines && l.o > LOADED_DELIVERED
    ensures lines[l].amount >= 1
  {
  }

  /** The lines of delivered orders that no delivery has dated. */
  ghost function UndatedLines(order: Orders, lines: LineRows, ck: CKey): map<OLKey, int>
  {
    map l | l in lines && IsDeliveredFor(order, l, ck) && l.o > LOADED_DELIVERED && l.n > SCANNED :: lines[l].amount
  }

  lemma LinesSplit(cfg: Config, s0: State, moves: seq<Move>, ck: CKey)
    requires Init(cfg, s0) && IsRun(cfg, s0, moves)
    requires DistrictAtRest(Run(cfg, s0, moves), ck.w, ck.d)
    ensures var db := Run(cfg, s0, moves).db;
            var dated, rest := DatedLines(db.order, db.orderLine, ck), UndatedLines(db.order, db.orderLine, ck);
            dated.Keys !! rest.Keys && DeliveredLines(db.order, db.orderLine, ck) == dated + rest
  {
    hide IsRun, Run, Loaded, DistrictAtRest;
    var s := Run(cfg, s0, moves);
    forall l | l in s.db.orderLine && IsLineFor(s.db.order, l, ck)
      ensures IsDatedFor(s.db.order, s.db.orderLine, l, ck)
         <==> IsDeliveredFor(s.db.order, l, ck) && !(l.o > LOADED_DELIVERED && l.n > SCANNED)
    {
      RestInDistrict(s, OKey(l.w, l.d, l.o));
      LineIsDated(cfg, s0, moves, l);
      LoadedIsDelivered(cfg, s0, moves, l);
    }
  }

  lemma UndatedAreCutOff(cfg: Config, s0: State, moves: seq<Move>, ck: CKey)
    requires Init(cfg, s0) && IsRun(cfg, s0, moves)
    requires IsWarehouse(cfg.warehouses, ck.w) && DistrictAtRest(Run(cfg, s0, moves), ck.w, ck.d)
    ensures var db := Run(cfg, s0, moves).db;
            UndatedLines(db.order, db.orderLine, ck) == map[] <==> forall k :: !IsCutOff(db.order, k, ck)
  {
    hide IsRun, Run, Loaded, DistrictAtRest;
    var s := Run(cfg, s0, moves);
    var db := s.db;
    var rest := UndatedLines(db.order, db.orderLine, ck);
    if k :| IsCutOff(db.order, k, ck) {
      RestInDistrict(s, k);
      LinesMatchCount(cfg, s0, moves, k);
      assert OLKey(k.w, k.d, k.o, SCANNED + 1) in LineKeys(db, k);
      assert OLKey(k.w, k.d, k.o, SCANNED + 1) in rest;
    }
    if l :| l in rest {
      var k := OKey(l.w, l.d, l.o);
      RestInDistrict(s, k);
      LinesMatchCount(cfg, s0, moves, k);
      assert l in LineKeys(db, k);
      assert IsCutOff(db.order, k, ck);
    }
  }

  /**
   The dated lines are the whole amount of the customer's delivered orders if and only if
   none of them was delivered at run time with more than ten lines.
   */
  lemma WholeOrdersExactly(cfg: Config, s0: State, moves: seq<Move>, ck: CKey)
    requires Init(cfg, s0) && IsRun(cfg, s0, moves)
    requires IsWarehouse(cfg.warehouses, ck.w) && DistrictAtRest(Run(cfg, s0, moves), ck.w, ck.d)
    ensures var db := Run(cfg, s0, moves).db;
            Total(DatedLines(db.order, db.orderLine, ck)) == Total(DeliveredLines(db.order, db.orderLine, ck))
            <==> forall k :: !IsCutOff(db.order, k, ck)
  {
    hide IsRun, Run, Loaded, DistrictAtRest, LineTable, Total, RowsPresent, StockInv, TaskOk, OwnerInv, DatedLines,
         DeliveredLines;
    var db := Run(cfg, s0, moves).db;
    var rest := UndatedLines(db.order, db.orderLine, ck);
    RunInv(cfg, s0, moves);
    LinesSplit(cfg, s0, moves, ck);
    UndatedAreCutOff(cfg, s0, moves, ck);
    TotalDisjoint(DatedLines(db.order, db.orderLine, ck), rest);
    forall l | l in rest ensures rest[l] >= 1 {
      PositiveAmount(cfg.warehouses, db.orderLine, l);
    }
    TotalOfPositives(rest);
    NoTotal<OLKey>();
  }

  lemma NoTotal<K>()
    ensures Total<K>(map[]) == 0
  {
  }

  lemma LoadedIsDelivered(cfg: Config, s0: State, moves: seq<Move>, l: OLKey)
    requires Init(cfg, s0) && IsRun(cfg, s0, moves)
    requires l in Run(cfg, s0, moves).db.orderLine && AtRest(Run(cfg, s0, moves), OKey(l.w, l.d, l.o))
    ensures var db := Run(cfg, s0, moves).db;
            OKey(l.w, l.d, l.o) in db.order
            && (l.o <= LOADED_DELIVERED ==> db.order[OKey(l.w, l.d, l.o)].carrier != 0)
  {
    hide IsRun, Run, Loaded, AtRest;
    LinesHaveOrders(cfg, s0, moves, l);
    CarrierMarksNewOrders(cfg, s0, moves, OKey(l.w, l.d, l.o));
  }
}
