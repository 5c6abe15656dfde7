/**
 Rows over whole runs: what is entered is never lost or altered, and each order is
 delivered at most once.
 */
module Deliveries {
  import opened Schema
  import opened OrderedScan
  import opened Engine
  import opened WarehouseView
  import opened WarehouseInvariant
  import opened WarehouseSteps
  import opened Workers
  import opened WorkerSteps
  import opened DeliveryScan
  import opened LoadedState
  import opened Consistency

  // ----- the order table, one move at a time

  predicate Inserts(t: Task) { t.NewOrder? && t.n.NoInsertOrder? }

  predicate Delivers(t: Task) { t.Delivery? && t.v.DelWriteOrder? }

  function DeliveredKey(t: Task): OKey
    requires Delivers(t)
  {
    OKey(t.v.a.w, t.v.d, t.v.o)
  }

  /** Inserting adds an undelivered order under a new key; delivering marks an undelivered one. */
  ghost predicate OrderMove(before: Orders, after: Orders, t: Task)
  {
    if Inserts(t) then
      var k := NewKey(t.n.a, t.n.row);
      k !in before && k in after && after == before[k := after[k]] && after[k].carrier == 0
    else if Delivers(t) then
      var k := DeliveredKey(t);
      && k in before && before[k].carrier == 0 && t.v.a.carrier != 0
      && after == before[k := before[k].(carrier := t.v.a.carrier)]
    else after == before
  }

  lemma DeliveryMovesOrder(db: Db, t: DeliveryTask, clock: nat, w: nat)
    requires OwnerInv(db, Delivery(t), clock, w) && t.a.w == w && DeliveryHit(db, t)
    ensures OrderMove(db.order, DeliveryStep(db, t, clock).db.order, Delivery(t))
  {
    hide Money, Dated, Ids, Lines, PendingOk, LatestOk, Waiting, LineDates;
    if t.DelWriteOrder? {
      assert OKey(w, t.d, t.o) in ViewOf(db, w).order;
    }
  }

  lemma NewOrderMovesOrder(db: Db, t: NewOrderTask, clock: nat)
    requires NewOrderHit(db, t) && !Undoing(t)
    requires t.NoInsertOrder? ==> NewKey(t.a, t.row) !in db.order
    ensures OrderMove(db.order, NewOrderStep(db, t, clock).db.order, NewOrder(t))
  {
  }

  lemma PaymentMovesOrder(db: Db, t: PaymentTask, clock: nat)
    requires PaymentHit(db, t)
    ensures OrderMove(db.order, PaymentStep(db, t, clock).db.order, Payment(t))
  {
  }

  lemma StepMovesOrder(cfg: Config, first: map<SKey, nat>, s: State, m: Move)
    requires ValidConfig(cfg) && Inv(cfg, first, s) && CanMove(cfg, s, m)
    ensures OrderMove(s.db.order, After(cfg, s, m).db.order, s.tasks[m.worker])
  {
    hide OwnerInv, RangeOf, RowsPresent, StockInv, LineTable, TaskOk, NewOrderStep, PaymentStep, DeliveryStep, LineKeys;
    var i := m.worker;
    if !s.tasks[i].Idle? {
      hide OrderMove;
      BusyProceeds(cfg, first, s, i);
      Owned(cfg, first, s, i, WarehouseOf(s.tasks[i]));
      match s.tasks[i]
      case NewOrder(n) => NewOrderMovesOrder(s.db, n, s.clocks[i]);
      case Payment(p) => PaymentMovesOrder(s.db, p, s.clocks[i]);
      case Delivery(v) => DeliveryMovesOrder(s.db, v, s.clocks[i], v.a.w);
    }
  }

  // ----- rows are permanent

  /** The order is the same, except that it may have been delivered in between. */
  predicate SameOrder(before: Order, after: Order)
  {
    after == before || (before.carrier == 0 && after.carrier != 0 && after == before.(carrier := after.carrier))
  }

  /** Orders, history rows and order lines stay; only a delivery marks an order and dates its lines. */
  ghost predicate Extends(before: Db, after: Db)
  {
    && (forall k :: k in before.order ==> k in after.order && SameOrder(before.order[k], after.order[k]))
    && (forall k :: k in before.history ==> k in after.history && before.history[k] == after.history[k])
    && LinesKept(before.orderLine, after.orderLine)
  }

  lemma ExtendsTransitive(a: Db, b: Db, c: Db)
    requires Extends(a, b) && Extends(b, c)
    ensures Extends(a, c)
  {
  }

  lemma NewOrderLeavesHistory(db: Db, t: NewOrderTask, clock: nat)
    requires NewOrderHit(db, t)
    ensures NewOrderStep(db, t, clock).db.history == db.history
  {
  }

  lemma DeliveryLeavesHistory(db: Db, t: DeliveryTask, clock: nat)
    requires DeliveryHit(db, t)
    ensures DeliveryStep(db, t, clock).db.history == db.history
  {
  }

  lemma HistoryStep(x: Point)
    requires Hit(x.db, x.task)
    ensures if x.task.Payment? && x.task.p.PayInsertHistory?
            then Step(x).db.history == x.db.history[HistoryKey(x.task.p.a) := x.task.p.a.amount]
            else Step(x).db.history == x.db.history
  {
    hide NewOrderStep, DeliveryStep;
    match x.task
    case NewOrder(n) => NewOrderLeavesHistory(x.db, n, x.clock);
    case Payment(p) =>
    case Delivery(v) => DeliveryLeavesHistory(x.db, v, x.clock);
  }

  lemma HistoryGrows(cfg: Config, first: map<SKey, nat>, s: State, m: Move)
    requires ValidConfig(cfg) && Inv(cfg, first, s) && CanMove(cfg, s, m)
    ensures forall k :: k in s.db.history ==>
              k in After(cfg, s, m).db.history && s.db.history[k] == After(cfg, s, m).db.history[k]
  {
    hide OwnerInv, RangeOf, RowsPresent, StockInv, LineTable, TaskOk, Step, LineKeys;
    if !s.tasks[m.worker].Idle? {
      BusyProceeds(cfg, first, s, m.worker);
      HistoryStep(PointOf(s, m.worker));
    }
  }

  lemma MoveExtends(cfg: Config, first: map<SKey, nat>, s: State, m: Move)
    requires ValidConfig(cfg) && Inv(cfg, first, s) && CanMove(cfg, s, m)
    ensures Extends(s.db, After(cfg, s, m).db)
  {
    hide Inv, RangeOf, RowsPresent, StockInv, LineTable, TaskOk, Step, LinesKept, Hit;
    StepMovesOrder(cfg, first, s, m);
    HistoryGrows(cfg, first, s, m);
    MoveKeepsShared(cfg, first, s, m);
  }

  /** Nothing that a run has entered is ever lost or altered by the rest of it. */
  lemma {:induction false} RunExtends(cfg: Config, first: map<SKey, nat>, s: State, moves: seq<Move>)
    requires ValidConfig(cfg) && Inv(cfg, first, s) && IsRun(cfg, s, moves)
    ensures Extends(s.db, Run(cfg, s, moves).db)
    decreases |moves|
  {
    if moves != [] {
      var s' := After(cfg, s, moves[0]);
      MoveExtends(cfg, first, s, moves[0]);
      MoveKeepsInv(cfg, first, s, moves[0]);
      RunExtends(cfg, first, s', moves[1..]);
      hide Extends, Inv;
      ExtendsTransitive(s.db, s'.db, Run(cfg, s', moves[1..]).db);
    }
  }

  // ----- deliveries

  /** How often a run delivers order `k`. */
  ghost function TimesDelivered(cfg: Config, s: State, moves: seq<Move>, k: OKey): nat
    requires ValidConfig(cfg) && IsRun(cfg, s, moves)
    decreases |moves|
  {
    if moves == [] then 0
    else
      var t := s.tasks[moves[0].worker];
      (if Delivers(t) && DeliveredKey(t) == k then 1 else 0) + TimesDelivered(cfg, After(cfg, s, moves[0]), moves[1..], k)
  }

  lemma OrderMoveDelivers(before: Orders, after: Orders, t: Task, k: OKey)
    requires OrderMove(before, after, t)
    ensures k in before && before[k].carrier != 0 ==>
              k in after && after[k].carrier != 0 && !(Delivers(t) && DeliveredKey(t) == k)
    ensures Delivers(t) && DeliveredKey(t) == k ==> k in after && after[k].carrier != 0
  {
  }

  /** A delivered order is not delivered again. */
  lemma {:induction false} DeliveredOnce(cfg: Config, first: map<SKey, nat>, s: State, moves: seq<Move>, k: OKey)
    requires ValidConfig(cfg) && Inv(cfg, first, s) && IsRun(cfg, s, moves)
    ensures TimesDelivered(cfg, s, moves, k) <= 1
    ensures k in s.db.order && s.db.order[k].carrier != 0 ==> TimesDelivered(cfg, s, moves, k) == 0
    decreases |moves|
  {
    if moves != [] {
      StepMovesOrder(cfg, first, s, moves[0]);
      MoveKeepsInv(cfg, first, s, moves[0]);
      OrderMoveDelivers(s.db.order, After(cfg, s, moves[0]).db.order, s.tasks[moves[0].worker], k);
      hide Inv, OrderMove;
      DeliveredOnce(cfg, first, After(cfg, s, moves[0]), moves[1..], k);
    }
  }

  /** The delivered orders of a district. */
  ghost function Marked(order: Orders, w: nat, d: nat): set<OKey>
  {
    set k | k in order && k.w == w && k.d == d && order[k].carrier != 0
  }

  /** How many orders of a district a run delivers. */
  ghost function DeliveriesIn(cfg: Config, s: State, moves: seq<Move>, w: nat, d: nat): nat
    requires ValidConfig(cfg) && IsRun(cfg, s, moves)
    decreases |moves|
  {
    if moves == [] then 0
    else
      var t := s.tasks[moves[0].worker];
      (if Delivers(t) && DeliveredKey(t).w == w && DeliveredKey(t).d == d then 1 else 0)
      + DeliveriesIn(cfg, After(cfg, s, moves[0]), moves[1..], w, d)
  }

  lemma MarkedMove(before: Orders, after: Orders, t: Task, w: nat, d: nat)
    requires OrderMove(before, after, t)
    ensures |Marked(after, w, d)|
         == |Marked(before, w, d)| + if Delivers(t) && DeliveredKey(t).w == w && DeliveredKey(t).d == d then 1 else 0
  {
    if Delivers(t) && DeliveredKey(t).w == w && DeliveredKey(t).d == d {
      assert Marked(after, w, d) == Marked(before, w, d) + {DeliveredKey(t)};
    } else {
      assert Marked(after, w, d) == Marked(before, w, d);
    }
  }

  lemma {:induction false} MarkedRun(cfg: Config, first: map<SKey, nat>, s: State, moves: seq<Move>, w: nat, d: nat)
    requires ValidConfig(cfg) && Inv(cfg, first, s) && IsRun(cfg, s, moves)
    ensures |Marked(Run(cfg, s, moves).db.order, w, d)|
         == |Marked(s.db.order, w, d)| + DeliveriesIn(cfg, s, moves, w, d)
    decreases |moves|
  {
    if moves != [] {
      StepMovesOrder(cfg, first, s, moves[0]);
      MarkedMove(s.db.order, After(cfg, s, moves[0]).db.order, s.tasks[moves[0].worker], w, d);
      MoveKeepsInv(cfg, first, s, moves[0]);
      hide Inv, Marked;
      MarkedRun(cfg, first, After(cfg, s, moves[0]), moves[1..], w, d);
    }
  }

  lemma LoadedMarked(warehouses: nat, order: Orders, w: nat, d: nat)
    requires LoadedOrder(warehouses, order) && 1 <= w <= warehouses && IsDistrict(d)
    ensures |Marked(order, w, d)| == LOADED_DELIVERED
  {
    assert Marked(order, w, d) == set o: nat | 1 <= o < 1 + LOADED_DELIVERED :: OKey(w, d, o);
    NumberedOrders(w, d, 1, LOADED_DELIVERED);
  }

  /**
   Orders without a new_order row are the 2100 loaded ones and those delivered since,
   however the runs of the workers are interleaved.
   */
  lemma DeliveriesCount(cfg: Config, s0: State, moves: seq<Move>, w: nat, d: nat)
    requires Init(cfg, s0) && IsRun(cfg, s0, moves)
    requires IsWarehouse(cfg.warehouses, w) && IsDistrict(d) && DistrictAtRest(Run(cfg, s0, moves), w, d)
    ensures var db := Run(cfg, s0, moves).db;
            |OrdersIn(db.order.Keys, w, d)|
            == |OrdersIn(db.newOrder, w, d)| + LOADED_DELIVERED + DeliveriesIn(cfg, s0, moves, w, d)
  {
    hide Inv, IsRun, Run;
    var db := Run(cfg, s0, moves).db;
    InitIsInv(cfg, s0);
    MarkedRun(cfg, FirstQuantities(s0.db), s0, moves, w, d);
    LoadedMarked(cfg.warehouses, s0.db.order, w, d);
    forall k: OKey | k.w == w && k.d == d
      ensures k in db.newOrder ==> k in db.order
      ensures k in db.order ==> (db.order[k].carrier == 0 <==> k in db.newOrder)
    {
      RestInDistrict(Run(cfg, s0, moves), k);
      CarrierMarksNewOrders(cfg, s0, moves, k);
    }
    assert OrdersIn(db.order.Keys, w, d) == Marked(db.order, w, d) + OrdersIn(db.newOrder, w, d);
    assert Marked(db.order, w, d) !! OrdersIn(db.newOrder, w, d);
  }

  /** The delivered orders of a district: the loaded ones, and no others if none was delivered since. */
  lemma MarkedExactly(cfg: Config, s0: State, moves: seq<Move>, w: nat, d: nat)
    requires Init(cfg, s0) && IsRun(cfg, s0, moves)
    requires IsWarehouse(cfg.warehouses, w) && IsDistrict(d) && DistrictAtRest(Run(cfg, s0, moves), w, d)
    ensures var order := Run(cfg, s0, moves).db.order;
            |Marked(order, w, d)| == LOADED_DELIVERED
            <==> forall k :: k in order && k.w == w && k.d == d && k.o > LOADED_DELIVERED ==> order[k].carrier == 0
  {
    hide Inv, IsRun, Run, Loaded;
    var s := Run(cfg, s0, moves);
    var loaded := set o: nat | 1 <= o < 1 + LOADED_DELIVERED :: OKey(w, d, o);
    OrderIds(cfg, s0, moves, w, d);
    forall k | k in loaded ensures k in Marked(s.db.order, w, d) {
      RestInDistrict(s, k);
      CarrierMarksNewOrders(cfg, s0, moves, k);
    }
    NumberedOrders(w, d, 1, LOADED_DELIVERED);
    Subsets(loaded, Marked(s.db.order, w, d));
    forall k | k in Marked(s.db.order, w, d) ensures k in loaded <==> k.o <= LOADED_DELIVERED {
      assert k == OKey(w, d, k.o);
    }
    if k :| k in s.db.order && k.w == w && k.d == d && k.o > LOADED_DELIVERED && s.db.order[k].carrier != 0 {
      assert k in Marked(s.db.order, w, d) && k !in loaded;
    } else {
      assert Marked(s.db.order, w, d) == loaded;
    }
  }

  /**
   Condition 11: orders less new_order rows are 2100 per district as loaded, if and only if the
   run has delivered none there, which shows on the orders themselves.
   */
  lemma OrdersLessWaitingExactly(cfg: Config, s0: State, moves: seq<Move>, w: nat, d: nat)
    requires Init(cfg, s0) && IsRun(cfg, s0, moves)
    requires IsWarehouse(cfg.warehouses, w) && IsDistrict(d) && DistrictAtRest(Run(cfg, s0, moves), w, d)
    ensures var db := Run(cfg, s0, moves).db;
            |OrdersIn(db.order.Keys, w, d)| - |OrdersIn(db.newOrder, w, d)| == LOADED_DELIVERED
            <==> DeliveriesIn(cfg, s0, moves, w, d) == 0
    ensures var order := Run(cfg, s0, moves).db.order;
            DeliveriesIn(cfg, s0, moves, w, d) == 0
            <==> forall k :: k in order && k.w == w && k.d == d && k.o > LOADED_DELIVERED ==> order[k].carrier == 0
  {
    hide Inv, IsRun, Run, Marked, OrdersIn, DeliveriesIn, LoadedOrder;
    DeliveriesCount(cfg, s0, moves, w, d);
    MarkedExactly(cfg, s0, moves, w, d);
    InitIsInv(cfg, s0);
    MarkedRun(cfg, FirstQuantities(s0.db), s0, moves, w, d);
    LoadedMarked(cfg.warehouses, s0.db.order, w, d);
  }

  // ----- what a delivery credits

  /** Delivery's scan returns the first lines of its order, in order, as many as there are of the first ten. */
  lemma DeliveryScansItsOrder(cfg: Config, s0: State, moves: seq<Move>, i: nat)
    requires Init(cfg, s0) && IsRun(cfg, s0, moves) && i < cfg.workers
    ensures var s := Run(cfg, s0, moves);
            |s.tasks| == cfg.workers &&
            (s.tasks[i].Delivery? && s.tasks[i].v.DelScanLines? ==>
              var v := s.tasks[i].v;
              var rows := Scan(s.db.orderLine, OLKey(v.a.w, v.d, v.o, 0), SCANNED);
              var k, m := OKey(v.a.w, v.d, v.o), Min(v.order.lines, SCANNED);
              && |rows| >= m && (forall j :: 0 <= j < m ==> rows[j].0 == LineKey(k, 1 + j))
              && RowsTotal(rows) == Credit(s.db.orderLine, k, v.order.lines))
  {
    hide IsRun, Run, Loaded, OwnerInv, RowsPresent, StockInv, TaskOk, LineTable, NewestLines, Credit, Scan;
    var s := Run(cfg, s0, moves);
    RunInv(cfg, s0, moves);
    if s.tasks[i].Delivery? && s.tasks[i].v.DelScanLines? {
      var v := s.tasks[i].v;
      BusyHits(cfg, FirstQuantities(s0.db), s, i);
      ScanOfNewest(cfg.warehouses, s.db.orderLine, OKey(v.a.w, v.d, v.o), v.order.lines);
    }
  }

  lemma NewestIsRunTime(db: Db, w: nat, v: DeliveryTask, clock: nat)
    requires OwnerInv(db, Delivery(v), clock, w) && v.a.w == w && v.DelWriteCustomer?
    ensures v.o > LOADED_DELIVERED
  {
    hide Money, Dated, Ids, Carriers, Lines, Waiting, LineDates;
    var view := ViewOf(db, w);
    assert IsNewest(w, view.order, v.d, v.o);
    assert IsLatest(w, view.order, v.d, 1, view.latest[CKey(w, v.d, 1)]);
  }

  /**
   A delivery credits the customer with lines 1 to 10 of the order, which is the order's
   whole amount exactly when it has no more than ten lines.
   */
  lemma DeliveryCredits(cfg: Config, s0: State, moves: seq<Move>, i: nat)
    requires Init(cfg, s0) && IsRun(cfg, s0, moves) && i < cfg.workers
    ensures var s := Run(cfg, s0, moves);
            |s.tasks| == cfg.workers &&
            (s.tasks[i].Delivery? && s.tasks[i].v.DelWriteCustomer? ==>
              var v := s.tasks[i].v;
              var k := OKey(v.a.w, v.d, v.o);
              && v.total == LineSum(s.db.orderLine, k, 1, Min(v.order.lines, SCANNED))
              && (v.total == LineSum(s.db.orderLine, k, 1, v.order.lines) <==> v.order.lines <= SCANNED))
  {
    hide IsRun, Run, Loaded, OwnerInv, RowsPresent, StockInv, LineTable, LinesThere;
    var s := Run(cfg, s0, moves);
    RunInv(cfg, s0, moves);
    if s.tasks[i].Delivery? && s.tasks[i].v.DelWriteCustomer? {
      var v := s.tasks[i].v;
      Owned(cfg, FirstQuantities(s0.db), s, i, v.a.w);
      NewestIsRunTime(s.db, v.a.w, v, s.clocks[i]);
      assert TaskOk(cfg, FirstQuantities(s0.db), s.db.orderLine, s.tasks[i]);
      CreditIsWholeAmount(cfg.warehouses, s.db.orderLine, OKey(v.a.w, v.d, v.o), v.order.lines);
    }
  }
}
