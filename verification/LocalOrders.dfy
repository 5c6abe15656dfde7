/**
 O_ALL_LOCAL in every run: the flag of an order says whether its own warehouse supplies all of
 its lines.
 */
module LocalOrders {
  import opened Common
  import opened Schema
  import opened OrderedScan
  import opened Engine
  import opened DeliveryScan
  import opened WarehouseView
  import opened WarehouseInvariant
  import opened WarehouseSteps
  import opened Workers
  import opened WorkerSteps
  import opened LoadedState
  import opened Consistency
  import opened Deliveries

  /** Line `n` of order `k` is supplied by warehouse `w`. */
  predicate IsSuppliedBy(lines: map<OLKey, OrderLine>, k: OKey, n: nat, w: nat)
  {
    LineKey(k, n) in lines && lines[LineKey(k, n)].supply == w
  }

  /** The first `count` lines of order `k` are supplied by its own warehouse. */
  ghost predicate LinesLocal(lines: map<OLKey, OrderLine>, k: OKey, count: nat)
  {
    forall n: nat :: 1 <= n <= count ==> IsSuppliedBy(lines, k, n, k.w)
  }

  ghost predicate LineArgsLocal(a: NewOrderArgs, w: nat) { forall j :: 0 <= j < |a.lines| ==> a.lines[j].supply == w }

  ghost predicate EnteredAs(lines: map<OLKey, OrderLine>, k: OKey, a: NewOrderArgs, count: nat)
    requires count <= |a.lines|
  {
    forall n: nat :: 1 <= n <= count ==> IsEnteredAs(lines, k, a, n)
  }

  /** Line `n` of order `k` is supplied as the arguments say. */
  predicate IsEnteredAs(lines: map<OLKey, OrderLine>, k: OKey, a: NewOrderArgs, n: nat)
    requires 1 <= n <= |a.lines|
  {
    IsSuppliedBy(lines, k, n, a.lines[n - 1].supply)
  }

  /**
   The flag of order `k`, given the task of its warehouse's owner: of an order being filled it
   announces the lines to come, of any other it describes the lines that are there.
   */
  ghost predicate FlagFits(db: Db, t: Task, k: OKey)
  {
    k in db.order ==>
      if Filling(t) == Some(k) then
        && (db.order[k].allLocal <==> LineArgsLocal(t.n.a, k.w))
        && t.n.i <= |t.n.a.lines| == db.order[k].lines && EnteredAs(db.orderLine, k, t.n.a, t.n.i)
      else db.order[k].allLocal <==> LinesLocal(db.orderLine, k, db.order[k].lines)
  }

  ghost predicate LinesIn(db: Db, t: Task, k: OKey)
  {
    k in db.order ==> LinesThere(db.orderLine, k, if Filling(t) == Some(k) then t.n.i else db.order[k].lines)
  }

  lemma OwnLinesAreIn(db: Db, t: Task, clock: nat, k: OKey)
    requires OwnerInv(db, t, clock, k.w)
    ensures LinesIn(db, t, k)
  {
    hide Money, Dated, Ids, Carriers, PendingOk, LatestOk, Waiting, LineDates, DistrictsExist, Copies;
    var v := ViewOf(db, k.w);
    if k in db.order {
      assert k in v.order;
      forall n: nat | 1 <= n <= (if Filling(t) == Some(k) then t.n.i else db.order[k].lines)
        ensures LineKey(k, n) in db.orderLine
      {
        assert OLKey(k.w, k.d, k.o, n) in v.lines;
      }
    }
  }

  lemma SupplyKept(before: map<OLKey, OrderLine>, after: map<OLKey, OrderLine>, k: OKey, n: nat, w: nat)
    requires LinesKept(before, after) && LineKey(k, n) in before
    ensures IsSuppliedBy(before, k, n, w) <==> IsSuppliedBy(after, k, n, w)
  {
    assert SameLine(before[LineKey(k, n)], after[LineKey(k, n)]);
  }

  lemma LocalKept(before: map<OLKey, OrderLine>, after: map<OLKey, OrderLine>, k: OKey, count: nat)
    requires LinesKept(before, after) && LinesThere(before, k, count)
    ensures LinesLocal(before, k, count) <==> LinesLocal(after, k, count)
  {
    hide LinesKept, IsSuppliedBy;
    forall n: nat | 1 <= n <= count ensures IsSuppliedBy(before, k, n, k.w) <==> IsSuppliedBy(after, k, n, k.w) {
      SupplyKept(before, after, k, n, k.w);
    }
  }

  lemma EntriesKept(before: map<OLKey, OrderLine>, after: map<OLKey, OrderLine>, k: OKey, a: NewOrderArgs, count: nat)
    requires LinesKept(before, after) && LinesThere(before, k, count) && count <= |a.lines|
    requires EnteredAs(before, k, a, count)
    ensures EnteredAs(after, k, a, count)
  {
    hide LinesKept, IsSuppliedBy;
    forall n: nat | 1 <= n <= count ensures IsEnteredAs(after, k, a, n) {
      assert IsEnteredAs(before, k, a, n);
      SupplyKept(before, after, k, n, a.lines[n - 1].supply);
    }
  }

  /** Where the order row keeps its flag and the owner enters nothing, the flag goes on fitting. */
  lemma FlagStays(db: Db, db': Db, t: Task, t': Task, k: OKey)
    requires FlagFits(db, t, k) && LinesIn(db, t, k) && LinesKept(db.orderLine, db'.orderLine)
    requires k in db'.order ==> k in db.order && SameOrder(db.order[k], db'.order[k])
    requires Filling(t) == Some(k) <==> Filling(t') == Some(k)
    requires Filling(t) == Some(k) ==> t.n.a == t'.n.a && t.n.i == t'.n.i
    ensures FlagFits(db', t', k)
  {
    hide LinesKept, LinesLocal, EnteredAs, LinesThere;
    if k in db'.order {
      if Filling(t) == Some(k) {
        EntriesKept(db.orderLine, db'.orderLine, k, t.n.a, t.n.i);
      } else {
        LocalKept(db.orderLine, db'.orderLine, k, db.order[k].lines);
      }
    }
  }

  // ----- the owner's own steps

  /** The order row goes in with the flag of its arguments, and no line yet. */
  lemma FlagInserted(db: Db, t: NewOrderTask, clock: nat)
    requires t.NoInsertOrder? && NewOrderHit(db, t) && 5 <= |t.a.lines|
    ensures var y := NewOrderStep(db, t, clock); FlagFits(y.db, y.task, NewKey(t.a, t.row))
  {
    if AllLocal(t.a) {
      assert forall j :: 0 <= j < |t.a.lines| ==> t.a.lines[j] in t.a.lines;
    }
  }

  lemma LineEnteredLater(db: Db, t: NewOrderTask, clock: nat, n: nat)
    requires t.NoInsertLine? && NewOrderHit(db, t) && 1 <= n <= t.i
    requires IsEnteredAs(db.orderLine, NewKey(t.a, t.row), t.a, n)
    ensures IsEnteredAs(NewOrderStep(db, t, clock).db.orderLine, NewKey(t.a, t.row), t.a, n)
  {
  }

  lemma AllEntered(lines: map<OLKey, OrderLine>, k: OKey, a: NewOrderArgs)
    requires EnteredAs(lines, k, a, |a.lines|)
    ensures LinesLocal(lines, k, |a.lines|) <==> LineArgsLocal(a, k.w)
  {
    if LinesLocal(lines, k, |a.lines|) {
      forall j | 0 <= j < |a.lines| ensures a.lines[j].supply == k.w {
        assert IsSuppliedBy(lines, k, j + 1, k.w) && IsEnteredAs(lines, k, a, j + 1);
      }
    } else if LineArgsLocal(a, k.w) {
      forall n: nat | 1 <= n <= |a.lines| ensures IsSuppliedBy(lines, k, n, k.w) {
        assert IsEnteredAs(lines, k, a, n) && a.lines[n - 1].supply == k.w;
      }
    }
  }

  /** One more line; the last one completes the order. */
  lemma FlagAfterLine(db: Db, t: NewOrderTask, clock: nat)
    requires t.NoInsertLine? && NewOrderHit(db, t)
    requires NewKey(t.a, t.row) in db.order && FlagFits(db, NewOrder(t), NewKey(t.a, t.row))
    ensures var y := NewOrderStep(db, t, clock); FlagFits(y.db, y.task, NewKey(t.a, t.row))
  {
    hide LineArgsLocal, LinesLocal;
    var k, y := NewKey(t.a, t.row), NewOrderStep(db, t, clock);
    forall n: nat | 1 <= n <= t.i + 1 ensures IsEnteredAs(y.db.orderLine, k, t.a, n) {
      if n <= t.i {
        LineEnteredLater(db, t, clock, n);
      }
    }
    if t.i + 1 == |t.a.lines| {
      AllEntered(y.db.orderLine, k, t.a);
    }
  }

  lemma NewOrderFlag(db: Db, t: NewOrderTask, clock: nat, k: OKey)
    requires NewOrderReady(db, t) && 5 <= |t.a.lines| && FlagFits(db, NewOrder(t), k) && LinesIn(db, NewOrder(t), k)
    requires LinesKept(db.orderLine, NewOrderStep(db, t, clock).db.orderLine)
    requires Filling(NewOrder(t)).Some? ==> NewKey(t.a, t.row) in db.order
    ensures var y := NewOrderStep(db, t, clock); FlagFits(y.db, y.task, k)
  {
    hide LinesKept, FlagFits, LinesIn;
    var y := NewOrderStep(db, t, clock);
    if t.NoInsertOrder? && NewKey(t.a, t.row) == k {
      FlagInserted(db, t, clock);
    } else if t.NoInsertLine? && NewKey(t.a, t.row) == k {
      FlagAfterLine(db, t, clock);
    } else {
      FlagStays(db, y.db, NewOrder(t), y.task, k);
    }
  }

  // ----- any move, any run

  lemma OrderMoveSame(before: Orders, after: Orders, t: Task, k: OKey)
    requires OrderMove(before, after, t) && !(Inserts(t) && NewKey(t.n.a, t.n.row) == k)
    ensures k in after ==> k in before && SameOrder(before[k], after[k])
  {
  }

  lemma FilledOrderIsIn(db: Db, t: NewOrderTask, clock: nat, w: nat)
    requires OwnerInv(db, NewOrder(t), clock, w) && t.a.w == w && Filling(NewOrder(t)).Some?
    ensures NewKey(t.a, t.row) in db.order
  {
    hide Money, Dated, Ids, Carriers, Lines, PendingOk, LatestOk, Waiting, LineDates;
    assert NewKey(t.a, t.row) in ViewOf(db, w).order;
  }

  lemma StartFillsNothing(warehouses: nat, start: Task, clock: nat)
    requires ValidStart(warehouses, start, clock)
    ensures Filling(start) == None
  {
  }

  lemma NewOrderStepFlag(cfg: Config, first: map<SKey, nat>, db: Db, n: NewOrderTask, clock: nat, k: OKey)
    requires OwnerInv(db, NewOrder(n), clock, k.w) && n.a.w == k.w && TaskOk(cfg, first, db.orderLine, NewOrder(n))
    requires NewOrderReady(db, n) && FlagFits(db, NewOrder(n), k) && LinesIn(db, NewOrder(n), k)
    requires LinesKept(db.orderLine, NewOrderStep(db, n, clock).db.orderLine)
    ensures var y := NewOrderStep(db, n, clock); FlagFits(y.db, y.task, k)
  {
    hide OwnerInv, LinesKept, FlagFits, LinesIn, NewOrderReady, NewOrderStep, Filling;
    if Filling(NewOrder(n)).Some? {
      FilledOrderIsIn(db, n, clock, k.w);
    }
    NewOrderFlag(db, n, clock, k);
  }

  /** A step for the owner's own warehouse. */
  lemma OwnStepFlag(cfg: Config, first: map<SKey, nat>, s: State, i: nat, k: OKey, y: Point)
    requires ValidConfig(cfg) && Inv(cfg, first, s) && OwnedBy(cfg, i, k.w) && i < cfg.workers && !s.tasks[i].Idle?
    requires WarehouseOf(s.tasks[i]) == k.w && FlagFits(s.db, s.tasks[i], k)
    requires Hit(s.db, s.tasks[i]) && y == Step(PointOf(s, i))
    requires LinesKept(s.db.orderLine, y.db.orderLine) && OrderMove(s.db.order, y.db.order, s.tasks[i])
    ensures FlagFits(y.db, y.task, k)
  {
    hide RowsPresent, StockInv, LineTable, OwnerInv, OwnedBy, At, RowsExist, SharedOk, LinesKept, FlagFits, LinesIn,
         TaskOk, OrderMove, NewOrderReady, DeliveryReady, NewOrderStep;
    var t := s.tasks[i];
    Owned(cfg, first, s, i, k.w);
    OwnLinesAreIn(s.db, t, s.clocks[i], k);
    BusyHits(cfg, first, s, i);
    match t
    case NewOrder(n) =>
      assert TaskOk(cfg, first, s.db.orderLine, t);
      NewOrderStepFlag(cfg, first, s.db, n, s.clocks[i], k);
    case Payment(p) =>
      OrderMoveSame(s.db.order, y.db.order, t, k);
      FlagStays(s.db, y.db, t, y.task, k);
    case Delivery(v) =>
      OrderMoveSame(s.db.order, y.db.order, t, k);
      FlagStays(s.db, y.db, t, y.task, k);
  }

  lemma MoveFlag(cfg: Config, first: map<SKey, nat>, s: State, m: Move, i: nat, k: OKey)
    requires ValidConfig(cfg) && Inv(cfg, first, s) && CanMove(cfg, s, m) && OwnedBy(cfg, i, k.w)
    requires i < cfg.workers && FlagFits(s.db, s.tasks[i], k)
    ensures var s' := After(cfg, s, m); FlagFits(s'.db, s'.tasks[i], k)
  {
    hide RowsPresent, StockInv, LineTable, OwnerInv, OwnedBy, TaskOk, LinesKept, FlagFits, LinesIn, OrderMove, Step, Hit,
         ValidStart, Filling;
    var j := m.worker;
    var t, s' := s.tasks[j], After(cfg, s, m);
    Owned(cfg, first, s, i, k.w);
    OwnLinesAreIn(s.db, s.tasks[i], s.clocks[i], k);
    MoveKeepsShared(cfg, first, s, m);
    StepMovesOrder(cfg, first, s, m);
    if t.Idle? {
      StartFillsNothing(cfg.warehouses, m.start, s.clocks[j]);
      IdleFillsNothing();
      OrderMoveSame(s.db.order, s'.db.order, t, k);
      FlagStays(s.db, s'.db, s.tasks[i], s'.tasks[i], k);
    } else if WarehouseOf(t) == k.w {
      OwnerIsUnique(cfg, i, j, k.w);
      OwnStepFlag(cfg, first, s, i, k, Step(PointOf(s, j)));
    } else {
      StepStays(PointOf(s, j));
      OrderMoveSame(s.db.order, s'.db.order, t, k);
      NotFilling(t, Step(PointOf(s, j)).task, k);
      FlagStays(s.db, s'.db, s.tasks[i], s'.tasks[i], k);
    }
  }

  lemma IdleFillsNothing()
    ensures Filling(Idle) == None
  {
  }

  lemma NotFilling(t: Task, t': Task, k: OKey)
    requires WarehouseOf(t) != k.w && (t'.Idle? || WarehouseOf(t') == WarehouseOf(t))
    ensures Filling(t) != Some(k) && Filling(t') != Some(k)
  {
  }

  lemma {:induction false} RunFlag(cfg: Config, first: map<SKey, nat>, s: State, moves: seq<Move>, i: nat, k: OKey)
    requires ValidConfig(cfg) && Inv(cfg, first, s) && IsRun(cfg, s, moves) && OwnedBy(cfg, i, k.w)
    requires i < cfg.workers && FlagFits(s.db, s.tasks[i], k)
    ensures var s' := Run(cfg, s, moves); |s'.tasks| == cfg.workers && FlagFits(s'.db, s'.tasks[i], k)
    decreases |moves|
  {
    hide OwnedBy, FlagFits, CanMove, After, OwnerInv, RowsPresent, StockInv, LineTable, TaskOk;
    if moves != [] {
      MoveFlag(cfg, first, s, moves[0], i, k);
      MoveKeepsInv(cfg, first, s, moves[0]);
      RunFlag(cfg, first, After(cfg, s, moves[0]), moves[1..], i, k);
    }
  }

  lemma LoadedFlag(cfg: Config, s: State, i: nat, k: OKey)
    requires Init(cfg, s) && i < cfg.workers
    ensures FlagFits(s.db, s.tasks[i], k)
  {
    hide LoadedWarehouse, LoadedDistrict, LoadedCustomer, LoadedHistory, LoadedItem, LoadedStock, LoadedOwners,
         LoadedNewOrder, LoadedPending, LoadedLatest;
    if k in s.db.order {
      forall n: nat | 1 <= n <= s.db.order[k].lines ensures IsSuppliedBy(s.db.orderLine, k, n, k.w) {
        assert LoadedLineRow(LineKey(k, n), s.db.orderLine[LineKey(k, n)], s.db.order[k]);
      }
    }
  }

  /**
   In every state of every run, the flag of an order that nobody is entering is set if and only
   if its own warehouse supplies each of its lines.
   */
  lemma AllLocalMeansLocal(cfg: Config, s0: State, moves: seq<Move>, k: OKey)
    requires Init(cfg, s0) && IsRun(cfg, s0, moves) && IsWarehouse(cfg.warehouses, k.w)
    requires k in Run(cfg, s0, moves).db.order && AtRest(Run(cfg, s0, moves), k)
    ensures var db := Run(cfg, s0, moves).db;
            db.order[k].allLocal
            <==> forall l :: l in db.orderLine && OKey(l.w, l.d, l.o) == k ==> db.orderLine[l].supply == k.w
  {
    hide IsRun, Run, Loaded, OwnedBy, LineKeys, Filling;
    var s := Run(cfg, s0, moves);
    var i := OwnerExists(cfg, k.w);
    OwnerIsUnique(cfg, i, i, k.w);
    InitIsInv(cfg, s0);
    LoadedFlag(cfg, s0, i, k);
    RunFlag(cfg, FirstQuantities(s0.db), s0, moves, i, k);
    LinesMatchCount(cfg, s0, moves, k);
    RestIsNotFilling(s, i, k);
    LocalLines(s.db, k);
  }

  lemma RestIsNotFilling(s: State, i: nat, k: OKey)
    requires AtRest(s, k) && i < |s.tasks|
    ensures Filling(s.tasks[i]) != Some(k)
  {
    assert s.tasks[i] in s.tasks;
  }

  lemma LocalLines(db: Db, k: OKey)
    requires k in db.order
    requires LineKeys(db, k) == (set n: nat | 1 <= n <= db.order[k].lines :: OLKey(k.w, k.d, k.o, n))
    ensures LinesLocal(db.orderLine, k, db.order[k].lines)
       <==> forall l :: l in db.orderLine && OKey(l.w, l.d, l.o) == k ==> db.orderLine[l].supply == k.w
  {
    forall l ensures l in db.orderLine && OKey(l.w, l.d, l.o) == k <==> l in LineKeys(db, k) {}
    forall l | l in LineKeys(db, k) ensures l == LineKey(k, l.n) && 1 <= l.n <= db.order[k].lines {}
    forall n: nat | 1 <= n <= db.order[k].lines ensures LineKey(k, n) in LineKeys(db, k) {}
    if LinesLocal(db.orderLine, k, db.order[k].lines) {
      forall l | l in LineKeys(db, k) ensures db.orderLine[l].supply == k.w {
        assert IsSuppliedBy(db.orderLine, k, l.n, k.w);
      }
    }
  }
}
