/**
 The workers: how the warehouses are divided among them, and their interleaved runs,
 in which a worker at a time performs one table access.
 */
module Workers {
  import opened Schema
  import opened OrderedScan
  import opened Engine
  import opened DeliveryScan
  import opened WarehouseView
  import opened WarehouseInvariant
  import opened WarehouseSteps

  // ----- the warehouse partition of run_tpcc

  /** Warehouses given to workers before worker `i`: `quota` each, and one of the `extra` ones. */
  function Start(quota: nat, extra: nat, i: nat): nat
  {
    if i == 0 then 0 else Start(quota, extra, i - 1) + quota + if i <= extra then 1 else 0
  }

  lemma {:induction false} StartClosed(quota: nat, extra: nat, i: nat)
    ensures Start(quota, extra, i) == i * quota + if i <= extra then i else extra
  {
    if i > 0 {
      StartClosed(quota, extra, i - 1);
      assert i * quota == (i - 1) * quota + quota;
    }
  }

  lemma {:induction false} StartMonotone(quota: nat, extra: nat, i: nat, j: nat)
    requires i <= j
    ensures Start(quota, extra, i) <= Start(quota, extra, j)
    decreases j
  {
    if i < j {
      StartMonotone(quota, extra, i, j - 1);
    }
  }

  function Quota(warehouses: nat, workers: nat): nat
    requires workers > 0
  {
    warehouses / workers
  }

  function Extra(warehouses: nat, workers: nat): nat
    requires workers > 0
  {
    warehouses % workers
  }

  lemma QuotaAndExtra(warehouses: nat, workers: nat)
    requires workers > 0
    ensures workers * Quota(warehouses, workers) + Extra(warehouses, workers) == warehouses
    ensures Extra(warehouses, workers) < workers
    ensures workers <= warehouses ==> Quota(warehouses, workers) >= 1
  {
  }

  /** `w_id_start` and `w_id_end` of worker `i`. */
  function RangeOf(warehouses: nat, workers: nat, i: nat): (nat, nat)
    requires workers > 0
  {
    var (quota, extra) := (Quota(warehouses, workers), Extra(warehouses, workers));
    (Start(quota, extra, i) + 1, Start(quota, extra, i + 1) + 1)
  }

  /** How many warehouses worker `i` has. */
  function Holding(warehouses: nat, workers: nat, i: nat): int
    requires workers > 0
  {
    RangeOf(warehouses, workers, i).1 - RangeOf(warehouses, workers, i).0
  }

  /** No worker has more than one warehouse more than another, and the first ones have them. */
  lemma HoldingsAreEven(warehouses: nat, workers: nat, i: nat, j: nat)
    requires workers > 0 && i <= j
    ensures Holding(warehouses, workers, j) <= Holding(warehouses, workers, i) <= Holding(warehouses, workers, j) + 1
  {
    var (quota, extra) := (Quota(warehouses, workers), Extra(warehouses, workers));
    assert Start(quota, extra, i + 1) == Start(quota, extra, i) + quota + if i + 1 <= extra then 1 else 0;
    assert Start(quota, extra, j + 1) == Start(quota, extra, j) + quota + if j + 1 <= extra then 1 else 0;
  }

  method PartitionWarehouses(warehouses: nat, workers: nat) returns (ranges: seq<(nat, nat)>)
    requires workers > 0
    ensures |ranges| == workers
    ensures forall i :: 0 <= i < workers ==> ranges[i] == RangeOf(warehouses, workers, i)
  {
    hide Start;
    var perThread := warehouses / workers;
    QuotaAndExtra(warehouses, workers);
    var trailing := warehouses - perThread * workers;
    ranges := AssignRanges(perThread, trailing, workers);
  }

  method AssignRanges(perThread: nat, extra: nat, workers: nat) returns (ranges: seq<(nat, nat)>)
    ensures |ranges| == workers
    ensures forall i :: 0 <= i < workers ==>
              ranges[i] == (Start(perThread, extra, i) + 1, Start(perThread, extra, i + 1) + 1)
  {
    var prevEnd, trailing := 0, extra;
    ranges := [];
    for worker := 0 to workers
      invariant |ranges| == worker
      invariant prevEnd == Start(perThread, extra, worker)
      invariant trailing == if worker <= extra then extra - worker else 0
      invariant forall i :: 0 <= i < worker ==>
                  ranges[i] == (Start(perThread, extra, i) + 1, Start(perThread, extra, i + 1) + 1)
    {
      var begin := prevEnd;
      var end := begin + perThread;
      if trailing > 0 {
        end := end + 1;
        trailing := trailing - 1;
      }
      prevEnd := end;
      ranges := ranges + [(begin + 1, end + 1)];
    }
  }

  datatype Config = Config(warehouses: nat, workers: nat)

  /** What the benchmark is started with: at least one warehouse for every worker. */
  predicate ValidConfig(cfg: Config) { 1 <= cfg.workers <= cfg.warehouses }

  /** Worker `i` draws its warehouses from `w_start .. w_end - 1`. */
  predicate OwnedBy(cfg: Config, i: nat, w: nat)
    requires ValidConfig(cfg)
  {
    var (start, end) := RangeOf(cfg.warehouses, cfg.workers, i);
    i < cfg.workers && start <= w <= end - 1
  }

  /** The ranges are disjoint and stay within the warehouses. */
  lemma OwnerIsUnique(cfg: Config, i: nat, j: nat, w: nat)
    requires ValidConfig(cfg) && OwnedBy(cfg, i, w) && OwnedBy(cfg, j, w)
    ensures i == j && i < cfg.workers && 1 <= w <= cfg.warehouses
  {
    var (quota, extra) := (Quota(cfg.warehouses, cfg.workers), Extra(cfg.warehouses, cfg.workers));
    if i < j {
      StartMonotone(quota, extra, i + 1, j);
    } else if j < i {
      StartMonotone(quota, extra, j + 1, i);
    }
    StartMonotone(quota, extra, i + 1, cfg.workers);
    StartClosed(quota, extra, cfg.workers);
    QuotaAndExtra(cfg.warehouses, cfg.workers);
  }

  /** Together they cover all warehouses. */
  lemma OwnerExists(cfg: Config, w: nat) returns (i: nat)
    requires ValidConfig(cfg) && 1 <= w <= cfg.warehouses
    ensures OwnedBy(cfg, i, w)
  {
    var (quota, extra) := (Quota(cfg.warehouses, cfg.workers), Extra(cfg.warehouses, cfg.workers));
    StartClosed(quota, extra, cfg.workers);
    QuotaAndExtra(cfg.warehouses, cfg.workers);
    assert Start(quota, extra, cfg.workers) == cfg.warehouses;
    i := 0;
    while Start(quota, extra, i + 1) < w
      invariant i < cfg.workers && Start(quota, extra, i) < w
      decreases cfg.workers - i
    {
      i := i + 1;
    }
  }

  /** No worker is left without a warehouse, so its draw has a non-empty range. */
  lemma EveryWorkerOwns(cfg: Config, i: nat)
    requires ValidConfig(cfg) && i < cfg.workers
    ensures OwnedBy(cfg, i, RangeOf(cfg.warehouses, cfg.workers, i).0)
  {
    QuotaAndExtra(cfg.warehouses, cfg.workers);
  }

  // ----- states and moves

  datatype State = State(db: Db, tasks: seq<Task>, clocks: seq<nat>)

  /** Worker `worker` moves: an idle one starts `start`, a busy one makes its next step. */
  datatype Move = Move(worker: nat, start: Task)

  function PointOf(s: State, i: nat): Point
    requires i < |s.tasks| == |s.clocks|
  {
    Point(s.db, s.tasks[i], s.clocks[i])
  }

  function MoveResult(s: State, m: Move): Point
    requires m.worker < |s.tasks| == |s.clocks|
    requires !s.tasks[m.worker].Idle? ==> Hit(s.db, s.tasks[m.worker])
  {
    if s.tasks[m.worker].Idle? then Point(s.db, m.start, ClockAfterStart(m.start, s.clocks[m.worker]))
    else Step(PointOf(s, m.worker))
  }

  /** Moves before any 32-bit counter wraps. */
  predicate CanMove(cfg: Config, s: State, m: Move)
    requires ValidConfig(cfg)
  {
    && |s.tasks| == |s.clocks| == cfg.workers && m.worker < cfg.workers
    && NoWrap(PointOf(s, m.worker))
    && if s.tasks[m.worker].Idle?
       then ValidStart(cfg.warehouses, m.start, s.clocks[m.worker]) && OwnedBy(cfg, m.worker, WarehouseOf(m.start))
       else Hit(s.db, s.tasks[m.worker])
  }

  function After(cfg: Config, s: State, m: Move): State
    requires ValidConfig(cfg) && CanMove(cfg, s, m)
  {
    var x := MoveResult(s, m);
    State(x.db, s.tasks[m.worker := x.task], s.clocks[m.worker := x.clock])
  }

  /** An interleaved run: any worker moves at any time. */
  predicate IsRun(cfg: Config, s: State, moves: seq<Move>)
    requires ValidConfig(cfg)
    decreases |moves|
  {
    moves == [] || (CanMove(cfg, s, moves[0]) && IsRun(cfg, After(cfg, s, moves[0]), moves[1..]))
  }

  function Run(cfg: Config, s: State, moves: seq<Move>): State
    requires ValidConfig(cfg) && IsRun(cfg, s, moves)
    decreases |moves|
  {
    if moves == [] then s else Run(cfg, After(cfg, s, moves[0]), moves[1..])
  }

  lemma RunCons(cfg: Config, s: State, m: Move, moves: seq<Move>)
    requires ValidConfig(cfg) && CanMove(cfg, s, m) && IsRun(cfg, After(cfg, s, m), moves)
    ensures IsRun(cfg, s, [m] + moves) && Run(cfg, s, [m] + moves) == Run(cfg, After(cfg, s, m), moves)
  {
    assert ([m] + moves)[1..] == moves;
  }

  lemma {:induction false} RunAppend(cfg: Config, s: State, moves: seq<Move>, more: seq<Move>)
    requires ValidConfig(cfg) && IsRun(cfg, s, moves) && IsRun(cfg, Run(cfg, s, moves), more)
    ensures IsRun(cfg, s, moves + more) && Run(cfg, s, moves + more) == Run(cfg, Run(cfg, s, moves), more)
    decreases |moves|
  {
    if moves == [] {
      assert moves + more == more;
    } else {
      RunAppend(cfg, After(cfg, s, moves[0]), moves[1..], more);
      assert (moves + more)[1..] == moves[1..] + more;
    }
  }

  // ----- the invariant of all workers

  /** Rows that every transaction reads without asking whether they are there. */
  ghost predicate RowsPresent(cfg: Config, db: Db)
  {
    && (forall w :: 1 <= w <= cfg.warehouses ==> w in db.warehouse)
    && (forall w, d, c :: 1 <= w <= cfg.warehouses && IsDistrict(d) && IsCustomer(c) ==> CKey(w, d, c) in db.customer)
    && (forall i :: IsItem(i) ==> i in db.item && db.item[i] >= 1)
    && (forall w, i :: 1 <= w <= cfg.warehouses && IsItem(i) ==> SKey(w, i) in db.stock)
  }

  /** A version of a stock row that was loaded with quantity `first`. */
  predicate StockOk(first: nat, s: Stock)
  {
    && 10 <= s.quantity <= 100
    && (s.quantity + s.ytd) % 91 == first % 91
    && s.orderCnt <= s.ytd <= 10 * s.orderCnt
    && s.remoteCnt <= s.orderCnt
  }

  ghost predicate StockInv(first: map<SKey, nat>, stock: map<SKey, Stock>)
  {
    forall k :: k in stock ==> k in first && StockOk(first[k], stock[k])
  }

  ghost predicate ScannedRows(lines: map<OLKey, OrderLine>, rows: seq<Row>)
  {
    forall j :: 0 <= j < |rows| ==> rows[j].0 in lines && SameLine(rows[j].1, lines[rows[j].0])
  }

  /** The total collected so far, and what the remaining rows will add, is the credit of the order. */
  ghost predicate Collecting(lines: map<OLKey, OrderLine>, t: DeliveryTask)
    requires !t.DelReadPending?
  {
    var k := OKey(t.a.w, t.d, t.o);
    && (t.DelWriteLine? ==>
         && t.i < |t.rows| && ScannedRows(lines, t.rows) && LinesThere(lines, k, t.order.lines)
         && t.total + RowsTotal(t.rows[t.i..]) == Credit(lines, k, t.order.lines)
         && RowsShape(t.rows, k, t.order.lines))
    && (t.DelReadCustomer? || t.DelWriteCustomer? ==>
         LinesThere(lines, k, t.order.lines) && t.total == Credit(lines, k, t.order.lines))
  }

  ghost predicate TaskOk(cfg: Config, first: map<SKey, nat>, lines: map<OLKey, OrderLine>, t: Task)
  {
    match t
    case Idle => true
    case NewOrder(n) =>
      && ValidNewOrder(cfg.warehouses, n.a)
      && (n.NoReadItem? || n.NoReadStock? || n.NoWriteStock? || n.NoInsertLine? ==> n.i < |n.a.lines|)
      && (n.NoReadStock? || n.NoWriteStock? || n.NoInsertLine? ==> n.price >= 1)
      && (n.NoWriteStock? ==>
           var k := SKey(n.a.lines[n.i].supply, n.a.lines[n.i].item);
           k in first && StockOk(first[k], n.stock))
    case Payment(p) => ValidPayment(cfg.warehouses, p.a)
    case Delivery(v) => ValidDelivery(cfg.warehouses, v.a) && (!v.DelReadPending? ==> Collecting(lines, v))
  }

  function ActiveAt(t: Task, w: nat): Task { if WarehouseOf(t) == w then t else Idle }

  ghost predicate OwnerInv(db: Db, t: Task, clock: nat, w: nat)
  {
    w in db.warehouse && WarehouseInv(ViewOf(db, w), ActiveAt(t, w), clock)
  }

  ghost predicate Inv(cfg: Config, first: map<SKey, nat>, s: State)
    requires ValidConfig(cfg)
  {
    && |s.tasks| == |s.clocks| == cfg.workers
    && RowsPresent(cfg, s.db)
    && StockInv(first, s.db.stock)
    && LineTable(cfg.warehouses, s.db.orderLine)
    && (forall i :: 0 <= i < cfg.workers ==> TaskOk(cfg, first, s.db.orderLine, s.tasks[i]))
    && (forall i :: 0 <= i < cfg.workers && !s.tasks[i].Idle? ==> OwnedBy(cfg, i, WarehouseOf(s.tasks[i])))
    && (forall i: nat, w: nat :: OwnedBy(cfg, i, w) ==> OwnerInv(s.db, s.tasks[i], s.clocks[i], w))
  }
}
