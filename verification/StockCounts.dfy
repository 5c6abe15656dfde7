/**
 Stock rows against the order lines: s_ytd, s_order_cnt and s_remote_cnt count the lines
 entered at run time exactly as long as no worker writes back a stale copy of the row.
 */
module StockCounts {
  import opened Totals
  import opened Schema
  import opened OrderedScan
  import opened Engine
  import opened DeliveryScan
  import opened WarehouseView
  import opened WarehouseInvariant
  import opened WarehouseSteps
  import opened Workers
  import opened WorkerSteps
  import opened LoadedState
  import opened Consistency
  import opened CustomerMoney
  import opened DeliveredMoney

  // ----- what the lines say

  /** Line `l` was entered at run time and took its item from stock row `k`. */
  predicate Takes(lines: LineRows, l: OLKey, k: SKey)
  {
    l in lines && l.o > LAST_LOADED && SKey(lines[l].supply, lines[l].item) == k
  }

  /** The quantities of the run-time lines of stock row `k`. */
  ghost function TakingLines(lines: LineRows, k: SKey): map<OLKey, int>
  {
    map l | l in lines && Takes(lines, l, k) :: lines[l].quantity
  }

  /** Those of them that were entered for another warehouse. */
  ghost function RemoteLines(lines: LineRows, k: SKey): set<OLKey>
  {
    set l | l in lines.Keys && Takes(lines, l, k) && l.w != k.w
  }

  /** Pieces, lines and remote lines. */
  datatype Count = Count(pieces: int, times: int, remote: int)

  function Plus(a: Count, b: Count): Count { Count(a.pieces + b.pieces, a.times + b.times, a.remote + b.remote) }

  ghost function LineCountOf(lines: LineRows, k: SKey): Count
  {
    Count(Total(TakingLines(lines, k)), |TakingLines(lines, k)|, |RemoteLines(lines, k)|)
  }

  function RowCount(s: Stock): Count { Count(s.ytd, s.orderCnt, s.remoteCnt) }

  function LineOf(a: NewOrderArgs, i: nat, k: SKey): Count
  {
    if i < |a.lines| && SKey(a.lines[i].supply, a.lines[i].item) == k
    then Count(a.lines[i].quantity, 1, if k.w != a.w then 1 else 0)
    else Count(0, 0, 0)
  }

  /** What is on the stock row while its line is still to be entered. */
  function InHandOf(t: Task, k: SKey): Count
  {
    if t.NewOrder? && t.n.NoInsertLine? then LineOf(t.n.a, t.n.i, k) else Count(0, 0, 0)
  }

  ghost function InHands(tasks: seq<Task>, k: SKey): Count
  {
    if tasks == [] then Count(0, 0, 0) else Plus(InHandOf(tasks[0], k), InHands(tasks[1..], k))
  }

  lemma {:induction false} InHandsUpdate(tasks: seq<Task>, i: nat, t: Task, k: SKey)
    requires i < |tasks|
    ensures Plus(InHands(tasks[i := t], k), InHandOf(tasks[i], k)) == Plus(InHands(tasks, k), InHandOf(t, k))
  {
    hide InHandOf;
    if i == 0 {
      assert tasks[i := t][1..] == tasks[1..];
    } else {
      assert tasks[i := t][1..] == tasks[1..][i - 1 := t];
      InHandsUpdate(tasks[1..], i - 1, t, k);
    }
  }

  /** The row counts the run-time lines that are entered or in hand. */
  ghost predicate StockCounted(s: State, k: SKey)
  {
    k in s.db.stock && RowCount(s.db.stock[k]) == Plus(LineCountOf(s.db.orderLine, k), InHands(s.tasks, k))
  }

  // ----- one table write

  lemma EnterLineTakes(lines: LineRows, l: OLKey, line: OrderLine, k: SKey)
    requires l !in lines && l.o > LAST_LOADED
    ensures TakingLines(lines[l := line], k)
         == if SKey(line.supply, line.item) == k then TakingLines(lines, k)[l := line.quantity] else TakingLines(lines, k)
    ensures l !in TakingLines(lines, k)
  {
  }

  lemma EnterLineRemote(lines: LineRows, l: OLKey, line: OrderLine, k: SKey)
    requires l !in lines && l.o > LAST_LOADED
    ensures RemoteLines(lines[l := line], k)
         == RemoteLines(lines, k) + if SKey(line.supply, line.item) == k && l.w != k.w then {l} else {}
    ensures l !in RemoteLines(lines, k)
  {
  }

  lemma EnterLineCounts(lines: LineRows, l: OLKey, line: OrderLine, k: SKey)
    requires l !in lines && l.o > LAST_LOADED
    ensures LineCountOf(lines[l := line], k)
         == Plus(LineCountOf(lines, k),
                 if SKey(line.supply, line.item) == k then Count(line.quantity, 1, if l.w != k.w then 1 else 0)
                 else Count(0, 0, 0))
  {
    hide TakingLines, RemoteLines, Total;
    EnterLineTakes(lines, l, line, k);
    EnterLineRemote(lines, l, line, k);
    TotalInsert(TakingLines(lines, k), l, line.quantity);
  }

  lemma DateLineCounts(lines: LineRows, l: OLKey, line: OrderLine, k: SKey)
    requires l in lines && SameLine(line, lines[l])
    ensures LineCountOf(lines[l := line], k) == LineCountOf(lines, k)
  {
    assert TakingLines(lines[l := line], k) == TakingLines(lines, k);
    assert RemoteLines(lines[l := line], k) == RemoteLines(lines, k);
  }

  // ----- one step

  predicate WritesStock(t: Task) { t.NewOrder? && t.n.NoWriteStock? && t.n.i < |t.n.a.lines| }

  function StockWritten(t: Task): SKey
    requires WritesStock(t)
  {
    SKey(t.n.a.lines[t.n.i].supply, t.n.a.lines[t.n.i].item)
  }

  function NewStock(t: Task): Stock
    requires WritesStock(t)
  {
    var l := t.n.a.lines[t.n.i];
    Restock(t.n.stock, l.quantity, l.supply != t.n.a.w)
  }

  /** The line that the written row counts, if it is `k`. */
  function TakenBy(t: Task, k: SKey): Count
  {
    if WritesStock(t) && StockWritten(t) == k then LineOf(t.n.a, t.n.i, k) else Count(0, 0, 0)
  }

  lemma NewOrderCounts(db: Db, t: NewOrderTask, clock: nat, k: SKey)
    requires NewOrderReady(db, t)
    ensures var x := NewOrderStep(db, t, clock);
            && x.db.stock == (if WritesStock(NewOrder(t)) then db.stock[StockWritten(NewOrder(t)) := NewStock(NewOrder(t))]
                              else db.stock)
            && Plus(LineCountOf(x.db.orderLine, k), InHandOf(x.task, k))
               == Plus(Plus(LineCountOf(db.orderLine, k), InHandOf(NewOrder(t), k)), TakenBy(NewOrder(t), k))
  {
    hide LineCountOf, Restock;
    if t.NoInsertLine? {
      var l := t.a.lines[t.i];
      EnterLineCounts(db.orderLine, OLKey(t.a.w, t.a.d, t.row.next, t.i + 1),
                      OrderLine(l.item, 0, l.quantity * t.price, l.supply, l.quantity), k);
    }
  }

  lemma DeliveryCounts(db: Db, t: DeliveryTask, clock: nat, k: SKey)
    requires DeliveryHit(db, t)
    requires t.DelWriteLine? ==> t.rows[t.i].0 in db.orderLine && SameLine(t.rows[t.i].1, db.orderLine[t.rows[t.i].0])
    ensures var x := DeliveryStep(db, t, clock);
            && x.db.stock == db.stock && LineCountOf(x.db.orderLine, k) == LineCountOf(db.orderLine, k)
            && InHandOf(x.task, k) == Count(0, 0, 0)
  {
    hide LineCountOf, Scan;
    if t.DelWriteLine? {
      DateLineCounts(db.orderLine, t.rows[t.i].0, t.rows[t.i].1.(delivered := clock), k);
    }
  }

  lemma PaymentCounts(db: Db, t: PaymentTask, clock: nat, k: SKey)
    requires PaymentHit(db, t)
    ensures var x := PaymentStep(db, t, clock);
            x.db.stock == db.stock && x.db.orderLine == db.orderLine && InHandOf(x.task, k) == Count(0, 0, 0)
  {
  }

  lemma StepCounts(cfg: Config, first: map<SKey, nat>, s: State, i: nat, k: SKey)
    requires ValidConfig(cfg) && Inv(cfg, first, s) && i < cfg.workers && !s.tasks[i].Idle?
    ensures Hit(s.db, s.tasks[i])
    ensures var x, t := Step(PointOf(s, i)), s.tasks[i];
            && x.db.stock == (if WritesStock(t) then s.db.stock[StockWritten(t) := NewStock(t)] else s.db.stock)
            && Plus(LineCountOf(x.db.orderLine, k), InHandOf(x.task, k))
               == Plus(Plus(LineCountOf(s.db.orderLine, k), InHandOf(t, k)), TakenBy(t, k))
  {
    hide RowsPresent, StockInv, LineTable, OwnerInv, OwnedBy, RangeOf, TaskOk, LineCountOf, NewOrderStep, PaymentStep,
         DeliveryStep, NewOrderReady, DeliveryReady, RowsExist, SharedOk, At, Collecting, NewStock;
    BusyHits(cfg, first, s, i);
    match s.tasks[i]
    case NewOrder(n) => NewOrderCounts(s.db, n, s.clocks[i], k);
    case Payment(p) => PaymentCounts(s.db, p, s.clocks[i], k);
    case Delivery(v) =>
      if v.DelWriteLine? {
        RowIsSame(cfg, first, s, i);
      }
      DeliveryCounts(s.db, v, s.clocks[i], k);
  }

  lemma RowIsSame(cfg: Config, first: map<SKey, nat>, s: State, i: nat)
    requires ValidConfig(cfg) && Inv(cfg, first, s) && i < cfg.workers
    requires s.tasks[i].Delivery? && s.tasks[i].v.DelWriteLine?
    ensures var t := s.tasks[i].v;
            t.i < |t.rows| && t.rows[t.i].0 in s.db.orderLine
            && SameLine(t.rows[t.i].1, s.db.orderLine[t.rows[t.i].0])
  {
    hide RowsPresent, StockInv, LineTable, OwnerInv, OwnedBy, LinesThere, Credit, RowsShape, ScannedRows;
    assert TaskOk(cfg, first, s.db.orderLine, s.tasks[i]);
    ScannedRow(s.db.orderLine, s.tasks[i].v.rows, s.tasks[i].v.i);
  }

  // ----- moves and runs

  lemma StartTakesNothing(cfg: Config, start: Task, clock: nat, k: SKey)
    requires ValidStart(cfg.warehouses, start, clock)
    ensures InHandOf(start, k) == Count(0, 0, 0)
  {
  }

  lemma MoveCounts(cfg: Config, first: map<SKey, nat>, s: State, m: Move, k: SKey)
    requires ValidConfig(cfg) && Inv(cfg, first, s) && CanMove(cfg, s, m)
    ensures m.worker < |s.tasks|
    ensures var s', t := After(cfg, s, m), s.tasks[m.worker];
            && s'.db.stock == (if WritesStock(t) then s.db.stock[StockWritten(t) := NewStock(t)] else s.db.stock)
            && Plus(LineCountOf(s'.db.orderLine, k), InHands(s'.tasks, k))
               == Plus(Plus(LineCountOf(s.db.orderLine, k), InHands(s.tasks, k)), TakenBy(t, k))
  {
    hide Inv, InHands, LineCountOf, Step, Hit, NoWrap, ValidStart, InHandOf, NewStock;
    InHandsUpdate(s.tasks, m.worker, MoveResult(s, m).task, k);
    WorkerIsThere(cfg, s, m);
    if s.tasks[m.worker].Idle? {
      StartTakesNothing(cfg, m.start, s.clocks[m.worker], k);
      IdleTakesNothing(k);
    } else {
      StepCounts(cfg, first, s, m.worker, k);
    }
  }

  lemma IdleTakesNothing(k: SKey)
    ensures InHandOf(Idle, k) == Count(0, 0, 0)
  {
  }

  /** The write-back of this move, if it is of row `k`, does not undo another worker's. */
  ghost predicate StockCurrent(s: State, m: Move, k: SKey)
    requires m.worker < |s.tasks|
  {
    var t := s.tasks[m.worker];
    WritesStock(t) && StockWritten(t) == k && k in s.db.stock ==> RowCount(t.n.stock) == RowCount(s.db.stock[k])
  }

  lemma NewStockCounts(t: Task)
    requires WritesStock(t)
    ensures RowCount(NewStock(t)) == Plus(RowCount(t.n.stock), TakenBy(t, StockWritten(t)))
  {
  }

  /** A move keeps the counts of a stock row if and only if the copy it writes back has the stored counts. */
  lemma MoveKeepsCounts(cfg: Config, first: map<SKey, nat>, s: State, m: Move, k: SKey)
    requires ValidConfig(cfg) && Inv(cfg, first, s) && CanMove(cfg, s, m) && StockCounted(s, k)
    ensures m.worker < |s.tasks|
    ensures StockCounted(After(cfg, s, m), k) <==> StockCurrent(s, m, k)
  {
    hide Inv, InHands, LineCountOf, CanMove, After, NewStock, TakenBy;
    MoveCounts(cfg, first, s, m, k);
    var t := s.tasks[m.worker];
    if WritesStock(t) && StockWritten(t) == k {
      NewStockCounts(t);
    } else {
      OtherRowTakesNothing(t, k);
    }
  }

  lemma OtherRowTakesNothing(t: Task, k: SKey)
    requires !(WritesStock(t) && StockWritten(t) == k)
    ensures TakenBy(t, k) == Count(0, 0, 0)
  {
  }

  ghost predicate AllStockCurrent(cfg: Config, s: State, moves: seq<Move>, k: SKey)
    requires ValidConfig(cfg) && IsRun(cfg, s, moves)
    decreases |moves|
  {
    moves == [] || (StockCurrent(s, moves[0], k) && AllStockCurrent(cfg, After(cfg, s, moves[0]), moves[1..], k))
  }

  ghost predicate StockCountedThroughout(cfg: Config, s: State, moves: seq<Move>, k: SKey)
    requires ValidConfig(cfg) && IsRun(cfg, s, moves)
    decreases |moves|
  {
    StockCounted(s, k) && (moves == [] || StockCountedThroughout(cfg, After(cfg, s, moves[0]), moves[1..], k))
  }

  lemma {:induction false} CountedExactly(cfg: Config, first: map<SKey, nat>, s: State, moves: seq<Move>, k: SKey)
    requires ValidConfig(cfg) && Inv(cfg, first, s) && IsRun(cfg, s, moves) && StockCounted(s, k)
    ensures StockCountedThroughout(cfg, s, moves, k) <==> AllStockCurrent(cfg, s, moves, k)
    decreases |moves|
  {
    if moves != [] {
      hide Inv, StockCounted, StockCurrent;
      var s' := After(cfg, s, moves[0]);
      MoveKeepsCounts(cfg, first, s, moves[0], k);
      MoveKeepsInv(cfg, first, s, moves[0]);
      if StockCounted(s', k) {
        CountedExactly(cfg, first, s', moves[1..], k);
      }
    }
  }

  lemma {:induction false} EmptyHands(tasks: seq<Task>, k: SKey)
    requires forall i :: 0 <= i < |tasks| ==> InHandOf(tasks[i], k) == Count(0, 0, 0)
    ensures InHands(tasks, k) == Count(0, 0, 0)
  {
    hide InHandOf;
    if tasks != [] {
      EmptyHands(tasks[1..], k);
    }
  }

  lemma InitIsCounted(cfg: Config, s0: State, k: SKey)
    requires Init(cfg, s0) && k in s0.db.stock
    ensures StockCounted(s0, k)
  {
    hide LoadedWarehouse, LoadedDistrict, LoadedCustomer, LoadedHistory, LoadedItem, LoadedNewOrder, LoadedPending,
         LoadedLatest;
    assert TakingLines(s0.db.orderLine, k) == map[] && RemoteLines(s0.db.orderLine, k) == {};
    EmptyHands(s0.tasks, k);
  }

  // ----- stale copies as events of the run

  /** The next step of `t` reads stock row `k`, to write it back later. */
  predicate ReadsStock(t: Task, k: SKey)
  {
    && t.NewOrder? && t.n.NoReadStock? && t.n.i < |t.n.a.lines|
    && SKey(t.n.a.lines[t.n.i].supply, t.n.a.lines[t.n.i].item) == k
  }

  predicate HoldsStock(t: Task, k: SKey) { WritesStock(t) && StockWritten(t) == k }

  /** The workers that another worker's write of the row has overtaken since they read it. */
  function StockOvertakenAfter(overtaken: set<nat>, s: State, m: Move, k: SKey): set<nat>
    requires m.worker < |s.tasks|
  {
    if HoldsStock(s.tasks[m.worker], k) then set i: nat | i < |s.tasks| && i != m.worker && HoldsStock(s.tasks[i], k)
    else if ReadsStock(s.tasks[m.worker], k) then overtaken - {m.worker}
    else overtaken
  }

  ghost predicate NoStockOvertaken(cfg: Config, s: State, moves: seq<Move>, k: SKey, overtaken: set<nat>)
    requires ValidConfig(cfg) && IsRun(cfg, s, moves)
    decreases |moves|
  {
    moves == [] ||
    ((HoldsStock(s.tasks[moves[0].worker], k) ==> moves[0].worker !in overtaken)
     && NoStockOvertaken(cfg, After(cfg, s, moves[0]), moves[1..], k, StockOvertakenAfter(overtaken, s, moves[0], k)))
  }

  /** A copy that was overtaken counts fewer lines than the row; any other counts the same. */
  ghost predicate StockTracks(s: State, k: SKey, overtaken: set<nat>)
  {
    && k in s.db.stock
    && forall i :: 0 <= i < |s.tasks| && HoldsStock(s.tasks[i], k) ==>
         if i in overtaken then s.tasks[i].n.stock.orderCnt < s.db.stock[k].orderCnt
         else RowCount(s.tasks[i].n.stock) == RowCount(s.db.stock[k])
  }

  /** Only a read makes a worker hold the row, and it holds it as it is stored. */
  lemma ReadHoldsStock(cfg: Config, first: map<SKey, nat>, s: State, i: nat, k: SKey)
    requires ValidConfig(cfg) && Inv(cfg, first, s) && i < cfg.workers && !s.tasks[i].Idle?
    ensures Hit(s.db, s.tasks[i])
    ensures HoldsStock(Step(PointOf(s, i)).task, k) ==>
              ReadsStock(s.tasks[i], k) && k in s.db.stock && Step(PointOf(s, i)).task.n.stock == s.db.stock[k]
  {
    hide RowsPresent, StockInv, LineTable, OwnerInv, OwnedBy, RangeOf, TaskOk, PaymentStep, DeliveryStep, NewOrderReady,
         DeliveryReady, RowsExist, SharedOk, At, Collecting;
    BusyHits(cfg, first, s, i);
    match s.tasks[i]
    case NewOrder(n) => StepHoldsStock(s.db, n, s.clocks[i], k);
    case Payment(p) => PaymentHoldsNoStock(s.db, p, s.clocks[i], k);
    case Delivery(v) => DeliveryHoldsNoStock(s.db, v, s.clocks[i], k);
  }

  lemma StepHoldsStock(db: Db, t: NewOrderTask, clock: nat, k: SKey)
    requires NewOrderHit(db, t)
    ensures var x := NewOrderStep(db, t, clock);
            HoldsStock(x.task, k) ==> ReadsStock(NewOrder(t), k) && k in db.stock && x.task.n.stock == db.stock[k]
  {
  }

  lemma PaymentHoldsNoStock(db: Db, t: PaymentTask, clock: nat, k: SKey)
    requires PaymentHit(db, t)
    ensures !HoldsStock(PaymentStep(db, t, clock).task, k)
  {
  }

  lemma DeliveryHoldsNoStock(db: Db, t: DeliveryTask, clock: nat, k: SKey)
    requires DeliveryHit(db, t)
    ensures !HoldsStock(DeliveryStep(db, t, clock).task, k)
  {
  }

  lemma StartHoldsNoStock(cfg: Config, start: Task, clock: nat, k: SKey)
    requires ValidStart(cfg.warehouses, start, clock)
    ensures !HoldsStock(start, k)
  {
  }

  lemma HoldsStockIsWrite(t: Task, k: SKey)
    ensures HoldsStock(t, k) <==> WritesStock(t) && StockWritten(t) == k
    ensures HoldsStock(t, k) ==> !ReadsStock(t, k) && NewStock(t).orderCnt == t.n.stock.orderCnt + 1
  {
  }

  lemma MoveTracksStock(cfg: Config, first: map<SKey, nat>, s: State, m: Move, k: SKey, overtaken: set<nat>)
    requires ValidConfig(cfg) && Inv(cfg, first, s) && CanMove(cfg, s, m)
    requires m.worker < |s.tasks| && StockTracks(s, k, overtaken) && StockCurrent(s, m, k)
    ensures StockTracks(After(cfg, s, m), k, StockOvertakenAfter(overtaken, s, m, k))
  {
    hide Inv, Step, Hit, NoWrap, ReadsStock, HoldsStock, NewStock, LineCountOf, InHands, TakenBy, WritesStock;
    MoveCounts(cfg, first, s, m, k);
    WorkerIsThere(cfg, s, m);
    HoldsStockIsWrite(s.tasks[m.worker], k);
    if s.tasks[m.worker].Idle? {
      StartHoldsNoStock(cfg, m.start, s.clocks[m.worker], k);
    } else {
      ReadHoldsStock(cfg, first, s, m.worker, k);
    }
  }

  lemma {:induction false} StockOvertakenExactly(cfg: Config, first: map<SKey, nat>, s: State, moves: seq<Move>, k: SKey,
                                                 overtaken: set<nat>)
    requires ValidConfig(cfg) && Inv(cfg, first, s) && IsRun(cfg, s, moves) && StockTracks(s, k, overtaken)
    ensures AllStockCurrent(cfg, s, moves, k) <==> NoStockOvertaken(cfg, s, moves, k, overtaken)
    decreases |moves|
  {
    if moves != [] {
      hide Inv, StockTracks, StockCurrent, StockOvertakenAfter, HoldsStock, CanMove, After;
      var m := moves[0];
      WorkerIsThere(cfg, s, m);
      StockCurrentIsNotOvertaken(s, m, k, overtaken);
      if StockCurrent(s, m, k) {
        MoveTracksStock(cfg, first, s, m, k, overtaken);
        MoveKeepsInv(cfg, first, s, m);
        StockOvertakenExactly(cfg, first, After(cfg, s, m), moves[1..], k, StockOvertakenAfter(overtaken, s, m, k));
      }
    }
  }

  lemma StockCurrentIsNotOvertaken(s: State, m: Move, k: SKey, overtaken: set<nat>)
    requires StockTracks(s, k, overtaken) && m.worker < |s.tasks|
    ensures StockCurrent(s, m, k) <==> (HoldsStock(s.tasks[m.worker], k) ==> m.worker !in overtaken)
  {
  }

  /**
   s_ytd, s_order_cnt and s_remote_cnt are the pieces, the number and the remote number of
   the row's run-time lines in every state of a run if and only if no write-back is stale,
   that is, if and only if nobody else writes the row between a worker's read and write-back.
   */
  lemma StockExactly(cfg: Config, s0: State, moves: seq<Move>, k: SKey)
    requires Init(cfg, s0) && IsRun(cfg, s0, moves) && k in s0.db.stock
    ensures StockCountedThroughout(cfg, s0, moves, k) <==> AllStockCurrent(cfg, s0, moves, k)
    ensures StockCountedThroughout(cfg, s0, moves, k) <==> NoStockOvertaken(cfg, s0, moves, k, {})
  {
    hide Inv, Loaded, StockCounted, IsRun, StockCountedThroughout, AllStockCurrent, NoStockOvertaken;
    InitIsInv(cfg, s0);
    StockOvertakenExactly(cfg, FirstQuantities(s0.db), s0, moves, k, {});
    InitIsCounted(cfg, s0, k);
    CountedExactly(cfg, FirstQuantities(s0.db), s0, moves, k);
  }
}
