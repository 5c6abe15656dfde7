/**
 A transaction whose steps nobody interrupts: it finishes, its outcome is that of one of
 the interleaved runs, and so it keeps the invariant.
 */
module Uninterrupted {
  import opened Schema
  import opened Engine
  import opened WarehouseView
  import opened WarehouseSteps
  import opened Workers
  import opened WorkerSteps

  /** No 32-bit counter wraps before the transaction is done. */
  predicate RoomToFinish(x: Point)
  {
    && x.clock + StepsLeft(x.task) + 1 < TWO32
    && (x.task.NewOrder? && (x.task.n.NoReadDistrict? || x.task.n.NoWriteDistrict?) ==>
         var k := DKey(x.task.n.a.w, x.task.n.a.d);
         && (k in x.db.district ==> x.db.district[k].next + 1 < TWO32)
         && (x.task.n.NoWriteDistrict? ==> x.task.n.row.next + 1 < TWO32))
  }

  lemma NewOrderRoom(db: Db, t: NewOrderTask, clock: nat)
    requires RoomToFinish(Point(db, NewOrder(t), clock)) && NewOrderHit(db, t)
    ensures RoomToFinish(NewOrderStep(db, t, clock))
  {
    NewOrderLeftDecreases(db, t, clock);
  }

  lemma PaymentRoom(db: Db, t: PaymentTask, clock: nat)
    requires RoomToFinish(Point(db, Payment(t), clock)) && PaymentHit(db, t)
    ensures RoomToFinish(PaymentStep(db, t, clock))
  {
    PaymentLeftDecreases(db, t, clock);
  }

  lemma DeliveryRoom(db: Db, t: DeliveryTask, clock: nat)
    requires RoomToFinish(Point(db, Delivery(t), clock)) && DeliveryHit(db, t)
    ensures RoomToFinish(DeliveryStep(db, t, clock))
  {
    DeliveryLeftDecreases(db, t, clock);
  }

  lemma StepRoom(x: Point)
    requires RoomToFinish(x) && Hit(x.db, x.task)
    ensures NoWrap(x) && RoomToFinish(Step(x))
  {
    hide NewOrderStep, PaymentStep, DeliveryStep;
    match x.task
    case NewOrder(n) => NewOrderRoom(x.db, n, x.clock);
    case Payment(p) => PaymentRoom(x.db, p, x.clock);
    case Delivery(v) => DeliveryRoom(x.db, v, x.clock);
  }

  /** The state in which worker `i` has gone on to point `x`. */
  function Moved(s: State, i: nat, x: Point): State
    requires i < |s.tasks| == |s.clocks|
  {
    State(x.db, s.tasks[i := x.task], s.clocks[i := x.clock])
  }

  lemma OneStep(cfg: Config, first: map<SKey, nat>, s: State, i: nat)
    requires ValidConfig(cfg) && Inv(cfg, first, s) && i < cfg.workers && RoomToFinish(PointOf(s, i))
    requires !s.tasks[i].Idle?
    ensures CanMove(cfg, s, Move(i, Idle)) && Hit(s.db, s.tasks[i])
    ensures var s' := After(cfg, s, Move(i, Idle));
            && Inv(cfg, first, s') && s' == Moved(s, i, Step(PointOf(s, i))) && RoomToFinish(PointOf(s', i))
            && StepsLeft(s'.tasks[i]) < StepsLeft(s.tasks[i])
            && Finish(PointOf(s', i)) == Finish(PointOf(s, i))
  {
    assert Finish(PointOf(s, i)) == if Hit(s.db, s.tasks[i]) then Finish(Step(PointOf(s, i))) else Missed;
    hide Finish;
    BusyHits(cfg, first, s, i);
    hide Inv, StepsLeft, RoomToFinish, Step, Ready, At, SharedOk, Hit, RowsExist;
    StepRoom(PointOf(s, i));
    StepsLeftDecreases(PointOf(s, i));
    MoveKeepsInv(cfg, first, s, Move(i, Idle));
  }

  /** `moves` runs worker `i` to the end of its transaction, and only worker `i`. */
  ghost predicate Finishes(cfg: Config, s: State, i: nat, moves: seq<Move>)
    requires ValidConfig(cfg) && i < |s.tasks| == |s.clocks|
  {
    && IsRun(cfg, s, moves) && Finish(PointOf(s, i)).Finished?
    && var end := Finish(PointOf(s, i)); Run(cfg, s, moves) == Moved(s, i, Point(end.db, Idle, end.clock))
  }

  lemma FinishesCons(cfg: Config, s: State, i: nat, moves: seq<Move>)
    requires ValidConfig(cfg) && i < |s.tasks| == |s.clocks| == cfg.workers
    requires CanMove(cfg, s, Move(i, Idle)) && !s.tasks[i].Idle?
    requires Finishes(cfg, After(cfg, s, Move(i, Idle)), i, moves)
    requires Finish(PointOf(After(cfg, s, Move(i, Idle)), i)) == Finish(PointOf(s, i))
    ensures Finishes(cfg, s, i, [Move(i, Idle)] + moves)
  {
    hide Finish, Step, Hit, NoWrap, ValidStart;
    RunCons(cfg, s, Move(i, Idle), moves);
  }

  /** The run alone is one of the interleaved runs, and it ends. */
  lemma {:induction false} FinishIsRun(cfg: Config, first: map<SKey, nat>, s: State, i: nat) returns (moves: seq<Move>)
    requires ValidConfig(cfg) && Inv(cfg, first, s) && i < cfg.workers && RoomToFinish(PointOf(s, i))
    ensures Finishes(cfg, s, i, moves) && Inv(cfg, first, Run(cfg, s, moves))
    decreases StepsLeft(s.tasks[i])
  {
    if s.tasks[i].Idle? {
      moves := [];
      assert s == Moved(s, i, PointOf(s, i));
    } else {
      OneStep(cfg, first, s, i);
      hide Inv, StepsLeft, RoomToFinish, Finishes, CanMove, After;
      moves := FinishIsRun(cfg, first, After(cfg, s, Move(i, Idle)), i);
      FinishesCons(cfg, s, i, moves);
      RunKeepsInv(cfg, first, s, [Move(i, Idle)] + moves);
      moves := [Move(i, Idle)] + moves;
    }
  }

  /** One step further towards the same outcome. */
  lemma Advance(x: Point) returns (y: Point)
    requires !x.task.Idle? && Finish(x).Finished?
    ensures Hit(x.db, x.task) && y == Step(x) && Finish(y) == Finish(x)
  {
    y := Step(x);
  }

  // ----- a whole transaction of worker `i` on warehouse `w`

  /** Worker `i` is between transactions and draws warehouse `w`; counters have room for one more. */
  ghost predicate MayStart(cfg: Config, first: map<SKey, nat>, s: State, i: nat, w: nat)
  {
    && ValidConfig(cfg) && Inv(cfg, first, s) && i < cfg.workers && s.tasks[i].Idle? && OwnedBy(cfg, i, w)
    && s.clocks[i] + 300 < TWO32
    && forall k :: k in s.db.district && k.w == w ==> s.db.district[k].next + 1 < TWO32
  }

  /** `moves` is one transaction of worker `i`, begun as `start` and run to its end at `db` and `clock`. */
  ghost predicate IsTransaction(cfg: Config, s: State, i: nat, start: Task, moves: seq<Move>, db: Db, clock: nat)
  {
    && ValidConfig(cfg) && i < |s.tasks| == |s.clocks|
    && moves != [] && moves[0] == Move(i, start)
    && IsRun(cfg, s, moves) && Run(cfg, s, moves) == Moved(s, i, Point(db, Idle, clock))
  }

  lemma StartLeft(warehouses: nat, start: Task, clock: nat)
    requires ValidStart(warehouses, start, clock)
    ensures StepsLeft(start) <= 200
  {
  }

  /** The counters have room for the whole transaction. */
  lemma StartHasRoom(warehouses: nat, db: Db, start: Task, clock: nat)
    requires ValidStart(warehouses, start, clock) && clock + 300 < TWO32
    requires forall k :: k in db.district && k.w == WarehouseOf(start) ==> db.district[k].next + 1 < TWO32
    ensures RoomToFinish(Point(db, start, ClockAfterStart(start, clock)))
  {
    hide StepsLeft;
    StartLeft(warehouses, start, clock);
  }

  /** An idle worker may start, and only its task and its clock change. */
  lemma StartCanMove(cfg: Config, s: State, i: nat, start: Task)
    requires ValidConfig(cfg) && i < |s.tasks| == |s.clocks| == cfg.workers && s.tasks[i].Idle?
    requires ValidStart(cfg.warehouses, start, s.clocks[i]) && OwnedBy(cfg, i, WarehouseOf(start))
    requires s.clocks[i] + 300 < TWO32
    ensures CanMove(cfg, s, Move(i, start))
    ensures After(cfg, s, Move(i, start)) == Moved(s, i, Point(s.db, start, ClockAfterStart(start, s.clocks[i])))
  {
    hide ValidStart, OwnedBy, Hit, Step, ClockAfterStart;
  }

  lemma StartMoves(cfg: Config, first: map<SKey, nat>, s: State, i: nat, start: Task)
    requires MayStart(cfg, first, s, i, WarehouseOf(start)) && ValidStart(cfg.warehouses, start, s.clocks[i])
    ensures ValidConfig(cfg) && i < |s.tasks| == |s.clocks| == cfg.workers && CanMove(cfg, s, Move(i, start))
    ensures var s', x := After(cfg, s, Move(i, start)), Point(s.db, start, ClockAfterStart(start, s.clocks[i]));
            s' == Moved(s, i, x) && RoomToFinish(PointOf(s', i)) && Inv(cfg, first, s')
  {
    hide ValidStart, RoomToFinish, CanMove, After, ClockAfterStart, OwnedBy, RowsPresent, StockInv, TaskOk,
         OwnerInv;
    StartHasRoom(cfg.warehouses, s.db, start, s.clocks[i]);
    StartCanMove(cfg, s, i, start);
    MoveKeepsInv(cfg, first, s, Move(i, start));
  }

  /** A valid start finishes, as one of the interleaved runs, and keeps the invariant. */
  lemma TransactionRuns(cfg: Config, first: map<SKey, nat>, s: State, i: nat, start: Task) returns (moves: seq<Move>)
    requires MayStart(cfg, first, s, i, WarehouseOf(start)) && ValidStart(cfg.warehouses, start, s.clocks[i])
    ensures var end := Finish(Point(s.db, start, ClockAfterStart(start, s.clocks[i])));
            && end.Finished?
            && IsTransaction(cfg, s, i, start, moves, end.db, end.clock)
            && Inv(cfg, first, Moved(s, i, Point(end.db, Idle, end.clock)))
  {
    var m := Move(i, start);
    hide MayStart, Inv, ValidStart, RoomToFinish, CanMove, Finish, After, Run, IsRun;
    StartMoves(cfg, first, s, i, start);
    var rest := FinishIsRun(cfg, first, After(cfg, s, m), i);
    RunCons(cfg, s, m, rest);
    moves := [m] + rest;
    assert moves[0] == m;
  }
}
