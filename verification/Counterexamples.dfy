/**
 Runs from the loaded state after which a condition fails: overlapping workers lose a
 payment, a credit or a stock update, and a single worker breaks conditions 2, 3, 7 and 11
 of the TPC-C specification (section 3.3.2) by one new order and its delivery.
 */
module Counterexamples {
  import opened Totals
  import opened Schema
  import opened OrderedScan
  import opened Engine
  import opened DeliveryScan
  import opened WarehouseView
  import opened WarehouseInvariant
  import opened Workers
  import opened WorkerSteps
  import opened LoadedState
  import opened Consistency
  import opened Deliveries
  import opened CustomerMoney
  import opened DeliveredMoney
  import opened CustomerBalance
  import opened StockCounts
  import opened Uninterrupted
  import opened Outcomes

  lemma CreditsCons(cfg: Config, s: State, m: Move, moves: seq<Move>, ck: CKey)
    requires ValidConfig(cfg) && CanMove(cfg, s, m) && IsRun(cfg, After(cfg, s, m), moves)
    ensures IsRun(cfg, s, [m] + moves)
    ensures Credits(cfg, s, [m] + moves, ck) == CreditOf(s.tasks[m.worker], ck) + Credits(cfg, After(cfg, s, m), moves, ck)
  {
    assert ([m] + moves)[1..] == moves;
  }

  lemma {:induction false} CreditsAppend(cfg: Config, s: State, moves: seq<Move>, more: seq<Move>, ck: CKey)
    requires ValidConfig(cfg) && IsRun(cfg, s, moves) && IsRun(cfg, Run(cfg, s, moves), more)
    ensures IsRun(cfg, s, moves + more)
    ensures Credits(cfg, s, moves + more, ck) == Credits(cfg, s, moves, ck) + Credits(cfg, Run(cfg, s, moves), more, ck)
    decreases |moves|
  {
    RunAppend(cfg, s, moves, more);
    if moves == [] {
      assert moves + more == more;
    } else {
      CreditsAppend(cfg, After(cfg, s, moves[0]), moves[1..], more, ck);
      assert (moves + more)[1..] == moves[1..] + more;
    }
  }

  // ----- a lost payment

  /** Worker `i` is in payment `a` and has not yet read the customer. */
  ghost predicate BeforeRead(s: State, i: nat, a: PaymentArgs)
  {
    && i < |s.tasks| == |s.clocks| && s.clocks[i] + 1 < TWO32
    && s.tasks[i].Payment? && s.tasks[i].p.a == a && PaymentLeft(s.tasks[i].p) >= 3
    && a.w in s.db.warehouse && DKey(a.w, a.d) in s.db.district && CustomerOf(a) in s.db.customer
  }

  /** The payment moves on until it holds the customer's row and is about to write it back. */
  lemma {:induction false} PayUpToWrite(cfg: Config, s: State, i: nat, a: PaymentArgs) returns (moves: seq<Move>)
    requires ValidConfig(cfg) && cfg.workers == |s.tasks| && BeforeRead(s, i, a)
    ensures IsRun(cfg, s, moves)
    ensures var s' := Run(cfg, s, moves);
            && s'.tasks == s.tasks[i := Payment(PayWriteCustomer(a, s.db.customer[CustomerOf(a)]))]
            && s'.db == s.db.(warehouse := s'.db.warehouse, district := s'.db.district) && s'.clocks == s.clocks
            && s.db.warehouse.Keys <= s'.db.warehouse.Keys && s.db.district.Keys <= s'.db.district.Keys
    ensures Credits(cfg, s, moves, CustomerOf(a)) == 0
    decreases PaymentLeft(s.tasks[i].p)
  {
    var m := Move(i, Idle);
    var s1 := After(cfg, s, m);
    if s.tasks[i].p.PayReadCustomer? {
      moves := [];
    } else {
      moves := PayUpToWrite(cfg, s1, i, a);
    }
    RunCons(cfg, s, m, moves);
    CreditsCons(cfg, s, m, moves, CustomerOf(a));
    moves := [m] + moves;
  }

  /** The payment that worker `i`, of two warehouses, makes for customer `c` of warehouse 1. */
  function PaymentBy(i: nat, c: nat): PaymentArgs { PaymentArgs(i + 1, 1, 1, 1, c, 100, FIRST_TICK) }

  lemma StartPayment(cfg: Config, s: State, i: nat, c: nat) returns (moves: seq<Move>)
    requires cfg == Config(2, 2) && i < 2 && |s.tasks| == |s.clocks| == 2 && IsCustomer(c)
    requires s.tasks[i] == Idle && s.clocks[i] == FIRST_TICK
    requires {1, 2} <= s.db.warehouse.Keys && {DKey(1, 1), DKey(2, 1)} <= s.db.district.Keys
    requires CKey(1, 1, c) in s.db.customer
    ensures IsRun(cfg, s, moves)
    ensures var s' := Run(cfg, s, moves);
            && s'.tasks == s.tasks[i := Payment(PayWriteCustomer(PaymentBy(i, c), s.db.customer[CKey(1, 1, c)]))]
            && s'.db == s.db.(warehouse := s'.db.warehouse, district := s'.db.district)
            && s'.clocks == s.clocks[i := FIRST_TICK + 1]
            && s.db.warehouse.Keys <= s'.db.warehouse.Keys && s.db.district.Keys <= s'.db.district.Keys
    ensures Credits(cfg, s, moves, CKey(1, 1, c)) == 0
  {
    var a := PaymentBy(i, c);
    var m := Move(i, Payment(PayReadWarehouse(a)));
    assert OwnedBy(cfg, i, i + 1) by {
      assert RangeOf(2, 2, i) == (i + 1, i + 2);
    }
    assert CanMove(cfg, s, m);
    var s1 := After(cfg, s, m);
    moves := PayUpToWrite(cfg, s1, i, a);
    RunCons(cfg, s, m, moves);
    CreditsCons(cfg, s, m, moves, CKey(1, 1, c));
    moves := [m] + moves;
  }

  /** The payment writes the customer back. */
  lemma WriteBack(cfg: Config, s: State, i: nat)
    requires ValidConfig(cfg) && |s.tasks| == |s.clocks| == cfg.workers && i < cfg.workers && s.clocks[i] + 1 < TWO32
    requires s.tasks[i].Payment? && s.tasks[i].p.PayWriteCustomer?
    ensures CanMove(cfg, s, Move(i, Idle))
    ensures var t, s' := s.tasks[i].p, After(cfg, s, Move(i, Idle));
            && s'.db.customer == s.db.customer[CustomerOf(t.a) := Paid(t.cust, t.a.amount)]
            && s'.tasks == s.tasks[i := Payment(PayInsertHistory(t.a))] && s'.clocks == s.clocks
  {
  }

  /** The second of two write-backs from copies of the same row is stale in every part that payments change. */
  lemma SecondWriteIsStale(first: map<SKey, nat>, s: State, a0: PaymentArgs, a1: PaymentArgs) returns (s1: State)
    requires Inv(Config(2, 2), first, s) && |s.tasks| == |s.clocks| == 2
    requires s.clocks[0] + 1 < TWO32 && s.clocks[1] + 1 < TWO32
    requires CustomerOf(a0) == CustomerOf(a1) && CustomerOf(a0) in s.db.customer && a0.amount != 0
    requires var row := s.db.customer[CustomerOf(a0)];
             s.tasks == [Payment(PayWriteCustomer(a0, row)), Payment(PayWriteCustomer(a1, row))]
    ensures var cfg, ck, m0, m1 := Config(2, 2), CustomerOf(a0), Move(0, Idle), Move(1, Idle);
            && CanMove(cfg, s, m0) && s1 == After(cfg, s, m0) && Inv(cfg, first, s1) && CanMove(cfg, s1, m1)
            && |s1.tasks| == 2
            && PaymentFieldsCurrent(s, m0, ck) && !PaymentFieldsCurrent(s1, m1, ck)
            && BalanceCurrent(s, m0, ck) && !BalanceCurrent(s1, m1, ck)
            && IsRun(cfg, s, [m0, m1]) && Run(cfg, s, [m0, m1]) == After(cfg, s1, m1)
  {
    hide Inv, Step;
    var cfg, m0, m1 := Config(2, 2), Move(0, Idle), Move(1, Idle);
    WriteBack(cfg, s, 0);
    s1 := After(cfg, s, m0);
    MoveKeepsInv(cfg, first, s, m0);
    WriteBack(cfg, s1, 1);
    RunCons(cfg, s1, m1, []);
    RunCons(cfg, s, m0, [m1]);
  }

  lemma {:induction false} SameFlights(tasks: seq<Task>, tasks': seq<Task>, ck: CKey)
    requires |tasks| == |tasks'|
    requires forall i :: 0 <= i < |tasks| ==> FlightOf(tasks[i], ck) == FlightOf(tasks'[i], ck)
    ensures InFlight(tasks, ck) == InFlight(tasks', ck)
  {
    if tasks != [] {
      SameFlights(tasks[1..], tasks'[1..], ck);
    }
  }

  lemma {:induction false} SameUnderWay(tasks: seq<Task>, tasks': seq<Task>, ck: CKey)
    requires |tasks| == |tasks'|
    requires forall i :: 0 <= i < |tasks| ==> UnderWayOf(tasks[i], ck) == UnderWayOf(tasks'[i], ck)
    ensures UnderWay(tasks, ck) == UnderWay(tasks', ck)
  {
    if tasks != [] {
      SameUnderWay(tasks[1..], tasks'[1..], ck);
    }
  }

  /** Both equations depend on the customer's row, the tables behind them and what is under way. */
  lemma StillConserved(s: State, s': State, ck: CKey)
    requires Conserved(s, ck) && BalanceHolds(s, ck)
    requires s'.db == s.db.(warehouse := s'.db.warehouse, district := s'.db.district) && |s.tasks| == |s'.tasks|
    requires forall i :: 0 <= i < |s.tasks| ==>
               && FlightOf(s.tasks[i], ck) == FlightOf(s'.tasks[i], ck)
               && UnderWayOf(s.tasks[i], ck) == UnderWayOf(s'.tasks[i], ck)
    ensures Conserved(s', ck) && BalanceHolds(s', ck)
  {
    hide InFlight, UnderWay, Total, PaymentsOf, DatedLines;
    SameFlights(s.tasks, s'.tasks, ck);
    SameUnderWay(s.tasks, s'.tasks, ck);
  }

  ghost predicate TwoPayments(s: State)
  {
    && CKey(1, 1, 1) in s.db.customer
    && s.clocks == [FIRST_TICK + 1, FIRST_TICK + 1]
    && var row := s.db.customer[CKey(1, 1, 1)];
       s.tasks == [Payment(PayWriteCustomer(PaymentBy(0, 1), row)),
                   Payment(PayWriteCustomer(PaymentBy(1, 1), row))]
  }

  lemma RowsAreLoaded(s0: State)
    requires Init(Config(2, 2), s0)
    ensures {1, 2} <= s0.db.warehouse.Keys && {DKey(1, 1), DKey(2, 1)} <= s0.db.district.Keys
    ensures CKey(1, 1, 1) in s0.db.customer && ValidConfig(Config(2, 2))
    ensures s0.tasks == [Idle, Idle] && s0.clocks == [FIRST_TICK, FIRST_TICK]
  {
    hide LoadedHistory, LoadedItem, LoadedStock, LoadedOrder, LoadedNewOrder, LoadedOrderLine, LoadedPending, LoadedLatest;
  }

  /** Both payments have read the customer before either writes it. */
  lemma BothRead(s0: State) returns (moves: seq<Move>)
    requires Init(Config(2, 2), s0)
    ensures IsRun(Config(2, 2), s0, moves)
    ensures var s := Run(Config(2, 2), s0, moves);
            TwoPayments(s) && s.db == s0.db.(warehouse := s.db.warehouse, district := s.db.district)
  {
    hide Loaded, Run, IsRun, Credits, ValidConfig;
    RowsAreLoaded(s0);
    var m0 := StartPayment(Config(2, 2), s0, 0, 1);
    var m1 := StartPayment(Config(2, 2), Run(Config(2, 2), s0, m0), 1, 1);
    RunAppend(Config(2, 2), s0, m0, m1);
    moves := m0 + m1;
  }

  lemma TwoPaymentsConserved(s0: State, s: State)
    requires Init(Config(2, 2), s0) && TwoPayments(s)
    requires s.db == s0.db.(warehouse := s.db.warehouse, district := s.db.district)
    ensures Conserved(s, CKey(1, 1, 1)) && BalanceHolds(s, CKey(1, 1, 1))
  {
    hide Loaded, Conserved, BalanceHolds;
    InitHolds(Config(2, 2), s0, CKey(1, 1, 1));
    StillConserved(s0, s, CKey(1, 1, 1));
  }

  lemma TwoPaymentsLose(first: map<SKey, nat>, s: State)
    requires Inv(Config(2, 2), first, s) && TwoPayments(s)
    requires Conserved(s, CKey(1, 1, 1)) && BalanceHolds(s, CKey(1, 1, 1))
    ensures var cfg, moves := Config(2, 2), [Move(0, Idle), Move(1, Idle)];
            && IsRun(cfg, s, moves) && !Conserved(Run(cfg, s, moves), CKey(1, 1, 1))
            && !BalanceHolds(Run(cfg, s, moves), CKey(1, 1, 1))
  {
    hide Inv, Conserved, BalanceHolds, PaymentFieldsCurrent, BalanceCurrent, CanMove, After, Run, IsRun;
    var cfg, ck, m0, m1 := Config(2, 2), CKey(1, 1, 1), Move(0, Idle), Move(1, Idle);
    var s1 := SecondWriteIsStale(first, s, PaymentBy(0, 1), PaymentBy(1, 1));
    MoveConserves(cfg, first, s, m0, ck);
    MoveConserves(cfg, first, s1, m1, ck);
    MoveBalanceHolds(cfg, first, s, m0, ck);
    MoveBalanceHolds(cfg, first, s1, m1, ck);
  }

  /**
   Two workers, two warehouses: both pay for customer 1 of warehouse 1, each reading the
   row before the other writes it. One payment is lost from c_ytd_payment and from c_balance,
   and with it condition 10.
   */
  lemma PaymentIsLost(s0: State) returns (moves: seq<Move>)
    requires Init(Config(2, 2), s0)
    ensures IsRun(Config(2, 2), s0, moves)
    ensures !Conserved(Run(Config(2, 2), s0, moves), CKey(1, 1, 1))
    ensures !BalanceHolds(Run(Config(2, 2), s0, moves), CKey(1, 1, 1))
  {
    hide Inv, Conserved, BalanceHolds, Run, IsRun, TwoPayments;
    var cfg, first, last := Config(2, 2), FirstQuantities(s0.db), [Move(0, Idle), Move(1, Idle)];
    var m := BothRead(s0);
    InitIsInv(cfg, s0);
    RunKeepsInv(cfg, first, s0, m);
    TwoPaymentsConserved(s0, Run(cfg, s0, m));
    TwoPaymentsLose(first, Run(cfg, s0, m));
    hide Init;
    RunAppend(cfg, s0, m, last);
    moves := m + last;
  }

  // ----- a delivery up to the customer's row

  /** `t` is delivering order `k`, of customer `c`, and will get as far as the customer's row. */
  ghost predicate OnTrack(db: Db, t: Task, k: OKey, c: nat)
  {
    && t.Delivery? && t.v.a.w == k.w && t.v.d == k.d && t.v.a.carrier != 0
    && k in db.order && db.order[k].c == c
    && (t.v.DelReadPending? ==> DKey(k.w, k.d) in db.pending && db.pending[DKey(k.w, k.d)] == k.o && k in db.newOrder)
    && (t.v.DelReadNewOrder? ==> t.v.o == k.o && k in db.newOrder)
    && (!t.v.DelReadPending? ==> t.v.o == k.o)
    && (!t.v.DelReadPending? && !t.v.DelReadNewOrder? && !t.v.DelReadOrder? ==>
         t.v.order.c == c && t.v.order.lines == db.order[k].lines)
    && (t.v.DelScanLines? || t.v.DelWriteLine? || t.v.DelReadCustomer? || t.v.DelWriteCustomer? ==>
         db.order[k].carrier != 0)
  }

  lemma StepOnTrack(x: Point, k: OKey, c: nat)
    requires Hit(x.db, x.task) && OnTrack(x.db, x.task, k, c) && !x.task.v.DelWriteCustomer?
    ensures var y := Step(x);
            && OnTrack(y.db, y.task, k, c) && y.db.customer == x.db.customer
            && y.db.order[k].lines == x.db.order[k].lines
            && (y.task.v.DelWriteCustomer? ==>
                 CKey(k.w, k.d, c) in x.db.customer && y.task.v.cust == x.db.customer[CKey(k.w, k.d, c)])
            && CreditOf(x.task, CKey(k.w, k.d, c)) == 0
  {
  }

  /** Since `s` only worker `i` has moved; it is about to credit the customer's row as it was in `s`. */
  ghost predicate AboutToCredit(s: State, s': State, i: nat, k: OKey, c: nat)
  {
    && i < |s'.tasks| == |s'.clocks| == |s.tasks| == |s.clocks| && RoomToFinish(PointOf(s', i))
    && s'.tasks == s.tasks[i := s'.tasks[i]] && s'.clocks == s.clocks[i := s'.clocks[i]]
    && s'.db.customer == s.db.customer
    && OnTrack(s'.db, s'.tasks[i], k, c) && s'.tasks[i].v.DelWriteCustomer?
    && k in s.db.order && s'.db.order[k].lines == s.db.order[k].lines
    && CKey(k.w, k.d, c) in s.db.customer && s'.tasks[i].v.cust == s.db.customer[CKey(k.w, k.d, c)]
  }

  lemma CreditAfterMove(s: State, s1: State, s': State, i: nat, k: OKey, c: nat)
    requires AboutToCredit(s1, s', i, k, c) && i < |s.tasks| == |s.clocks| == |s1.tasks| == |s1.clocks|
    requires s1.tasks == s.tasks[i := s1.tasks[i]] && s1.clocks == s.clocks[i := s1.clocks[i]]
    requires s1.db.customer == s.db.customer && k in s.db.order && k in s1.db.order
    requires s1.db.order[k].lines == s.db.order[k].lines
    ensures AboutToCredit(s, s', i, k, c)
  {
    hide RoomToFinish, OnTrack;
  }

  lemma CreditNow(s: State, s1: State, i: nat, k: OKey, c: nat)
    requires i < |s.tasks| == |s.clocks| == |s1.tasks| == |s1.clocks| && RoomToFinish(PointOf(s1, i))
    requires s1.tasks == s.tasks[i := s1.tasks[i]] && s1.clocks == s.clocks[i := s1.clocks[i]]
    requires s1.db.customer == s.db.customer && k in s.db.order && k in s1.db.order
    requires s1.db.order[k].lines == s.db.order[k].lines
    requires OnTrack(s1.db, s1.tasks[i], k, c) && s1.tasks[i].v.DelWriteCustomer?
    requires CKey(k.w, k.d, c) in s.db.customer && s1.tasks[i].v.cust == s.db.customer[CKey(k.w, k.d, c)]
    ensures AboutToCredit(s, s1, i, k, c)
  {
    hide RoomToFinish, OnTrack;
  }

  /** Worker `i` goes on until it is about to credit the customer. */
  lemma {:induction false} DeliverUpToCredit(cfg: Config, first: map<SKey, nat>, s: State, i: nat, k: OKey, c: nat)
    returns (moves: seq<Move>)
    requires ValidConfig(cfg) && Inv(cfg, first, s) && i < cfg.workers && RoomToFinish(PointOf(s, i))
    requires OnTrack(s.db, s.tasks[i], k, c) && !s.tasks[i].v.DelWriteCustomer?
    ensures IsRun(cfg, s, moves) && Credits(cfg, s, moves, CKey(k.w, k.d, c)) == 0
    ensures Inv(cfg, first, Run(cfg, s, moves)) && AboutToCredit(s, Run(cfg, s, moves), i, k, c)
    decreases StepsLeft(s.tasks[i])
  {
    hide Inv, StepsLeft, RoomToFinish, CanMove, After, OnTrack, Step, Hit, Finish, CreditOf, AboutToCredit;
    var m := Move(i, Idle);
    TasksAreThere(cfg, first, s);
    TrackIsBusy(s.db, s.tasks[i], k, c);
    OneStep(cfg, first, s, i);
    StepOnTrack(PointOf(s, i), k, c);
    var s1 := After(cfg, s, m);
    TrackIsBusy(s1.db, s1.tasks[i], k, c);
    if s1.tasks[i].v.DelWriteCustomer? {
      moves := [];
      CreditNow(s, s1, i, k, c);
    } else {
      moves := DeliverUpToCredit(cfg, first, s1, i, k, c);
      CreditAfterMove(s, s1, Run(cfg, s1, moves), i, k, c);
    }
    RunCons(cfg, s, m, moves);
    CreditsCons(cfg, s, m, moves, CKey(k.w, k.d, c));
    moves := [m] + moves;
  }

  lemma TrackIsBusy(db: Db, t: Task, k: OKey, c: nat)
    requires OnTrack(db, t, k, c)
    ensures t.Delivery? && k in db.order
  {
  }

  lemma TasksAreThere(cfg: Config, first: map<SKey, nat>, s: State)
    requires ValidConfig(cfg) && Inv(cfg, first, s)
    ensures |s.tasks| == |s.clocks| == cfg.workers
  {
  }

  /** An idle worker starts delivering; its first district's newest order is `k`. */
  lemma StartDelivery(cfg: Config, first: map<SKey, nat>, s: State, i: nat, k: OKey, c: nat) returns (moves: seq<Move>)
    requires ValidConfig(cfg) && Inv(cfg, first, s) && i < cfg.workers && |s.tasks| == |s.clocks| == cfg.workers
    requires s.tasks[i] == Idle && s.clocks[i] + 300 < TWO32 && OwnedBy(cfg, i, k.w) && 1 <= k.w <= cfg.warehouses
    requires k.d == 1 && k in s.db.order && s.db.order[k].c == c && k in s.db.newOrder
    requires DKey(k.w, 1) in s.db.pending && s.db.pending[DKey(k.w, 1)] == k.o
    ensures IsRun(cfg, s, moves) && Credits(cfg, s, moves, CKey(k.w, k.d, c)) == 0
    ensures Inv(cfg, first, Run(cfg, s, moves)) && AboutToCredit(s, Run(cfg, s, moves), i, k, c)
  {
    var start := Delivery(DelReadPending(DeliveryArgs(k.w, 1), 1));
    var m := Move(i, start);
    DeliveryMayStart(cfg, s.db, s.clocks[i], k, c);
    assert CreditOf(s.tasks[i], CKey(k.w, k.d, c)) == 0;
    hide Inv, OwnedBy, RoomToFinish, OnTrack, ValidStart, CanMove, After, CreditOf, IsRun, Run, Credits, AboutToCredit;
    StartCanMove(cfg, s, i, start);
    MoveKeepsInv(cfg, first, s, m);
    moves := DeliverUpToCredit(cfg, first, After(cfg, s, m), i, k, c);
    CreditAfterMove(s, After(cfg, s, m), Run(cfg, After(cfg, s, m), moves), i, k, c);
    RunCons(cfg, s, m, moves);
    CreditsCons(cfg, s, m, moves, CKey(k.w, k.d, c));
    moves := [m] + moves;
  }

  lemma DeliveryMayStart(cfg: Config, db: Db, clock: nat, k: OKey, c: nat)
    requires clock + 300 < TWO32 && 1 <= k.w <= cfg.warehouses
    requires k.d == 1 && k in db.order && db.order[k].c == c && k in db.newOrder
    requires DKey(k.w, 1) in db.pending && db.pending[DKey(k.w, 1)] == k.o
    ensures var start := Delivery(DelReadPending(DeliveryArgs(k.w, 1), 1));
            && ValidStart(cfg.warehouses, start, clock) && OnTrack(db, start, k, c) && RoomToFinish(Point(db, start, clock))
            && ClockAfterStart(start, clock) == clock && WarehouseOf(start) == k.w
  {
  }

  // ----- a lost credit

  /** Both rows are written back from copies of the same row: first the credit, then the payment. */
  lemma TwoWriteBacks(cfg: Config, s: State, k: OKey, c: nat)
    requires cfg == Config(2, 2) && |s.tasks| == |s.clocks| == 2 && s.clocks[0] + 1 < TWO32 && s.clocks[1] + 1 < TWO32
    requires var ck := CKey(1, 1, c);
             && ck in s.db.customer && k.w == 1 && k.d == 1
             && OnTrack(s.db, s.tasks[0], k, c) && s.tasks[0].v.DelWriteCustomer?
             && s.tasks[0].v.cust == s.db.customer[ck]
             && s.tasks[1] == Payment(PayWriteCustomer(PaymentBy(1, c), s.db.customer[ck]))
    ensures var ck, moves := CKey(1, 1, c), [Move(0, Idle), Move(1, Idle)];
            && IsRun(cfg, s, moves) && ck in Run(cfg, s, moves).db.customer
            && SumOf(Run(cfg, s, moves).db.customer[ck]) == SumOf(s.db.customer[ck])
            && Credits(cfg, s, moves, ck) == s.tasks[0].v.total
  {
    var ck, m0, m1 := CKey(1, 1, c), Move(0, Idle), Move(1, Idle);
    var s1 := After(cfg, s, m0);
    var s2 := After(cfg, s1, m1);
    RunCons(cfg, s1, m1, []);
    RunCons(cfg, s, m0, [m1]);
    CreditsCons(cfg, s1, m1, [], ck);
    CreditsCons(cfg, s, m0, [m1], ck);
    assert [m0] + [m1] == [m0, m1] && [m1] + [] == [m1];
  }

  lemma LoadedNewest(s0: State) returns (c: nat)
    requires Init(Config(2, 2), s0)
    ensures var k := OKey(1, 1, LAST_LOADED);
            && k in s0.db.order && s0.db.order[k].c == c && IsCustomer(c) && k in s0.db.newOrder
            && DKey(1, 1) in s0.db.pending && s0.db.pending[DKey(1, 1)] == LAST_LOADED
            && CKey(1, 1, c) in s0.db.customer && SumOf(s0.db.customer[CKey(1, 1, c)]) == 0
    ensures {1, 2} <= s0.db.warehouse.Keys && {DKey(1, 1), DKey(2, 1)} <= s0.db.district.Keys
    ensures OwnedBy(Config(2, 2), 0, 1)
  {
    c := s0.db.order[OKey(1, 1, LAST_LOADED)].c;
    assert RangeOf(2, 2, 0) == (1, 2);
  }

  /**
   Two workers, two warehouses: a remote payment reads a customer's row, the owner's delivery
   credits the customer, and the payment writes back its copy. The credit is lost from
   c_balance, and with it condition 12.
   */
  lemma CreditIsLost(s0: State) returns (moves: seq<Move>, ck: CKey)
    requires Init(Config(2, 2), s0)
    ensures IsRun(Config(2, 2), s0, moves) && ck in s0.db.customer && Credits(Config(2, 2), s0, moves, ck) > 0
    ensures var s := Run(Config(2, 2), s0, moves);
            ck in s.db.customer && SumOf(s.db.customer[ck]) == SumOf(s0.db.customer[ck]) == 0 && !SumHolds(s, ck)
  {
    hide Loaded, Run, IsRun, Inv, Credits, SumOf, OnTrack, OwnedBy, RoomToFinish, DatedLines, Total, UnderWay;
    var cfg, first, k, last := Config(2, 2), FirstQuantities(s0.db), OKey(1, 1, LAST_LOADED), [Move(0, Idle), Move(1, Idle)];
    var c := LoadedNewest(s0);
    ck := CKey(1, 1, c);
    InitIsInv(cfg, s0);
    var m0 := StartPayment(cfg, s0, 1, c);
    var s1 := Run(cfg, s0, m0);
    RunKeepsInv(cfg, first, s0, m0);
    var m1 := StartDelivery(cfg, first, s1, 0, k, c);
    var s2 := Run(cfg, s1, m1);
    TrackIsBusy(s2.db, s2.tasks[0], k, c);
    CreditIsPositive(cfg, first, s2, 0);
    ClocksHaveRoom(s2);
    TwoWriteBacks(cfg, s2, k, c);
    RunAppend(cfg, s0, m0, m1);
    CreditsAppend(cfg, s0, m0, m1, ck);
    RunAppend(cfg, s0, m0 + m1, last);
    CreditsAppend(cfg, s0, m0 + m1, last, ck);
    moves := m0 + m1 + last;
    CreditsAreDatedLines(cfg, s0, moves, ck);
  }

  lemma ClocksHaveRoom(s: State)
    requires |s.tasks| == |s.clocks| == 2 && RoomToFinish(PointOf(s, 0)) && s.clocks[1] == FIRST_TICK + 1
    ensures s.clocks[0] + 1 < TWO32 && s.clocks[1] + 1 < TWO32
  {
  }

  // ----- a lost stock update

  /** `t` is a new order on its way to write back its first stock row. */
  predicate OnWay(t: Task, a: NewOrderArgs)
  {
    && t.NewOrder? && t.n.a == a && a.lines != [] && !Undoing(t.n) && !t.n.NoInsertLine?
    && (t.n.NoReadItem? || t.n.NoReadStock? || t.n.NoWriteStock? ==> t.n.i == 0)
  }

  function FirstStock(a: NewOrderArgs): SKey
    requires a.lines != []
  {
    SKey(a.lines[0].supply, a.lines[0].item)
  }

  lemma StepOnWay(x: Point, a: NewOrderArgs)
    requires Hit(x.db, x.task) && OnWay(x.task, a) && !x.task.n.NoWriteStock?
    requires x.task.n.NoReadItem? ==> a.lines[0].item in x.db.item
    ensures var y := Step(x);
            && OnWay(y.task, a) && y.db.stock == x.db.stock && y.db.orderLine == x.db.orderLine
            && (forall k :: k in y.db.district && k.w != a.w ==> k in x.db.district && y.db.district[k] == x.db.district[k])
            && (y.task.n.NoWriteStock? ==>
                 FirstStock(a) in x.db.stock && y.task.n.stock == x.db.stock[FirstStock(a)])
  {
  }

  /** Since `s` only worker `i` has moved; it is about to write back the row as it was in `s`. */
  ghost predicate AboutToWrite(s: State, s': State, i: nat, a: NewOrderArgs)
  {
    && i < |s'.tasks| == |s'.clocks| == |s.tasks| == |s.clocks| && RoomToFinish(PointOf(s', i))
    && s'.tasks == s.tasks[i := s'.tasks[i]] && s'.clocks == s.clocks[i := s'.clocks[i]]
    && s'.db.stock == s.db.stock && s'.db.orderLine == s.db.orderLine
    && (forall k :: k in s'.db.district && k.w != a.w ==> k in s.db.district && s'.db.district[k] == s.db.district[k])
    && OnWay(s'.tasks[i], a) && s'.tasks[i].n.NoWriteStock?
    && FirstStock(a) in s.db.stock && s'.tasks[i].n.stock == s.db.stock[FirstStock(a)]
  }

  /** A step that changes nothing that counts may come before. */
  lemma WriteAfterMove(s: State, s1: State, s': State, i: nat, a: NewOrderArgs)
    requires AboutToWrite(s1, s', i, a) && i < |s.tasks| == |s.clocks| == |s1.tasks| == |s1.clocks|
    requires s1.tasks == s.tasks[i := s1.tasks[i]] && s1.clocks == s.clocks[i := s1.clocks[i]]
    requires s1.db.stock == s.db.stock && s1.db.orderLine == s.db.orderLine
    requires forall k :: k in s1.db.district && k.w != a.w ==> k in s.db.district && s1.db.district[k] == s.db.district[k]
    ensures AboutToWrite(s, s', i, a)
  {
    hide RoomToFinish, OnWay;
  }

  lemma WriteNow(s: State, s1: State, i: nat, a: NewOrderArgs)
    requires i < |s.tasks| == |s.clocks| == |s1.tasks| == |s1.clocks| && RoomToFinish(PointOf(s1, i))
    requires s1.tasks == s.tasks[i := s1.tasks[i]] && s1.clocks == s.clocks[i := s1.clocks[i]]
    requires s1.db.stock == s.db.stock && s1.db.orderLine == s.db.orderLine
    requires forall k :: k in s1.db.district && k.w != a.w ==> k in s.db.district && s1.db.district[k] == s.db.district[k]
    requires OnWay(s1.tasks[i], a) && s1.tasks[i].n.NoWriteStock?
    requires FirstStock(a) in s.db.stock && s1.tasks[i].n.stock == s.db.stock[FirstStock(a)]
    ensures AboutToWrite(s, s1, i, a)
  {
    hide RoomToFinish;
  }

  lemma ItemIsThere(cfg: Config, first: map<SKey, nat>, s: State, i: nat, a: NewOrderArgs)
    requires ValidConfig(cfg) && Inv(cfg, first, s) && i < cfg.workers && OnWay(s.tasks[i], a)
    ensures s.tasks[i].n.NoReadItem? ==> a.lines[0].item in s.db.item
  {
    hide RowsPresent, StockInv, LineTable, OwnerInv, OwnedBy, TaskOk, RowsExist, SharedOk;
    BusyHits(cfg, first, s, i);
  }

  /** Worker `i` goes on until it is about to write back its first stock row. */
  lemma {:induction false} OrderUpToWrite(cfg: Config, first: map<SKey, nat>, s: State, i: nat, a: NewOrderArgs)
    returns (moves: seq<Move>)
    requires ValidConfig(cfg) && Inv(cfg, first, s) && i < cfg.workers && RoomToFinish(PointOf(s, i))
    requires OnWay(s.tasks[i], a) && !s.tasks[i].n.NoWriteStock?
    ensures IsRun(cfg, s, moves) && Inv(cfg, first, Run(cfg, s, moves)) && AboutToWrite(s, Run(cfg, s, moves), i, a)
    decreases StepsLeft(s.tasks[i])
  {
    hide Inv, StepsLeft, RoomToFinish, CanMove, After, Step, Hit, Finish, AboutToWrite;
    var m := Move(i, Idle);
    TasksAreThere(cfg, first, s);
    ItemIsThere(cfg, first, s, i, a);
    OneStep(cfg, first, s, i);
    StepOnWay(PointOf(s, i), a);
    var s1 := After(cfg, s, m);
    if s1.tasks[i].n.NoWriteStock? {
      moves := [];
      WriteNow(s, s1, i, a);
    } else {
      moves := OrderUpToWrite(cfg, first, s1, i, a);
      WriteAfterMove(s, s1, Run(cfg, s1, moves), i, a);
    }
    RunCons(cfg, s, m, moves);
    moves := [m] + moves;
  }

  /** A new order by worker `i`, of two warehouses, for five times one piece of item 1 from warehouse 1. */
  function FromOne(i: nat): NewOrderArgs { NewOrderArgs(i + 1, 1, 1, seq(5, _ => LineArgs(1, 1, 1))) }

  lemma FromOneIsValid(i: nat, clock: nat)
    requires i < 2
    ensures var start := NewOrder(NoReadDistrict(FromOne(i)));
            && ValidStart(2, start, clock) && WarehouseOf(start) == i + 1 && ClockAfterStart(start, clock) == clock
            && OnWay(start, FromOne(i)) && FirstStock(FromOne(i)) == SKey(1, 1)
  {
  }

  lemma StartOrder(first: map<SKey, nat>, s: State, i: nat) returns (moves: seq<Move>)
    requires i < 2 && MayStart(Config(2, 2), first, s, i, i + 1) && |s.tasks| == |s.clocks| == 2
    ensures IsRun(Config(2, 2), s, moves) && Inv(Config(2, 2), first, Run(Config(2, 2), s, moves))
    ensures AboutToWrite(s, Run(Config(2, 2), s, moves), i, FromOne(i))
  {
    hide MayStart, Inv, ValidStart, RoomToFinish, CanMove, After, Run, IsRun, AboutToWrite, OnWay, FromOne;
    var cfg, a := Config(2, 2), FromOne(i);
    var m := Move(i, NewOrder(NoReadDistrict(a)));
    FromOneIsValid(i, s.clocks[i]);
    StartMoves(cfg, first, s, i, m.start);
    var s1 := After(cfg, s, m);
    moves := OrderUpToWrite(cfg, first, s1, i, a);
    WriteAfterMove(s, s1, Run(cfg, s1, moves), i, a);
    RunCons(cfg, s, m, moves);
    moves := [m] + moves;
  }

  /** Both workers may start, the second also after the first has. */
  lemma BothMayStart(s0: State)
    requires Init(Config(2, 2), s0)
    ensures MayStart(Config(2, 2), FirstQuantities(s0.db), s0, 0, 1)
    ensures |s0.tasks| == |s0.clocks| == 2 && s0.tasks[1] == Idle && s0.clocks[1] == FIRST_TICK
    ensures OwnedBy(Config(2, 2), 1, 2) && SKey(1, 1) in s0.db.stock
    ensures forall k :: k in s0.db.district ==> s0.db.district[k].next == 3001
  {
    hide Inv, LoadedWarehouse, LoadedOrder, LoadedNewOrder, LoadedOrderLine, LoadedHistory, LoadedCustomer, LoadedPending,
         LoadedLatest, LoadedItem;
    InitIsInv(Config(2, 2), s0);
    assert RangeOf(2, 2, 0) == (1, 2) && RangeOf(2, 2, 1) == (2, 3);
  }

  lemma SecondMayStart(first: map<SKey, nat>, s0: State, s1: State)
    requires Inv(Config(2, 2), first, s1) && AboutToWrite(s0, s1, 0, FromOne(0))
    requires |s0.tasks| == |s0.clocks| == 2 && s0.tasks[1] == Idle && s0.clocks[1] == FIRST_TICK
    requires OwnedBy(Config(2, 2), 1, 2) && forall k :: k in s0.db.district ==> s0.db.district[k].next == 3001
    ensures MayStart(Config(2, 2), first, s1, 1, 2)
  {
    hide Inv, RoomToFinish, OnWay, OwnedBy;
  }

  /** Two orders that hold the same stock row, as it was loaded. */
  ghost predicate TwoWriters(s: State, k: SKey)
  {
    && |s.tasks| == |s.clocks| == 2 && k in s.db.stock && s.clocks[0] + 1 < TWO32 && s.clocks[1] + 1 < TWO32
    && HoldsStock(s.tasks[0], k) && HoldsStock(s.tasks[1], k)
    && s.tasks[0].n.stock == s.db.stock[k] && s.tasks[1].n.stock == s.db.stock[k]
  }

  lemma BothHold(s0: State, s1: State, s2: State)
    requires AboutToWrite(s0, s1, 0, FromOne(0)) && AboutToWrite(s1, s2, 1, FromOne(1)) && |s0.tasks| == 2
    ensures TwoWriters(s2, SKey(1, 1)) && s2.db.stock == s0.db.stock && s2.db.orderLine == s0.db.orderLine
  {
  }

  lemma HolderIsUncounted(t: Task, k: SKey)
    requires t == Idle || HoldsStock(t, k)
    ensures InHandOf(t, k) == Count(0, 0, 0)
  {
  }

  /** The row is written twice from the same copy. */
  lemma StockWrittenTwice(first: map<SKey, nat>, s: State, k: SKey)
    requires Inv(Config(2, 2), first, s) && TwoWriters(s, k) && StockCounted(s, k)
    ensures var cfg, moves := Config(2, 2), [Move(0, Idle), Move(1, Idle)];
            IsRun(cfg, s, moves) && !StockCounted(Run(cfg, s, moves), k)
  {
    hide Inv, StockCounted, Step, LineCountOf, InHands, NewStock, TakenBy;
    var cfg, m0, m1 := Config(2, 2), Move(0, Idle), Move(1, Idle);
    WriterCanMove(cfg, s, 0, k);
    var s1 := After(cfg, s, m0);
    MoveKeepsCounts(cfg, first, s, m0, k);
    MoveCounts(cfg, first, s, m0, k);
    HoldsStockIsWrite(s.tasks[0], k);
    MoveKeepsInv(cfg, first, s, m0);
    WriterCanMove(cfg, s1, 1, k);
    MoveKeepsCounts(cfg, first, s1, m1, k);
    RunCons(cfg, s1, m1, []);
    RunCons(cfg, s, m0, [m1]);
  }

  lemma WriterCanMove(cfg: Config, s: State, i: nat, k: SKey)
    requires ValidConfig(cfg) && i < |s.tasks| == |s.clocks| == cfg.workers && s.clocks[i] + 1 < TWO32
    requires HoldsStock(s.tasks[i], k)
    ensures CanMove(cfg, s, Move(i, Idle))
    ensures var s' := After(cfg, s, Move(i, Idle));
            |s'.tasks| == |s'.clocks| == cfg.workers && s'.clocks == s.clocks
            && forall j :: 0 <= j < |s.tasks| && j != i ==> s'.tasks[j] == s.tasks[j]
  {
  }

  /**
   Two workers, two warehouses: each enters an order with an item from warehouse 1, reading
   the stock row before the other writes it. One order is missing from its counts.
   */
  lemma StockIsLost(s0: State) returns (moves: seq<Move>)
    requires Init(Config(2, 2), s0)
    ensures IsRun(Config(2, 2), s0, moves) && !StockCounted(Run(Config(2, 2), s0, moves), SKey(1, 1))
  {
    hide Loaded, Run, IsRun, Inv, MayStart, AboutToWrite, TwoWriters, StockCounted, OwnedBy, FromOne;
    var cfg, first, k, last := Config(2, 2), FirstQuantities(s0.db), SKey(1, 1), [Move(0, Idle), Move(1, Idle)];
    BothMayStart(s0);
    var m0 := StartOrder(first, s0, 0);
    var s1 := Run(cfg, s0, m0);
    SecondMayStart(first, s0, s1);
    SameNumberOfTasks(s0, s1, 0, FromOne(0));
    var m1 := StartOrder(first, s1, 1);
    var s2 := Run(cfg, s1, m1);
    BothHold(s0, s1, s2);
    InitIsCounted(cfg, s0, k);
    StillCounted(s0, s2, k);
    StockWrittenTwice(first, s2, k);
    RunAppend(cfg, s0, m0, m1);
    RunAppend(cfg, s0, m0 + m1, last);
    moves := m0 + m1 + last;
  }

  lemma SameNumberOfTasks(s: State, s': State, i: nat, a: NewOrderArgs)
    requires AboutToWrite(s, s', i, a)
    ensures |s'.tasks| == |s'.clocks| == |s.tasks| == |s.clocks|
  {
  }

  lemma StillCounted(s0: State, s: State, k: SKey)
    requires Init(Config(2, 2), s0) && StockCounted(s0, k) && TwoWriters(s, k)
    requires s.db.stock == s0.db.stock && s.db.orderLine == s0.db.orderLine
    ensures StockCounted(s, k)
  {
    hide Loaded, LineCountOf, InHands, InHandOf, HoldsStock;
    HolderIsUncounted(Idle, k);
    HolderIsUncounted(s.tasks[0], k);
    HolderIsUncounted(s.tasks[1], k);
    EmptyHands(s0.tasks, k);
    EmptyHands(s.tasks, k);
  }

  // ----- conditions that one worker breaks

  /** A new order of eleven lines in district 1 of warehouse 1. */
  function ElevenLines(): NewOrderArgs { NewOrderArgs(1, 1, 1, seq(11, _ => LineArgs(1, 1, 1))) }

  const FIRST_ENTERED: OKey := OKey(1, 1, 3002)

  lemma MayEnter(s0: State)
    requires Init(Config(1, 1), s0)
    ensures MayStart(Config(1, 1), FirstQuantities(s0.db), s0, 0, 1)
    ensures DKey(1, 1) in s0.db.district && s0.db.district[DKey(1, 1)].next == 3001
  {
    hide Inv, LoadedWarehouse, LoadedOrder, LoadedNewOrder, LoadedOrderLine, LoadedHistory, LoadedCustomer, LoadedPending,
         LoadedLatest, LoadedItem, LoadedStock;
    InitIsInv(Config(1, 1), s0);
    assert RangeOf(1, 1, 0) == (1, 2);
  }

  lemma ElevenIsValid()
    ensures ValidStart(1, NewOrder(NoReadDistrict(ElevenLines())), FIRST_TICK)
    ensures WarehouseOf(NewOrder(NoReadDistrict(ElevenLines()))) == 1 && |ElevenLines().lines| == 11
    ensures ElevenLines().w == 1 && ElevenLines().d == 1 && ElevenLines().c == 1
  {
  }

  lemma ElevenAreFound(s0: State)
    requires Init(Config(1, 1), s0)
    ensures |ElevenLines().lines| == 11 && ItemsFound(s0.db, ElevenLines(), 11)
  {
    hide LoadedWarehouse, LoadedDistrict, LoadedOrder, LoadedNewOrder, LoadedOrderLine, LoadedHistory, LoadedCustomer,
         LoadedPending, LoadedLatest;
    assert 1 in s0.db.item && SKey(1, 1) in s0.db.stock;
  }

  /** The order is entered, and the worker is idle again. */
  lemma EnterEleven(s0: State) returns (moves: seq<Move>)
    requires Init(Config(1, 1), s0)
    ensures IsRun(Config(1, 1), s0, moves)
    ensures var s := Run(Config(1, 1), s0, moves);
            && s.tasks == [Idle] && |s.clocks| == 1 && s.clocks[0] + 300 < TWO32
            && Inv(Config(1, 1), FirstQuantities(s0.db), s)
            && DKey(1, 1) in s.db.district && s.db.district[DKey(1, 1)].next == 3002
            && FIRST_ENTERED in s.db.newOrder
            && FIRST_ENTERED in s.db.order && s.db.order[FIRST_ENTERED].c == 1 && s.db.order[FIRST_ENTERED].lines == 11
            && DKey(1, 1) in s.db.pending && s.db.pending[DKey(1, 1)] == 3002
  {
    hide Loaded, Run, IsRun, Inv, MayStart, ValidStart, Finish, StockTaken, LinesEntered, ItemsFound, ElevenLines,
         AllLocal;
    var cfg, a, start := Config(1, 1), ElevenLines(), NewOrder(NoReadDistrict(ElevenLines()));
    MayEnter(s0);
    ElevenIsValid();
    ElevenAreFound(s0);
    NewOrderOutcome(s0.db, a, FIRST_TICK);
    moves := TransactionRuns(cfg, FirstQuantities(s0.db), s0, 0, start);
  }

  /** The newest order is delivered, and the worker is idle again. */
  lemma DeliverEleven(first: map<SKey, nat>, s: State) returns (moves: seq<Move>)
    requires Inv(Config(1, 1), first, s) && s.tasks == [Idle] && |s.clocks| == 1 && s.clocks[0] + 300 < TWO32
    requires FIRST_ENTERED in s.db.newOrder && FIRST_ENTERED in s.db.order
    requires s.db.order[FIRST_ENTERED].c == 1 && s.db.order[FIRST_ENTERED].lines == 11
    requires DKey(1, 1) in s.db.pending && s.db.pending[DKey(1, 1)] == 3002
    ensures IsRun(Config(1, 1), s, moves)
    ensures var s' := Run(Config(1, 1), s, moves);
            && s'.tasks == [Idle]
            && FIRST_ENTERED in s'.db.order && s'.db.order[FIRST_ENTERED].c == 1
            && s'.db.order[FIRST_ENTERED].lines == 11 && s'.db.order[FIRST_ENTERED].carrier != 0
  {
    hide Run, IsRun, Inv, RoomToFinish, OwnedBy, Credits, AboutToCredit, ValidConfig, After, CanMove;
    var cfg, k := Config(1, 1), FIRST_ENTERED;
    OnlyWorkerOwns();
    var m0 := StartDelivery(cfg, first, s, 0, k, 1);
    var s1 := Run(cfg, s, m0);
    CreditIsMarked(s, s1, 0, k, 1);
    var m1 := FinishMarked(cfg, first, s1, 0, k);
    RunAppend(cfg, s, m0, m1);
    moves := m0 + m1;
  }

  lemma OnlyWorkerOwns()
    ensures ValidConfig(Config(1, 1)) && OwnedBy(Config(1, 1), 0, 1)
  {
    assert RangeOf(1, 1, 0) == (1, 2);
  }

  /** Whatever the worker still does, a delivered order stays as it is. */
  lemma FinishMarked(cfg: Config, first: map<SKey, nat>, s: State, i: nat, k: OKey) returns (moves: seq<Move>)
    requires ValidConfig(cfg) && Inv(cfg, first, s) && i < |s.tasks| == |s.clocks| == cfg.workers
    requires RoomToFinish(PointOf(s, i)) && k in s.db.order && s.db.order[k].carrier != 0
    ensures IsRun(cfg, s, moves)
    ensures var s' := Run(cfg, s, moves);
            s'.tasks == s.tasks[i := Idle] && k in s'.db.order && s'.db.order[k] == s.db.order[k]
  {
    hide Run, IsRun, Inv, RoomToFinish, Finish, Extends;
    moves := FinishIsRun(cfg, first, s, i);
    RunExtends(cfg, first, s, moves);
    StaysMarked(s.db, Run(cfg, s, moves).db, k);
  }

  lemma CreditIsMarked(s: State, s': State, i: nat, k: OKey, c: nat)
    requires AboutToCredit(s, s', i, k, c)
    ensures i < |s'.tasks| == |s'.clocks| == |s.tasks| && RoomToFinish(PointOf(s', i))
    ensures s'.tasks == s.tasks[i := s'.tasks[i]]
    ensures k in s.db.order && k in s'.db.order && s'.db.order[k].carrier != 0
    ensures s'.db.order[k].c == c && s'.db.order[k].lines == s.db.order[k].lines
  {
    hide RoomToFinish;
  }

  lemma StaysMarked(before: Db, after: Db, k: OKey)
    requires Extends(before, after) && k in before.order && before.order[k].carrier != 0
    ensures k in after.order && after.order[k] == before.order[k]
  {
  }

  /**
   One worker enters an order of eleven lines, which breaks conditions 2 and 3, and then
   delivers it, which breaks conditions 7 and 11 and leaves part of the order uncredited.
   */
  lemma OneOrderBreaksConditions(s0: State) returns (entering: seq<Move>, delivering: seq<Move>)
    requires Init(Config(1, 1), s0)
    ensures IsRun(Config(1, 1), s0, entering) && Run(Config(1, 1), s0, entering).tasks == [Idle]
    ensures var db := Run(Config(1, 1), s0, entering).db;
            && DKey(1, 1) in db.district && db.district[DKey(1, 1)].next == 3002
            && !IsLargest(db.order.Keys, 1, 1, 3001)
            && (forall lo: nat, hi: nat :: IsSmallest(db.newOrder, 1, 1, lo) && IsLargest(db.newOrder, 1, 1, hi) ==>
                 |OrdersIn(db.newOrder, 1, 1)| != hi - lo + 1)
    ensures IsRun(Config(1, 1), s0, entering + delivering) && Run(Config(1, 1), s0, entering + delivering).tasks == [Idle]
    ensures var db, ck := Run(Config(1, 1), s0, entering + delivering).db, CKey(1, 1, 1);
            && FIRST_ENTERED in db.order && !DatesMatchCarrier(db, FIRST_ENTERED)
            && |OrdersIn(db.order.Keys, 1, 1)| - |OrdersIn(db.newOrder, 1, 1)| != LOADED_DELIVERED
            && DatedTotal(db, ck) != Total(DeliveredLines(db.order, db.orderLine, ck))
  {
    hide Loaded, Run, IsRun, Inv, Total, DatedLines, DeliveredLines, DatesMatchCarrier, IsLargest, IsSmallest;
    var cfg := Config(1, 1);
    entering := EnterEleven(s0);
    var s := Run(cfg, s0, entering);
    NextIdExactly(cfg, s0, entering, 1, 1);
    forall lo: nat, hi: nat | IsSmallest(s.db.newOrder, 1, 1, lo) && IsLargest(s.db.newOrder, 1, 1, hi)
      ensures |OrdersIn(s.db.newOrder, 1, 1)| != hi - lo + 1
    {
      WaitingHasNoGapExactly(cfg, s0, entering, 1, 1, lo, hi);
      IsBelowLargest(s.db.newOrder, FIRST_ENTERED, hi);
    }
    delivering := DeliverEleven(FirstQuantities(s0.db), s);
    RunAppend(cfg, s0, entering, delivering);
    DatesMatchExactly(cfg, s0, entering + delivering, FIRST_ENTERED);
    OrdersLessWaitingExactly(cfg, s0, entering + delivering, 1, 1);
    WholeOrdersExactly(cfg, s0, entering + delivering, CKey(1, 1, 1));
    assert IsCutOff(Run(cfg, s0, entering + delivering).db.order, FIRST_ENTERED, CKey(1, 1, 1));
  }

  lemma IsBelowLargest(keys: set<OKey>, k: OKey, hi: nat)
    requires k in keys && IsLargest(keys, k.w, k.d, hi)
    ensures k.o <= hi
  {
  }
}
