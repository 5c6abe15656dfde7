/**
 Customers are the rows that several workers update, each by reading the row, computing
 and writing the whole row back. Payments are conserved exactly as long as no worker
 writes back a row whose payment fields another worker has changed since it was read.
 */
module CustomerMoney {
  import opened Totals
  import opened Schema
  import opened Engine
  import opened DeliveryScan
  import opened WarehouseView
  import opened WarehouseInvariant
  import opened Workers
  import opened WorkerSteps
  import opened LoadedState
  import opened Consistency
  import opened Deliveries

  // ----- what is owed to customer rows

  ghost function PaymentsOf(h: map<HKey, int>, ck: CKey): map<HKey, int>
  {
    map k | k in h && CKey(k.cw, k.cd, k.c) == ck :: h[k]
  }

  /** Amount and number of payments that are on the customer's row and not in the history yet. */
  datatype Flight = Flight(amount: int, count: nat)

  function FlightOf(t: Task, ck: CKey): Flight
  {
    if t.Payment? && t.p.PayInsertHistory? && CustomerOf(t.p.a) == ck then Flight(t.p.a.amount, 1) else Flight(0, 0)
  }

  ghost function InFlight(tasks: seq<Task>, ck: CKey): Flight
  {
    if tasks == [] then Flight(0, 0)
    else
      var rest := InFlight(tasks[1..], ck);
      Flight(FlightOf(tasks[0], ck).amount + rest.amount, FlightOf(tasks[0], ck).count + rest.count)
  }

  lemma {:induction false} FlightUpdate(tasks: seq<Task>, i: nat, t: Task, ck: CKey)
    requires i < |tasks|
    ensures InFlight(tasks[i := t], ck).amount
         == InFlight(tasks, ck).amount - FlightOf(tasks[i], ck).amount + FlightOf(t, ck).amount
    ensures InFlight(tasks[i := t], ck).count
         == InFlight(tasks, ck).count - FlightOf(tasks[i], ck).count + FlightOf(t, ck).count
  {
    if i == 0 {
      assert tasks[i := t][1..] == tasks[1..];
    } else {
      assert tasks[i := t][1..] == tasks[1..][i - 1 := t];
      FlightUpdate(tasks[1..], i - 1, t, ck);
    }
  }

  /** c_ytd_payment and c_payment_cnt are the sum and number of the customer's payments. */
  ghost predicate Conserved(s: State, ck: CKey)
  {
    && ck in s.db.customer
    && s.db.customer[ck].ytdPayment == Total(PaymentsOf(s.db.history, ck)) + InFlight(s.tasks, ck).amount
    && s.db.customer[ck].paymentCnt == |PaymentsOf(s.db.history, ck)| + InFlight(s.tasks, ck).count
  }

  // ----- one move

  predicate WritesCustomer(t: Task)
  {
    (t.Payment? && t.p.PayWriteCustomer?) || (t.Delivery? && t.v.DelWriteCustomer?)
  }

  function CustomerWritten(t: Task): CKey
    requires WritesCustomer(t)
  {
    if t.Payment? then CustomerOf(t.p.a) else CKey(t.v.a.w, t.v.d, t.v.order.c)
  }

  function CopyHeld(t: Task): Customer
    requires WritesCustomer(t)
  {
    if t.Payment? then t.p.cust else t.v.cust
  }

  function RowWritten(t: Task): Customer
    requires WritesCustomer(t)
  {
    if t.Payment? then Paid(t.p.cust, t.p.a.amount) else Credited(t.v.cust, t.v.total)
  }

  lemma NewOrderLeavesCustomers(db: Db, t: NewOrderTask, clock: nat)
    requires NewOrderHit(db, t)
    ensures var y := NewOrderStep(db, t, clock);
            y.db.customer == db.customer && (y.task.Idle? || y.task.NewOrder?)
  {
  }

  lemma DeliveryOnCustomers(db: Db, t: DeliveryTask, clock: nat)
    requires DeliveryHit(db, t)
    ensures var y := DeliveryStep(db, t, clock);
            && (y.task.Idle? || y.task.Delivery?)
            && y.db.customer
               == if WritesCustomer(Delivery(t)) then db.customer[CustomerWritten(Delivery(t)) := RowWritten(Delivery(t))]
                  else db.customer
  {
  }

  /** What a step does to customers, history and payments in flight. */
  lemma StepOnCustomers(x: Point, ck: CKey)
    requires Hit(x.db, x.task)
    ensures Step(x).db.customer
         == if WritesCustomer(x.task) then x.db.customer[CustomerWritten(x.task) := RowWritten(x.task)] else x.db.customer
    ensures FlightOf(Step(x).task, ck)
         == if WritesCustomer(x.task) && x.task.Payment? && CustomerWritten(x.task) == ck
            then Flight(x.task.p.a.amount, 1) else Flight(0, 0)
  {
    hide NewOrderStep, DeliveryStep;
    match x.task
    case NewOrder(n) => NewOrderLeavesCustomers(x.db, n, x.clock);
    case Payment(p) =>
    case Delivery(v) => DeliveryOnCustomers(x.db, v, x.clock);
  }

  lemma PaymentsInsert(h: map<HKey, int>, k: HKey, amount: int, ck: CKey)
    requires k !in h
    ensures Total(PaymentsOf(h[k := amount], ck))
         == Total(PaymentsOf(h, ck)) + if CKey(k.cw, k.cd, k.c) == ck then amount else 0
    ensures |PaymentsOf(h[k := amount], ck)|
         == |PaymentsOf(h, ck)| + if CKey(k.cw, k.cd, k.c) == ck then 1 else 0
  {
    if CKey(k.cw, k.cd, k.c) == ck {
      assert PaymentsOf(h[k := amount], ck) == PaymentsOf(h, ck)[k := amount];
      TotalInsert(PaymentsOf(h, ck), k, amount);
    } else {
      assert PaymentsOf(h[k := amount], ck) == PaymentsOf(h, ck);
    }
  }

  /** What a move pays on the customer's row. */
  function PaidBy(t: Task, ck: CKey): Flight
  {
    if WritesCustomer(t) && t.Payment? && CustomerWritten(t) == ck then Flight(t.p.a.amount, 1) else Flight(0, 0)
  }

  /** Payments, in the history or still in flight, grow by what the move pays. */
  lemma MovePayments(cfg: Config, first: map<SKey, nat>, s: State, m: Move, ck: CKey)
    requires ValidConfig(cfg) && Inv(cfg, first, s) && CanMove(cfg, s, m)
    ensures var s', paid := After(cfg, s, m), PaidBy(s.tasks[m.worker], ck);
            && Total(PaymentsOf(s'.db.history, ck)) + InFlight(s'.tasks, ck).amount
               == Total(PaymentsOf(s.db.history, ck)) + InFlight(s.tasks, ck).amount + paid.amount
            && |PaymentsOf(s'.db.history, ck)| + InFlight(s'.tasks, ck).count
               == |PaymentsOf(s.db.history, ck)| + InFlight(s.tasks, ck).count + paid.count
  {
    hide Inv, InFlight, Step, Hit, Total, NoWrap, ValidStart, PaymentsOf;
    var t := s.tasks[m.worker];
    var x := MoveResult(s, m);
    FlightUpdate(s.tasks, m.worker, x.task, ck);
    if t.Idle? {
      StartHasNoFlight(cfg, m.start, s.clocks[m.worker], ck);
    } else {
      BusyProceeds(cfg, first, s, m.worker);
      StepOnCustomers(PointOf(s, m.worker), ck);
      HistoryStep(PointOf(s, m.worker));
      if t.Payment? && t.p.PayInsertHistory? {
        PaymentsInsert(s.db.history, HistoryKey(t.p.a), t.p.a.amount, ck);
      }
    }
  }

  /** A move writes one customer row or none. */
  lemma MoveCustomers(cfg: Config, s: State, m: Move)
    requires ValidConfig(cfg) && CanMove(cfg, s, m)
    ensures var t := s.tasks[m.worker];
            After(cfg, s, m).db.customer
            == if WritesCustomer(t) then s.db.customer[CustomerWritten(t) := RowWritten(t)] else s.db.customer
  {
    hide Step, Hit, NoWrap, ValidStart;
    if !s.tasks[m.worker].Idle? {
      StepOnCustomers(PointOf(s, m.worker), CKey(0, 0, 0));
    }
  }

  /** The write-back of this move, if any, does not undo another worker's payment to `ck`. */
  ghost predicate PaymentFieldsCurrent(s: State, m: Move, ck: CKey)
    requires m.worker < |s.tasks|
  {
    var t := s.tasks[m.worker];
    WritesCustomer(t) && CustomerWritten(t) == ck && ck in s.db.customer ==>
      CopyHeld(t).ytdPayment == s.db.customer[ck].ytdPayment && CopyHeld(t).paymentCnt == s.db.customer[ck].paymentCnt
  }

  /**
   A move conserves a customer's payments if and only if the row it writes back still had
   the stored payment fields. This is exact: every stale write-back loses a payment.
   */
  lemma MoveConserves(cfg: Config, first: map<SKey, nat>, s: State, m: Move, ck: CKey)
    requires ValidConfig(cfg) && Inv(cfg, first, s) && CanMove(cfg, s, m) && Conserved(s, ck)
    ensures Conserved(After(cfg, s, m), ck) <==> PaymentFieldsCurrent(s, m, ck)
  {
    hide Inv, InFlight, Step, Hit, Total, NoWrap, ValidStart, PaymentsOf, CanMove, After;
    MovePayments(cfg, first, s, m, ck);
    MoveCustomers(cfg, s, m);
    WorkerIsThere(cfg, s, m);
  }

  lemma WorkerIsThere(cfg: Config, s: State, m: Move)
    requires ValidConfig(cfg) && CanMove(cfg, s, m)
    ensures m.worker < |s.tasks| == |s.clocks| == cfg.workers
  {
  }

  lemma StartHasNoFlight(cfg: Config, start: Task, clock: nat, ck: CKey)
    requires ValidStart(cfg.warehouses, start, clock)
    ensures FlightOf(start, ck) == Flight(0, 0)
  {
  }

  // ----- runs

  /** No move of the run writes back stale payment fields of `ck`. */
  ghost predicate AllCurrent(cfg: Config, s: State, moves: seq<Move>, ck: CKey)
    requires ValidConfig(cfg) && IsRun(cfg, s, moves)
    decreases |moves|
  {
    moves == [] || (PaymentFieldsCurrent(s, moves[0], ck) && AllCurrent(cfg, After(cfg, s, moves[0]), moves[1..], ck))
  }

  /** A customer's payments are conserved in every state of the run. */
  ghost predicate ConservedThroughout(cfg: Config, s: State, moves: seq<Move>, ck: CKey)
    requires ValidConfig(cfg) && IsRun(cfg, s, moves)
    decreases |moves|
  {
    Conserved(s, ck) && (moves == [] || ConservedThroughout(cfg, After(cfg, s, moves[0]), moves[1..], ck))
  }

  /** That is so if and only if no move writes back stale payment fields. */
  lemma {:induction false} ConservedExactly(cfg: Config, first: map<SKey, nat>, s: State, moves: seq<Move>, ck: CKey)
    requires ValidConfig(cfg) && Inv(cfg, first, s) && IsRun(cfg, s, moves) && Conserved(s, ck)
    ensures ConservedThroughout(cfg, s, moves, ck) <==> AllCurrent(cfg, s, moves, ck)
    decreases |moves|
  {
    if moves != [] {
      hide Inv, Conserved, PaymentFieldsCurrent;
      var s' := After(cfg, s, moves[0]);
      MoveConserves(cfg, first, s, moves[0], ck);
      MoveKeepsInv(cfg, first, s, moves[0]);
      if Conserved(s', ck) {
        ConservedExactly(cfg, first, s', moves[1..], ck);
      }
    }
  }

  lemma {:induction false} IdleHasNoFlight(tasks: seq<Task>, ck: CKey)
    requires forall i :: 0 <= i < |tasks| ==> tasks[i] == Idle
    ensures InFlight(tasks, ck) == Flight(0, 0)
  {
    if tasks != [] {
      IdleHasNoFlight(tasks[1..], ck);
    }
  }

  lemma InitConserves(cfg: Config, s0: State, ck: CKey)
    requires Init(cfg, s0) && ck in s0.db.customer
    ensures Conserved(s0, ck) && s0.db.customer[ck].balance + s0.db.customer[ck].ytdPayment == 0
  {
    hide LoadedOrder, LoadedNewOrder, LoadedOrderLine, LoadedPending, LoadedLatest, LoadedStock, LoadedItem;
    var k := HKey(ck.w, ck.d, ck.w, ck.d, ck.c, ck.c);
    assert PaymentsOf(s0.db.history, ck) == map[k := H_AMOUNT];
    TotalInsert(map[], k, H_AMOUNT);
    assert map[][k := H_AMOUNT] == map[k := H_AMOUNT];
    assert |map[k := H_AMOUNT]| == 1;
    IdleHasNoFlight(s0.tasks, ck);
  }
}
