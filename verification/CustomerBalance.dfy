/**
 Customer rows against the tables: conditions 10 and 12 of the TPC-C specification
 (section 3.3.2) and exactly which write-backs break them. Each of the three equations,
 with c_ytd_payment, c_balance + c_ytd_payment and c_balance, depends on that part of the
 row alone: it holds in every state of a run if and only if no write-back is stale in it.
 */
module CustomerBalance {
  import opened Totals
  import opened Schema
  import opened Engine
  import opened DeliveryScan
  import opened WarehouseView
  import opened WarehouseInvariant
  import opened Workers
  import opened WorkerSteps
  import opened LoadedState
  import opened Consistency
  import opened Deliveries
  import opened CustomerMoney
  import opened DeliveredMoney

  function SumOf(c: Customer): int { c.balance + c.ytdPayment }

  ghost function DatedTotal(db: Db, ck: CKey): int { Total(DatedLines(db.order, db.orderLine, ck)) }

  ghost function PaidTotal(s: State, ck: CKey): int { Total(PaymentsOf(s.db.history, ck)) + InFlight(s.tasks, ck).amount }

  /** Condition 12, with the credits under way. */
  ghost predicate SumHolds(s: State, ck: CKey)
  {
    ck in s.db.customer && SumOf(s.db.customer[ck]) + UnderWay(s.tasks, ck) == DatedTotal(s.db, ck)
  }

  /** Condition 10, with the credits under way and the payments in flight. */
  ghost predicate BalanceHolds(s: State, ck: CKey)
  {
    ck in s.db.customer && s.db.customer[ck].balance + UnderWay(s.tasks, ck) == DatedTotal(s.db, ck) - PaidTotal(s, ck)
  }

  // ----- one move

  /** The write-back of this move, if any, does not change the sum behind another's back. */
  ghost predicate SumCurrent(s: State, m: Move, ck: CKey)
    requires m.worker < |s.tasks|
  {
    var t := s.tasks[m.worker];
    WritesCustomer(t) && CustomerWritten(t) == ck && ck in s.db.customer ==>
      SumOf(CopyHeld(t)) == SumOf(s.db.customer[ck])
  }

  ghost predicate BalanceCurrent(s: State, m: Move, ck: CKey)
    requires m.worker < |s.tasks|
  {
    var t := s.tasks[m.worker];
    WritesCustomer(t) && CustomerWritten(t) == ck && ck in s.db.customer ==>
      CopyHeld(t).balance == s.db.customer[ck].balance
  }

  /** The row this move writes back, if it is `ck`, is the one stored. */
  ghost predicate RowCurrent(s: State, m: Move, ck: CKey)
    requires m.worker < |s.tasks|
  {
    var t := s.tasks[m.worker];
    WritesCustomer(t) && CustomerWritten(t) == ck && ck in s.db.customer ==> CopyHeld(t) == s.db.customer[ck]
  }

  /** The sum grows by exactly the credit of the move if and only if its copy has the stored sum. */
  lemma MoveSum(cfg: Config, s: State, m: Move, ck: CKey)
    requires ValidConfig(cfg) && CanMove(cfg, s, m) && ck in s.db.customer
    ensures m.worker < |s.tasks| && ck in After(cfg, s, m).db.customer
    ensures SumOf(After(cfg, s, m).db.customer[ck]) == SumOf(s.db.customer[ck]) + CreditOf(s.tasks[m.worker], ck)
       <==> SumCurrent(s, m, ck)
  {
    hide CanMove, After;
    WorkerIsThere(cfg, s, m);
    MoveCustomers(cfg, s, m);
  }

  lemma MoveSumHolds(cfg: Config, first: map<SKey, nat>, s: State, m: Move, ck: CKey)
    requires ValidConfig(cfg) && Inv(cfg, first, s) && CanMove(cfg, s, m) && SumHolds(s, ck)
    ensures m.worker < |s.tasks|
    ensures SumHolds(After(cfg, s, m), ck) <==> SumCurrent(s, m, ck)
  {
    hide Inv, CanMove, After, DatedLines, UnderWay, Total, CreditOf, SumCurrent, SumOf;
    MoveSum(cfg, s, m, ck);
    MoveDates(cfg, first, s, m, ck);
  }

  lemma MoveBalanceHolds(cfg: Config, first: map<SKey, nat>, s: State, m: Move, ck: CKey)
    requires ValidConfig(cfg) && Inv(cfg, first, s) && CanMove(cfg, s, m) && BalanceHolds(s, ck)
    ensures m.worker < |s.tasks|
    ensures BalanceHolds(After(cfg, s, m), ck) <==> BalanceCurrent(s, m, ck)
  {
    hide Inv, CanMove, After, DatedLines, UnderWay, Total, InFlight, PaymentsOf;
    WorkerIsThere(cfg, s, m);
    MoveCustomers(cfg, s, m);
    MoveDates(cfg, first, s, m, ck);
    MovePayments(cfg, first, s, m, ck);
  }

  // ----- runs

  ghost predicate AllSumsCurrent(cfg: Config, s: State, moves: seq<Move>, ck: CKey)
    requires ValidConfig(cfg) && IsRun(cfg, s, moves)
    decreases |moves|
  {
    moves == [] || (SumCurrent(s, moves[0], ck) && AllSumsCurrent(cfg, After(cfg, s, moves[0]), moves[1..], ck))
  }

  ghost predicate SumHoldsThroughout(cfg: Config, s: State, moves: seq<Move>, ck: CKey)
    requires ValidConfig(cfg) && IsRun(cfg, s, moves)
    decreases |moves|
  {
    SumHolds(s, ck) && (moves == [] || SumHoldsThroughout(cfg, After(cfg, s, moves[0]), moves[1..], ck))
  }

  /** Condition 12 holds in every state of the run if and only if no write-back is stale in the sum. */
  lemma {:induction false} SumHoldsExactly(cfg: Config, first: map<SKey, nat>, s: State, moves: seq<Move>, ck: CKey)
    requires ValidConfig(cfg) && Inv(cfg, first, s) && IsRun(cfg, s, moves) && SumHolds(s, ck)
    ensures SumHoldsThroughout(cfg, s, moves, ck) <==> AllSumsCurrent(cfg, s, moves, ck)
    decreases |moves|
  {
    if moves != [] {
      hide Inv, SumHolds, SumCurrent;
      var s' := After(cfg, s, moves[0]);
      MoveSumHolds(cfg, first, s, moves[0], ck);
      MoveKeepsInv(cfg, first, s, moves[0]);
      if SumHolds(s', ck) {
        SumHoldsExactly(cfg, first, s', moves[1..], ck);
      }
    }
  }

  ghost predicate AllBalancesCurrent(cfg: Config, s: State, moves: seq<Move>, ck: CKey)
    requires ValidConfig(cfg) && IsRun(cfg, s, moves)
    decreases |moves|
  {
    moves == [] || (BalanceCurrent(s, moves[0], ck) && AllBalancesCurrent(cfg, After(cfg, s, moves[0]), moves[1..], ck))
  }

  ghost predicate BalanceHoldsThroughout(cfg: Config, s: State, moves: seq<Move>, ck: CKey)
    requires ValidConfig(cfg) && IsRun(cfg, s, moves)
    decreases |moves|
  {
    BalanceHolds(s, ck) && (moves == [] || BalanceHoldsThroughout(cfg, After(cfg, s, moves[0]), moves[1..], ck))
  }

  /** Condition 10 holds in every state of the run if and only if no write-back is stale in the balance. */
  lemma {:induction false} BalanceHoldsExactly(cfg: Config, first: map<SKey, nat>, s: State, moves: seq<Move>, ck: CKey)
    requires ValidConfig(cfg) && Inv(cfg, first, s) && IsRun(cfg, s, moves) && BalanceHolds(s, ck)
    ensures BalanceHoldsThroughout(cfg, s, moves, ck) <==> AllBalancesCurrent(cfg, s, moves, ck)
    decreases |moves|
  {
    if moves != [] {
      hide Inv, BalanceHolds, BalanceCurrent;
      var s' := After(cfg, s, moves[0]);
      MoveBalanceHolds(cfg, first, s, moves[0], ck);
      MoveKeepsInv(cfg, first, s, moves[0]);
      if BalanceHolds(s', ck) {
        BalanceHoldsExactly(cfg, first, s', moves[1..], ck);
      }
    }
  }

  lemma InitHolds(cfg: Config, s0: State, ck: CKey)
    requires Init(cfg, s0) && ck in s0.db.customer
    ensures Conserved(s0, ck) && SumHolds(s0, ck) && BalanceHolds(s0, ck)
  {
    hide Loaded, DatedLines, UnderWay, Total, InFlight, PaymentsOf;
    InitConserves(cfg, s0, ck);
    InitDates(cfg, s0, ck);
  }

  /** All three equations from the loaded state on, each with its own exact condition. */
  lemma CustomerMoneyExactly(cfg: Config, s0: State, moves: seq<Move>, ck: CKey)
    requires Init(cfg, s0) && IsRun(cfg, s0, moves) && ck in s0.db.customer
    ensures ConservedThroughout(cfg, s0, moves, ck) <==> AllCurrent(cfg, s0, moves, ck)
    ensures SumHoldsThroughout(cfg, s0, moves, ck) <==> AllSumsCurrent(cfg, s0, moves, ck)
    ensures BalanceHoldsThroughout(cfg, s0, moves, ck) <==> AllBalancesCurrent(cfg, s0, moves, ck)
  {
    hide Inv, IsRun, Loaded, Conserved, SumHolds, BalanceHolds, ConservedThroughout, AllCurrent, SumHoldsThroughout,
         AllSumsCurrent, BalanceHoldsThroughout, AllBalancesCurrent;
    InitIsInv(cfg, s0);
    InitHolds(cfg, s0, ck);
    var first := FirstQuantities(s0.db);
    ConservedExactly(cfg, first, s0, moves, ck);
    SumHoldsExactly(cfg, first, s0, moves, ck);
    BalanceHoldsExactly(cfg, first, s0, moves, ck);
  }

  lemma {:induction false} SumHoldsAtEnd(cfg: Config, s: State, moves: seq<Move>, ck: CKey)
    requires ValidConfig(cfg) && IsRun(cfg, s, moves) && SumHoldsThroughout(cfg, s, moves, ck)
    ensures SumHolds(Run(cfg, s, moves), ck)
    decreases |moves|
  {
    if moves != [] {
      SumHoldsAtEnd(cfg, After(cfg, s, moves[0]), moves[1..], ck);
    }
  }

  lemma {:induction false} BalanceHoldsAtEnd(cfg: Config, s: State, moves: seq<Move>, ck: CKey)
    requires ValidConfig(cfg) && IsRun(cfg, s, moves) && BalanceHoldsThroughout(cfg, s, moves, ck)
    ensures BalanceHolds(Run(cfg, s, moves), ck)
    decreases |moves|
  {
    if moves != [] {
      BalanceHoldsAtEnd(cfg, After(cfg, s, moves[0]), moves[1..], ck);
    }
  }

  // ----- the conditions as the specification words them

  /** No delivery to warehouse `w` is under way. */
  ghost predicate NoDeliveryAt(s: State, w: nat) { forall t :: t in s.tasks && t.Delivery? ==> t.v.a.w != w }

  /** No payment of the customer waits for its history row. */
  ghost predicate NoneInFlight(s: State, ck: CKey)
  {
    forall t :: t in s.tasks && t.Payment? && t.p.PayInsertHistory? ==> CustomerOf(t.p.a) != ck
  }

  lemma {:induction false} NoFlight(tasks: seq<Task>, ck: CKey)
    requires forall i :: 0 <= i < |tasks| ==> FlightOf(tasks[i], ck) == Flight(0, 0)
    ensures InFlight(tasks, ck) == Flight(0, 0)
  {
    if tasks != [] {
      NoFlight(tasks[1..], ck);
    }
  }

  /** Condition 12: c_balance + c_ytd_payment is the sum of the customer's delivered OL_AMOUNT. */
  lemma SumIsDeliveredAmount(cfg: Config, s0: State, moves: seq<Move>, ck: CKey)
    requires Init(cfg, s0) && IsRun(cfg, s0, moves) && ck in s0.db.customer
    requires AllSumsCurrent(cfg, s0, moves, ck) && NoDeliveryAt(Run(cfg, s0, moves), ck.w)
    ensures var db := Run(cfg, s0, moves).db;
            ck in db.customer && SumOf(db.customer[ck]) == Total(DatedLines(db.order, db.orderLine, ck))
  {
    hide IsRun, Run, Loaded, AllSumsCurrent, SumHoldsThroughout, DatedLines, Total, UnderWay, AllCurrent, AllBalancesCurrent;
    var s := Run(cfg, s0, moves);
    CustomerMoneyExactly(cfg, s0, moves, ck);
    SumHoldsAtEnd(cfg, s0, moves, ck);
    NothingUnderWay(s.tasks, ck);
  }

  /** Condition 10: c_balance is the delivered OL_AMOUNT less the H_AMOUNT of the customer. */
  lemma BalanceIsDeliveredLessPaid(cfg: Config, s0: State, moves: seq<Move>, ck: CKey)
    requires Init(cfg, s0) && IsRun(cfg, s0, moves) && ck in s0.db.customer
    requires AllBalancesCurrent(cfg, s0, moves, ck)
    requires NoDeliveryAt(Run(cfg, s0, moves), ck.w) && NoneInFlight(Run(cfg, s0, moves), ck)
    ensures var db := Run(cfg, s0, moves).db;
            ck in db.customer
            && db.customer[ck].balance == Total(DatedLines(db.order, db.orderLine, ck)) - Total(PaymentsOf(db.history, ck))
  {
    hide IsRun, Run, Loaded, AllBalancesCurrent, BalanceHoldsThroughout, DatedLines, Total, UnderWay, InFlight, PaymentsOf,
         AllCurrent, AllSumsCurrent;
    var s := Run(cfg, s0, moves);
    CustomerMoneyExactly(cfg, s0, moves, ck);
    BalanceHoldsAtEnd(cfg, s0, moves, ck);
    NothingUnderWay(s.tasks, ck);
    NoFlight(s.tasks, ck);
  }

  /** The sum is the start sum and the credits of the run. */
  lemma {:induction false} RunSum(cfg: Config, s: State, moves: seq<Move>, ck: CKey)
    requires ValidConfig(cfg) && IsRun(cfg, s, moves) && ck in s.db.customer && AllSumsCurrent(cfg, s, moves, ck)
    ensures var s' := Run(cfg, s, moves);
            ck in s'.db.customer && SumOf(s'.db.customer[ck]) == SumOf(s.db.customer[ck]) + Credits(cfg, s, moves, ck)
    decreases |moves|
  {
    if moves != [] {
      hide SumCurrent, CreditOf, SumOf;
      MoveSum(cfg, s, moves[0], ck);
      RunSum(cfg, After(cfg, s, moves[0]), moves[1..], ck);
    }
  }

  // ----- runs without stale rows

  ghost predicate AllRowsCurrent(cfg: Config, s: State, moves: seq<Move>, ck: CKey)
    requires ValidConfig(cfg) && IsRun(cfg, s, moves)
    decreases |moves|
  {
    moves == [] || (RowCurrent(s, moves[0], ck) && AllRowsCurrent(cfg, After(cfg, s, moves[0]), moves[1..], ck))
  }

  lemma {:induction false} RowsCurrentEnough(cfg: Config, s: State, moves: seq<Move>, ck: CKey)
    requires ValidConfig(cfg) && IsRun(cfg, s, moves) && AllRowsCurrent(cfg, s, moves, ck)
    ensures AllCurrent(cfg, s, moves, ck) && AllSumsCurrent(cfg, s, moves, ck) && AllBalancesCurrent(cfg, s, moves, ck)
    decreases |moves|
  {
    if moves != [] {
      RowsCurrentEnough(cfg, After(cfg, s, moves[0]), moves[1..], ck);
      hide After, CanMove;
    }
  }

  /** Only one worker at a time is in a transaction. */
  ghost predicate Serial(cfg: Config, s: State, moves: seq<Move>)
    requires ValidConfig(cfg) && IsRun(cfg, s, moves)
    decreases |moves|
  {
    moves == [] || (OthersIdle(s, moves[0].worker) && Serial(cfg, After(cfg, s, moves[0]), moves[1..]))
  }

  ghost predicate OthersIdle(s: State, i: nat) { forall j :: 0 <= j < |s.tasks| && j != i ==> s.tasks[j] == Idle }

  lemma {:induction false} OneWorkerIsSerial(cfg: Config, s: State, moves: seq<Move>)
    requires ValidConfig(cfg) && cfg.workers == 1 && IsRun(cfg, s, moves)
    ensures Serial(cfg, s, moves)
    decreases |moves|
  {
    if moves != [] {
      OneWorkerIsSerial(cfg, After(cfg, s, moves[0]), moves[1..]);
    }
  }

  /** `t` is about to write the customer's row back. */
  predicate Holds(t: Task, ck: CKey) { WritesCustomer(t) && CustomerWritten(t) == ck }

  /** Every copy of the row that is about to be written back is the one stored. */
  ghost predicate Solo(s: State, ck: CKey)
  {
    && ck in s.db.customer
    && forall i :: 0 <= i < |s.tasks| && Holds(s.tasks[i], ck) ==> CopyHeld(s.tasks[i]) == s.db.customer[ck]
  }

  lemma SoloStep(x: Point, ck: CKey)
    requires Hit(x.db, x.task) && ck in x.db.customer
    ensures Holds(Step(x).task, ck) ==>
              CopyHeld(Step(x).task) == x.db.customer[ck] && Step(x).db.customer == x.db.customer
  {
    hide NewOrderStep;
    match x.task
    case NewOrder(n) => NewOrderLeavesCustomers(x.db, n, x.clock);
    case Payment(p) =>
    case Delivery(v) =>
  }

  lemma StartHoldsNothing(cfg: Config, start: Task, clock: nat, ck: CKey)
    requires ValidStart(cfg.warehouses, start, clock)
    ensures !Holds(start, ck)
  {
  }

  /** If nobody else holds the row when a worker writes it back, no copy is ever stale. */
  lemma SoloMove(cfg: Config, s: State, m: Move, ck: CKey)
    requires ValidConfig(cfg) && CanMove(cfg, s, m) && Solo(s, ck)
    requires forall j :: 0 <= j < |s.tasks| && j != m.worker && Holds(s.tasks[m.worker], ck) ==> !Holds(s.tasks[j], ck)
    ensures Solo(After(cfg, s, m), ck) && RowCurrent(s, m, ck)
  {
    hide Step, Hit, NoWrap, Holds;
    MoveCustomers(cfg, s, m);
    HoldsIsWrite(s.tasks[m.worker], ck);
    if s.tasks[m.worker].Idle? {
      StartHoldsNothing(cfg, m.start, s.clocks[m.worker], ck);
    } else {
      SoloStep(PointOf(s, m.worker), ck);
    }
  }

  lemma HoldsIsWrite(t: Task, ck: CKey)
    ensures Holds(t, ck) <==> WritesCustomer(t) && CustomerWritten(t) == ck
  {
  }

  lemma IdleHoldsNothing(s: State, i: nat, ck: CKey)
    requires OthersIdle(s, i)
    ensures forall j :: 0 <= j < |s.tasks| && j != i ==> !Holds(s.tasks[j], ck)
  {
  }

  lemma {:induction false} SerialIsCurrent(cfg: Config, s: State, moves: seq<Move>, ck: CKey)
    requires ValidConfig(cfg) && IsRun(cfg, s, moves) && Serial(cfg, s, moves) && Solo(s, ck)
    ensures AllRowsCurrent(cfg, s, moves, ck)
    decreases |moves|
  {
    if moves != [] {
      hide Solo, RowCurrent, Holds;
      IdleHoldsNothing(s, moves[0].worker, ck);
      SoloMove(cfg, s, moves[0], ck);
      SerialIsCurrent(cfg, After(cfg, s, moves[0]), moves[1..], ck);
    }
  }

  lemma InitIsSolo(cfg: Config, s0: State, ck: CKey)
    requires Init(cfg, s0) && ck in s0.db.customer
    ensures Solo(s0, ck)
  {
  }

  /** All three equations hold in every state of a run whose transactions do not overlap. */
  lemma CustomerMoneyIsConserved(cfg: Config, s0: State, moves: seq<Move>, ck: CKey)
    requires Init(cfg, s0) && IsRun(cfg, s0, moves) && Serial(cfg, s0, moves) && ck in s0.db.customer
    ensures ConservedThroughout(cfg, s0, moves, ck) && SumHoldsThroughout(cfg, s0, moves, ck)
    ensures BalanceHoldsThroughout(cfg, s0, moves, ck)
  {
    hide IsRun, Loaded, Serial, Solo, AllRowsCurrent, ConservedThroughout, AllCurrent, SumHoldsThroughout,
         AllSumsCurrent, BalanceHoldsThroughout, AllBalancesCurrent;
    InitIsSolo(cfg, s0, ck);
    SerialIsCurrent(cfg, s0, moves, ck);
    RowsCurrentEnough(cfg, s0, moves, ck);
    CustomerMoneyExactly(cfg, s0, moves, ck);
  }

  // ----- stale copies as events of the run

  /** The next step of `t` reads the customer's row, to write it back later. */
  predicate ReadsRow(t: Task, ck: CKey)
  {
    || (t.Payment? && t.p.PayReadCustomer? && CustomerOf(t.p.a) == ck)
    || (t.Delivery? && t.v.DelReadCustomer? && CKey(t.v.a.w, t.v.d, t.v.order.c) == ck)
  }

  /** Payments change c_ytd_payment and c_payment_cnt; credits change c_balance + c_ytd_payment. */
  datatype Kind = ByPayment | ByCredit

  /** The next step of `t` writes a payment, or a credit, on the customer's row. */
  predicate Changes(kind: Kind, t: Task, ck: CKey)
  {
    Holds(t, ck) && if kind.ByPayment? then t.Payment? else t.Delivery?
  }

  /** The workers that another worker's payment, or credit, has overtaken since they read the row. */
  function OvertakenAfter(kind: Kind, overtaken: set<nat>, s: State, m: Move, ck: CKey): set<nat>
    requires m.worker < |s.tasks|
  {
    if Changes(kind, s.tasks[m.worker], ck) then set i: nat | i < |s.tasks| && i != m.worker && Holds(s.tasks[i], ck)
    else if ReadsRow(s.tasks[m.worker], ck) then overtaken - {m.worker}
    else overtaken
  }

  /** No worker writes the row back after another's payment, or credit, has overtaken its read. */
  ghost predicate NoneOvertaken(kind: Kind, cfg: Config, s: State, moves: seq<Move>, ck: CKey, overtaken: set<nat>)
    requires ValidConfig(cfg) && IsRun(cfg, s, moves)
    decreases |moves|
  {
    moves == [] ||
    ((Holds(s.tasks[moves[0].worker], ck) ==> moves[0].worker !in overtaken)
     && NoneOvertaken(kind, cfg, After(cfg, s, moves[0]), moves[1..], ck, OvertakenAfter(kind, overtaken, s, moves[0], ck)))
  }

  predicate SameIn(kind: Kind, copy: Customer, row: Customer)
  {
    if kind.ByPayment? then copy.paymentCnt == row.paymentCnt && copy.ytdPayment == row.ytdPayment
    else SumOf(copy) == SumOf(row)
  }

  predicate BehindIn(kind: Kind, copy: Customer, row: Customer)
  {
    if kind.ByPayment? then copy.paymentCnt < row.paymentCnt else SumOf(copy) < SumOf(row)
  }

  ghost predicate CurrentIn(kind: Kind, s: State, m: Move, ck: CKey)
    requires m.worker < |s.tasks|
  {
    if kind.ByPayment? then PaymentFieldsCurrent(s, m, ck) else SumCurrent(s, m, ck)
  }

  ghost predicate AllCurrentIn(kind: Kind, cfg: Config, s: State, moves: seq<Move>, ck: CKey)
    requires ValidConfig(cfg) && IsRun(cfg, s, moves)
  {
    if kind.ByPayment? then AllCurrent(cfg, s, moves, ck) else AllSumsCurrent(cfg, s, moves, ck)
  }

  /** A copy that was overtaken is behind the row; any other agrees with it. */
  ghost predicate Tracks(kind: Kind, s: State, ck: CKey, overtaken: set<nat>)
  {
    && ck in s.db.customer
    && forall i :: 0 <= i < |s.tasks| && Holds(s.tasks[i], ck) ==>
         if i in overtaken then BehindIn(kind, CopyHeld(s.tasks[i]), s.db.customer[ck])
         else SameIn(kind, CopyHeld(s.tasks[i]), s.db.customer[ck])
  }

  lemma ReadIsHeld(x: Point, ck: CKey)
    requires Hit(x.db, x.task)
    ensures Holds(Step(x).task, ck) ==> ReadsRow(x.task, ck)
  {
    hide NewOrderStep;
    match x.task
    case NewOrder(n) => NewOrderLeavesCustomers(x.db, n, x.clock);
    case Payment(p) =>
    case Delivery(v) =>
  }

  /** A written row is ahead of its copy in what the write changes, and agrees with it in the rest. */
  lemma WrittenRow(kind: Kind, cfg: Config, first: map<SKey, nat>, s: State, i: nat, ck: CKey)
    requires ValidConfig(cfg) && Inv(cfg, first, s) && i < |s.tasks| && Holds(s.tasks[i], ck)
    ensures var t := s.tasks[i];
            if Changes(kind, t, ck) then BehindIn(kind, CopyHeld(t), RowWritten(t))
            else SameIn(kind, CopyHeld(t), RowWritten(t))
  {
    hide RowsPresent, StockInv, TaskOk, OwnerInv, OwnedBy, RangeOf;
    if kind.ByCredit? && s.tasks[i].Delivery? {
      CreditIsPositive(cfg, first, s, i);
    }
  }

  lemma SameThenBehind(kind: Kind, a: Customer, b: Customer, c: Customer)
    ensures SameIn(kind, a, b) && BehindIn(kind, b, c) ==> BehindIn(kind, a, c)
    ensures BehindIn(kind, a, b) && BehindIn(kind, b, c) ==> BehindIn(kind, a, c)
    ensures SameIn(kind, a, b) && SameIn(kind, b, c) ==> SameIn(kind, a, c)
    ensures BehindIn(kind, a, b) && SameIn(kind, b, c) ==> BehindIn(kind, a, c)
    ensures SameIn(kind, a, b) <==> SameIn(kind, b, a)
    ensures SameIn(kind, a, b) ==> (BehindIn(kind, a, c) <==> BehindIn(kind, b, c))
    ensures SameIn(kind, a, a) && !(SameIn(kind, a, b) && BehindIn(kind, a, b))
  {
  }

  /** Writing the row back leaves every other copy behind it, or where it was. */
  lemma WriteTracks(kind: Kind, cfg: Config, first: map<SKey, nat>, s: State, m: Move, ck: CKey, overtaken: set<nat>)
    requires ValidConfig(cfg) && Inv(cfg, first, s) && CanMove(cfg, s, m) && Tracks(kind, s, ck, overtaken)
    requires m.worker < |s.tasks| && Holds(s.tasks[m.worker], ck) && CurrentIn(kind, s, m, ck)
    ensures Tracks(kind, After(cfg, s, m), ck, OvertakenAfter(kind, overtaken, s, m, ck))
  {
    hide Inv, Step, Hit, NoWrap, ReadsRow, SameIn, BehindIn;
    var t, row := s.tasks[m.worker], s.db.customer[ck];
    MoveCustomers(cfg, s, m);
    HoldsIsWrite(t, ck);
    HolderIsDone(PointOf(s, m.worker), ck);
    WrittenRow(kind, cfg, first, s, m.worker, ck);
    CurrentIsSame(kind, s, m, ck);
    forall i | 0 <= i < |s.tasks| && i != m.worker && Holds(s.tasks[i], ck)
      ensures var copy := CopyHeld(s.tasks[i]);
              if Changes(kind, t, ck) then BehindIn(kind, copy, RowWritten(t))
              else (BehindIn(kind, copy, row) ==> BehindIn(kind, copy, RowWritten(t)))
                   && (SameIn(kind, copy, row) ==> SameIn(kind, copy, RowWritten(t)))
    {
      SameThenBehind(kind, CopyHeld(s.tasks[i]), row, CopyHeld(t));
      SameThenBehind(kind, CopyHeld(t), row, RowWritten(t));
      SameThenBehind(kind, CopyHeld(s.tasks[i]), CopyHeld(t), RowWritten(t));
      SameThenBehind(kind, CopyHeld(s.tasks[i]), row, RowWritten(t));
      SameThenBehind(kind, row, CopyHeld(t), RowWritten(t));
    }
  }

  lemma CurrentIsSame(kind: Kind, s: State, m: Move, ck: CKey)
    requires m.worker < |s.tasks| && ck in s.db.customer && Holds(s.tasks[m.worker], ck)
    ensures CurrentIn(kind, s, m, ck) <==> SameIn(kind, CopyHeld(s.tasks[m.worker]), s.db.customer[ck])
  {
  }

  /** Who has written the row back does not hold it any more. */
  lemma HolderIsDone(x: Point, ck: CKey)
    requires Hit(x.db, x.task) && Holds(x.task, ck)
    ensures !Holds(Step(x).task, ck) && !ReadsRow(x.task, ck)
  {
  }

  lemma MoveTracks(kind: Kind, cfg: Config, first: map<SKey, nat>, s: State, m: Move, ck: CKey, overtaken: set<nat>)
    requires ValidConfig(cfg) && Inv(cfg, first, s) && CanMove(cfg, s, m)
    requires m.worker < |s.tasks| && Tracks(kind, s, ck, overtaken) && CurrentIn(kind, s, m, ck)
    ensures Tracks(kind, After(cfg, s, m), ck, OvertakenAfter(kind, overtaken, s, m, ck))
  {
    hide Inv, Step, Hit, NoWrap, ReadsRow, SameIn, BehindIn, Holds, CurrentIn;
    MoveCustomers(cfg, s, m);
    HoldsIsWrite(s.tasks[m.worker], ck);
    if s.tasks[m.worker].Idle? {
      StartHoldsNothing(cfg, m.start, s.clocks[m.worker], ck);
    } else if Holds(s.tasks[m.worker], ck) {
      WriteTracks(kind, cfg, first, s, m, ck, overtaken);
    } else {
      SoloStep(PointOf(s, m.worker), ck);
      ReadIsHeld(PointOf(s, m.worker), ck);
      SameThenBehind(kind, s.db.customer[ck], s.db.customer[ck], s.db.customer[ck]);
    }
  }

  /** Copies are stale if and only if they were overtaken. */
  lemma {:induction false} OvertakenExactly(kind: Kind, cfg: Config, first: map<SKey, nat>, s: State, moves: seq<Move>,
                                            ck: CKey, overtaken: set<nat>)
    requires ValidConfig(cfg) && Inv(cfg, first, s) && IsRun(cfg, s, moves) && Tracks(kind, s, ck, overtaken)
    ensures AllCurrentIn(kind, cfg, s, moves, ck) <==> NoneOvertaken(kind, cfg, s, moves, ck, overtaken)
    decreases |moves|
  {
    if moves != [] {
      hide Inv, Tracks, PaymentFieldsCurrent, SumCurrent, OvertakenAfter, Holds, CanMove, After;
      var m := moves[0];
      WorkerIsThere(cfg, s, m);
      CurrentIsNotOvertaken(kind, s, m, ck, overtaken);
      if CurrentIn(kind, s, m, ck) {
        MoveTracks(kind, cfg, first, s, m, ck, overtaken);
        MoveKeepsInv(cfg, first, s, m);
        OvertakenExactly(kind, cfg, first, After(cfg, s, m), moves[1..], ck, OvertakenAfter(kind, overtaken, s, m, ck));
      }
    }
  }

  lemma CurrentIsNotOvertaken(kind: Kind, s: State, m: Move, ck: CKey, overtaken: set<nat>)
    requires Tracks(kind, s, ck, overtaken) && m.worker < |s.tasks|
    ensures CurrentIn(kind, s, m, ck) <==> (Holds(s.tasks[m.worker], ck) ==> m.worker !in overtaken)
  {
  }

  /**
   From the loaded state, c_ytd_payment and c_payment_cnt are right in every state of a run if
   and only if no other worker's payment comes between a worker's read and its write-back; and
   condition 12 holds in every state if and only if no other worker's credit does.
   */
  lemma ConservedByEvents(cfg: Config, s0: State, moves: seq<Move>, ck: CKey)
    requires Init(cfg, s0) && IsRun(cfg, s0, moves) && ck in s0.db.customer
    ensures ConservedThroughout(cfg, s0, moves, ck) <==> NoneOvertaken(ByPayment, cfg, s0, moves, ck, {})
    ensures SumHoldsThroughout(cfg, s0, moves, ck) <==> NoneOvertaken(ByCredit, cfg, s0, moves, ck, {})
  {
    hide IsRun, Loaded, Inv, ConservedThroughout, AllCurrent, NoneOvertaken, SumHoldsThroughout, AllSumsCurrent,
         BalanceHoldsThroughout, AllBalancesCurrent;
    InitIsInv(cfg, s0);
    CustomerMoneyExactly(cfg, s0, moves, ck);
    OvertakenExactly(ByPayment, cfg, FirstQuantities(s0.db), s0, moves, ck, {});
    OvertakenExactly(ByCredit, cfg, FirstQuantities(s0.db), s0, moves, ck, {});
  }

  // ----- a customer whose payments all come from its own warehouse's worker

  /** Every payment of the customer is started by the owner of the customer's warehouse. */
  ghost predicate OwnerPays(cfg: Config, moves: seq<Move>, ck: CKey)
    requires ValidConfig(cfg)
  {
    forall m :: m in moves && m.start.Payment? && CustomerOf(m.start.p.a) == ck ==> OwnedBy(cfg, m.worker, ck.w)
  }

  /** So far every worker in a payment of the customer is that owner. */
  ghost predicate OwnerPaysNow(cfg: Config, s: State, ck: CKey)
    requires ValidConfig(cfg)
  {
    forall i :: 0 <= i < |s.tasks| && s.tasks[i].Payment? && CustomerOf(s.tasks[i].p.a) == ck ==> OwnedBy(cfg, i, ck.w)
  }

  lemma PaymentStaysItself(x: Point)
    requires Hit(x.db, x.task)
    ensures Step(x).task.Payment? ==> x.task.Payment? && Step(x).task.p.a == x.task.p.a
  {
    hide NewOrderStep, DeliveryStep;
    match x.task
    case NewOrder(n) => NewOrderLeavesCustomers(x.db, n, x.clock);
    case Payment(p) =>
    case Delivery(v) => DeliveryOnCustomers(x.db, v, x.clock);
  }

  lemma OwnerPaysOn(cfg: Config, s: State, m: Move, ck: CKey)
    requires ValidConfig(cfg) && CanMove(cfg, s, m) && OwnerPaysNow(cfg, s, ck)
    requires m.start.Payment? && CustomerOf(m.start.p.a) == ck ==> OwnedBy(cfg, m.worker, ck.w)
    ensures OwnerPaysNow(cfg, After(cfg, s, m), ck)
  {
    hide Step, Hit, NoWrap, ValidStart, OwnedBy;
    if !s.tasks[m.worker].Idle? {
      PaymentStaysItself(PointOf(s, m.worker));
    }
  }

  /** Then only the owner ever holds the row. */
  lemma OnlyOwnerHolds(cfg: Config, first: map<SKey, nat>, s: State, ck: CKey, i: nat, j: nat)
    requires ValidConfig(cfg) && Inv(cfg, first, s) && OwnerPaysNow(cfg, s, ck)
    requires i < |s.tasks| && j < |s.tasks| && Holds(s.tasks[i], ck) && Holds(s.tasks[j], ck)
    ensures i == j
  {
    hide RowsPresent, StockInv, LineTable, OwnerInv, TaskOk, RangeOf;
    OwnerIsUnique(cfg, i, j, ck.w);
  }

  lemma {:induction false} OwnerPaysIsCurrent(cfg: Config, first: map<SKey, nat>, s: State, moves: seq<Move>, ck: CKey)
    requires ValidConfig(cfg) && Inv(cfg, first, s) && IsRun(cfg, s, moves) && Solo(s, ck)
    requires OwnerPaysNow(cfg, s, ck) && OwnerPays(cfg, moves, ck)
    ensures AllRowsCurrent(cfg, s, moves, ck)
    decreases |moves|
  {
    if moves != [] {
      hide Inv, Solo, RowCurrent, Holds, OwnerPaysNow;
      var m := moves[0];
      forall j | 0 <= j < |s.tasks| && j != m.worker && Holds(s.tasks[m.worker], ck) ensures !Holds(s.tasks[j], ck) {
        if Holds(s.tasks[j], ck) {
          OnlyOwnerHolds(cfg, first, s, ck, m.worker, j);
        }
      }
      SoloMove(cfg, s, m, ck);
      OwnerPaysOn(cfg, s, m, ck);
      MoveKeepsInv(cfg, first, s, m);
      OwnerPaysIsCurrent(cfg, first, After(cfg, s, m), moves[1..], ck);
    }
  }

  /**
   All three equations hold in every state of every interleaved run in which the customer's
   payments are all made by the worker of the customer's own warehouse.
   */
  lemma OwnerPaymentsAreConserved(cfg: Config, s0: State, moves: seq<Move>, ck: CKey)
    requires Init(cfg, s0) && IsRun(cfg, s0, moves) && ck in s0.db.customer && OwnerPays(cfg, moves, ck)
    ensures ConservedThroughout(cfg, s0, moves, ck) && SumHoldsThroughout(cfg, s0, moves, ck)
    ensures BalanceHoldsThroughout(cfg, s0, moves, ck)
  {
    hide IsRun, Loaded, Solo, AllRowsCurrent, ConservedThroughout, AllCurrent, SumHoldsThroughout, Inv, OwnerPays, OwnedBy,
         AllSumsCurrent, BalanceHoldsThroughout, AllBalancesCurrent;
    InitIsInv(cfg, s0);
    InitIsSolo(cfg, s0, ck);
    OwnerPaysIsCurrent(cfg, FirstQuantities(s0.db), s0, moves, ck);
    RowsCurrentEnough(cfg, s0, moves, ck);
    CustomerMoneyExactly(cfg, s0, moves, ck);
  }
}
