/**
 The rows that whole transactions ask for are there in every state of every run, so that the
 outcomes stated on the rows are those of every transaction that nobody interrupts.
 */
module RunOutcomes {
  import opened Schema
  import opened OrderedScan
  import opened Engine
  import opened DeliveryScan
  import opened WarehouseView
  import opened WarehouseInvariant
  import opened Workers
  import opened WorkerSteps
  import opened Outcomes
  import opened WholeDelivery

  lemma PaymentRowsExist(cfg: Config, first: map<SKey, nat>, s: State, i: nat, a: PaymentArgs)
    requires ValidConfig(cfg) && Inv(cfg, first, s) && OwnedBy(cfg, i, a.w) && ValidPayment(cfg.warehouses, a)
    ensures a.w in s.db.warehouse && DKey(a.w, a.d) in s.db.district && CKey(a.cw, a.cd, a.c) in s.db.customer
  {
    hide TaskOk, StockInv, LineTable, OwnedBy, Money, Dated, Ids, Carriers, Lines, PendingOk, LatestOk, Waiting, LineDates;
    Owned(cfg, first, s, i, a.w);
    assert DKey(a.w, a.d) in ViewOf(s.db, a.w).district;
  }

  lemma NewOrderRowsExist(cfg: Config, first: map<SKey, nat>, s: State, i: nat, a: NewOrderArgs)
    requires ValidConfig(cfg) && Inv(cfg, first, s) && OwnedBy(cfg, i, a.w) && ValidNewOrder(cfg.warehouses, a)
    ensures DKey(a.w, a.d) in s.db.district && ItemsFound(s.db, a, |a.lines|)
  {
    hide TaskOk, StockInv, LineTable, OwnedBy, Money, Dated, Ids, Carriers, Lines, PendingOk, LatestOk, Waiting, LineDates;
    Owned(cfg, first, s, i, a.w);
    assert DKey(a.w, a.d) in ViewOf(s.db, a.w).district;
    forall j | 0 <= j < |a.lines| ensures ItemFound(s.db, a.lines[j]) {
      assert ValidLine(cfg.warehouses, a.lines[j]);
    }
  }

  /** The order that a district's cache names has its rows, and its lines are the last of the district. */
  ghost predicate NewestIsThere(db: Db, w: nat, d: nat)
  {
    && IsPrepared(db, w, d) && DKey(w, d) in db.pending
    && var k := NewestOf(db, w, d);
       k in db.order && db.order[k].lines >= LEAST_LINES && NewestLines(db.orderLine, k, db.order[k].lines)
  }

  lemma DistrictIsPrepared(cfg: Config, first: map<SKey, nat>, s: State, i: nat, w: nat, d: nat)
    requires ValidConfig(cfg) && Inv(cfg, first, s) && OwnedBy(cfg, i, w) && s.tasks[i].Idle? && IsDistrict(d)
    ensures NewestIsThere(s.db, w, d)
  {
    hide TaskOk, StockInv, LineTable, OwnedBy, Money, Dated, Carriers, LatestOk, Waiting, LineDates, NewestLines;
    Owned(cfg, first, s, i, w);
    OwnerIsUnique(cfg, i, i, w);
    var v := ViewOf(s.db, w);
    assert DKey(w, d) in v.pending;
    var k := OKey(w, d, v.pending[DKey(w, d)]);
    assert IsNewest(w, v.order, d, k.o);
    HomeNewestLines(s.db, k, v.order[k].lines);
  }

  lemma IsThereIsPrepared(db: Db, w: nat, d: nat)
    requires NewestIsThere(db, w, d)
    ensures IsPrepared(db, w, d)
  {
  }

  /**
   The awaited order of district `d` is delivered: lines 1 to 10 are dated by the worker's own
   ticks and their amounts credited, once.
   */
  ghost predicate ServesItsOrder(db: Db, end: Db, a: DeliveryArgs, clock: nat, d: nat)
    requires Awaits(db, a.w, d)
  {
    var k := NewestOf(db, a.w, d);
    && k in db.order && k in end.order && k !in end.newOrder && end.order[k].carrier == a.carrier
    && (forall n: nat :: 1 <= n <= Min(db.order[k].lines, 10) ==>
         DatedAt(end.orderLine, LineKey(k, n), Ticks(clock, RowsBefore(db, a.w, 1, d) + n - 1)))
    && IsPaidFor(db, end, CKey(a.w, d, db.order[k].c), LineSum(db.orderLine, k, 1, Min(db.order[k].lines, 10)))
  }

  ghost predicate IsPaidFor(db: Db, end: Db, ck: CKey, amount: int)
  {
    && ck in db.customer && ck in end.customer
    && var c := db.customer[ck];
       end.customer[ck] == Customer(c.balance + amount, c.ytdPayment, c.paymentCnt, c.deliveryCnt + 1)
  }

  lemma ItsOrderIsServed(warehouses: nat, db: Db, end: Db, a: DeliveryArgs, clock: nat, d: nat)
    requires LineTable(warehouses, db.orderLine) && IsDistrict(d) && NewestIsThere(db, a.w, d) && Awaits(db, a.w, d)
    requires Served(db, end, a, 1, 11, clock)
    ensures ServesItsOrder(db, end, a, clock, d)
  {
    hide LineTable, NewestLines, Scan, RowsTotal, LineSum, Ticks, RowsBefore, DatedAt, LinesServed;
    var k := NewestOf(db, a.w, d);
    var m := Min(db.order[k].lines, 10);
    ScanOfNewest(warehouses, db.orderLine, k, db.order[k].lines);
    forall n: nat | 1 <= n <= m
      ensures DatedAt(end.orderLine, LineKey(k, n), Ticks(clock, RowsBefore(db, a.w, 1, d) + n - 1))
    {
      OwnLinesAreDated(db, end, a, 11, clock, d, n - 1);
    }
    assert IsServed(db, a.w, 1, 11, k);
    assert IsCredited(db, a.w, 1, 11, CKey(a.w, d, db.order[k].c));
  }

  /**
   In every state of a run a worker between transactions can deliver all its districts, and of
   each awaited order it dates and credits the first ten lines.
   */
  lemma DeliveryServes(cfg: Config, first: map<SKey, nat>, s: State, i: nat, a: DeliveryArgs, clock: nat)
    returns (end: Db)
    requires ValidConfig(cfg) && Inv(cfg, first, s) && OwnedBy(cfg, i, a.w) && s.tasks[i].Idle?
    ensures Finish(Point(s.db, Delivery(DelReadPending(a, 1)), clock))
         == Finished(end, Ticks(clock, RowsBefore(s.db, a.w, 1, 11)))
    ensures Served(s.db, end, a, 1, 11, clock)
    ensures forall d :: IsDistrict(d) && Awaits(s.db, a.w, d) ==> ServesItsOrder(s.db, end, a, clock, d)
  {
    hide Finish, Served, OwnedBy, NewestIsThere, RowsBefore, ServesItsOrder, IsPrepared, Awaits, LineTable, OwnerInv,
         TaskOk, StockInv, RowsPresent;
    forall d | IsDistrict(d) ensures NewestIsThere(s.db, a.w, d) && IsPrepared(s.db, a.w, d) {
      DistrictIsPrepared(cfg, first, s, i, a.w, d);
      IsThereIsPrepared(s.db, a.w, d);
    }
    end := DeliveryOutcome(s.db, a, 11, clock);
    forall d | IsDistrict(d) && Awaits(s.db, a.w, d) ensures ServesItsOrder(s.db, end, a, clock, d) {
      ItsOrderIsServed(cfg.warehouses, s.db, end, a, clock, d);
    }
  }
}
