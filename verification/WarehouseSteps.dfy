/** Every step of a warehouse's owner keeps the warehouse's invariant. */
module WarehouseSteps {
  import opened Common
  import opened Totals
  import opened Schema
  import opened Engine
  import opened OrderedScan
  import opened DeliveryScan
  import opened WarehouseView
  import opened WarehouseInvariant

  // ----- money

  lemma {:induction false} DistrictTotalPut(m: Districts, w: nat, n: nat, d: nat, row: District)
    requires forall j :: 1 <= j <= n ==> DKey(w, j) in m
    requires d >= 1 && DKey(w, d) in m
    ensures DistrictTotal(m[DKey(w, d) := row], w, n)
         == DistrictTotal(m, w, n) + if d <= n then row.ytd - m[DKey(w, d)].ytd else 0
  {
    if n > 0 {
      DistrictTotalPut(m, w, n - 1, d, row);
    }
  }

  lemma DistrictHistoryInsert(h: map<HKey, int>, k: HKey, amount: int, d: nat)
    requires k !in h
    ensures Total(DistrictHistory(h[k := amount], d))
         == Total(DistrictHistory(h, d)) + if k.d == d then amount else 0
  {
    if k.d == d {
      assert DistrictHistory(h[k := amount], d) == DistrictHistory(h, d)[k := amount];
      TotalInsert(DistrictHistory(h, d), k, amount);
    } else {
      assert DistrictHistory(h[k := amount], d) == DistrictHistory(h, d);
    }
  }

  /** What a payment adds to the warehouse it owes to the district and to the history. */
  lemma PayKeepsMoney(w: nat, ytd: int, district: Districts, h: map<HKey, int>, amount: int)
    requires DistrictsExist(w, district)
    requires Money(w, ytd, district, h, Owed(0, 0, 0, 0))
    ensures Money(w, ytd + amount, district, h, Owed(amount, amount, 0, 0))
  {
  }

  /** Adding to a district row what was owed to it leaves it owing the same to the history. */
  lemma CollectKeepsMoney(w: nat, ytd: int, district: Districts, h: map<HKey, int>, d: nat, amount: int)
    requires DistrictsExist(w, district) && IsDistrict(d)
    requires Money(w, ytd, district, h, Owed(amount, amount, 0, 0))
    ensures Money(w, ytd, district[DKey(w, d) := Collected(district[DKey(w, d)], amount)], h,
                  Owed(0, amount, d, amount))
  {
    DistrictTotalPut(district, w, DISTRICTS, d, Collected(district[DKey(w, d)], amount));
  }

  /** A history row with a fresh key settles what is owed to the history. */
  lemma HistoryKeepsMoney(w: nat, ytd: int, district: Districts, h: map<HKey, int>, k: HKey, amount: int)
    requires DistrictsExist(w, district) && IsDistrict(k.d) && k !in h
    requires Money(w, ytd, district, h, Owed(0, amount, k.d, amount))
    ensures Money(w, ytd, district, h[k := amount], Owed(0, 0, 0, 0))
  {
    TotalInsert(h, k, amount);
    forall d | IsDistrict(d)
      ensures district[DKey(w, d)].ytd == Total(DistrictHistory(h[k := amount], d))
    {
      DistrictHistoryInsert(h, k, amount, d);
    }
  }

  /** Taking an order id touches no money. */
  lemma BumpKeepsMoney(w: nat, ytd: int, district: Districts, h: map<HKey, int>, d: nat)
    requires DistrictsExist(w, district) && IsDistrict(d)
    requires Money(w, ytd, district, h, Owed(0, 0, 0, 0))
    ensures Money(w, ytd, district[DKey(w, d) := Bumped(district[DKey(w, d)])], h, Owed(0, 0, 0, 0))
  {
    DistrictTotalPut(district, w, DISTRICTS, d, Bumped(district[DKey(w, d)]));
  }

  lemma DatedLater(h: map<HKey, int>, clock: nat)
    requires Dated(h, clock)
    ensures Dated(h, clock + 1)
  {
  }

  // ----- order ids

  lemma BumpTakesId(w: nat, district: Districts, order: Orders, d: nat)
    requires DistrictsExist(w, district) && IsDistrict(d)
    requires Ids(w, district, order, None)
    requires district[DKey(w, d)].next + 1 < TWO32
    ensures var row := Bumped(district[DKey(w, d)]);
            Ids(w, district[DKey(w, d) := row], order, Some(OKey(w, d, row.next)))
  {
  }

  lemma CollectKeepsIds(w: nat, district: Districts, order: Orders, d: nat, amount: int)
    requires DistrictsExist(w, district) && IsDistrict(d)
    requires Ids(w, district, order, None)
    ensures Ids(w, district[DKey(w, d) := Collected(district[DKey(w, d)], amount)], order, None)
  {
  }

  lemma InsertOrderKeepsIds(w: nat, district: Districts, order: Orders, k: OKey, row: Order)
    requires DistrictsExist(w, district) && IsDistrict(k.d) && k.w == w && OrderRowOk(row)
    requires k.o == district[DKey(w, k.d)].next
    requires Ids(w, district, order, Some(k))
    ensures Ids(w, district, order[k := row], None)
  {
  }

  lemma MarkKeepsIds(w: nat, district: Districts, order: Orders, k: OKey, carrier: nat)
    requires DistrictsExist(w, district) && k in order
    requires Ids(w, district, order, None)
    ensures Ids(w, district, order[k := order[k].(carrier := carrier)], None)
  {
  }

  /** A taken id is not among the orders, their new_order rows or their lines. */
  lemma TakenIsFresh(w: nat, district: Districts, order: Orders, k: OKey)
    requires DistrictsExist(w, district) && Ids(w, district, order, Some(k))
    ensures Above(order, k) && k !in order
  {
  }

  lemma TakenIsRunTime(w: nat, district: Districts, order: Orders, k: OKey)
    requires DistrictsExist(w, district) && Ids(w, district, order, Some(k))
    ensures k.o > LOADED_DELIVERED
  {
  }

  lemma NextIsRunTime(w: nat, district: Districts, order: Orders, d: nat)
    requires DistrictsExist(w, district) && Ids(w, district, order, None) && IsDistrict(d)
    ensures district[DKey(w, d)].next > LOADED_DELIVERED
  {
  }

  // ----- carriers and new_order rows

  lemma AnnounceKeepsCarriers(order: Orders, newOrder: set<OKey>, k: OKey)
    requires Carriers(order, newOrder, None, None) && k !in order
    ensures Carriers(order, newOrder + {k}, Some(k), None)
  {
  }

  lemma InsertOrderKeepsCarriers(order: Orders, newOrder: set<OKey>, k: OKey, row: Order)
    requires Carriers(order, newOrder, Some(k), None) && row.carrier == 0
    ensures Carriers(order[k := row], newOrder, None, None)
  {
  }

  lemma RemoveKeepsCarriers(order: Orders, newOrder: set<OKey>, k: OKey)
    requires Carriers(order, newOrder, None, None) && k in newOrder
    ensures Carriers(order, newOrder - {k}, None, Some(k))
  {
  }

  lemma MarkKeepsCarriers(order: Orders, newOrder: set<OKey>, k: OKey, carrier: nat)
    requires Carriers(order, newOrder, None, Some(k)) && carrier != 0
    ensures Carriers(order[k := order[k].(carrier := carrier)], newOrder, None, None)
  {
  }

  // ----- order lines

  lemma InsertOrderKeepsLines(order: Orders, lines: set<OLKey>, k: OKey, row: Order)
    requires Lines(order, lines, None, 0) && k !in order
    ensures Lines(order[k := row], lines, Some(k), 0)
  {
  }

  lemma InsertLineKeepsLines(order: Orders, lines: set<OLKey>, k: OKey, i: nat)
    requires Lines(order, lines, Some(k), i) && k in order
    ensures Lines(order, lines + {OLKey(k.w, k.d, k.o, i + 1)}, Some(k), i + 1)
  {
  }

  /** The last line entered, the order is like any other. */
  lemma FilledKeepsLines(order: Orders, lines: set<OLKey>, k: OKey)
    requires k in order && Lines(order, lines, Some(k), order[k].lines)
    ensures Lines(order, lines, None, 0)
  {
  }

  lemma MarkKeepsLines(order: Orders, lines: set<OLKey>, k: OKey, carrier: nat)
    requires k in order && Lines(order, lines, None, 0)
    ensures Lines(order[k := order[k].(carrier := carrier)], lines, None, 0)
  {
  }

  // ----- waiting orders and delivery dates

  lemma AnnounceKeepsWaiting(w: nat, newOrder: set<OKey>, k: OKey)
    requires Waiting(w, newOrder) && k.o > LOADED_DELIVERED
    ensures Waiting(w, newOrder + {k})
  {
  }

  lemma RemoveKeepsWaiting(w: nat, newOrder: set<OKey>, k: OKey)
    requires Waiting(w, newOrder) && k.o >= LAST_LOADED
    ensures Waiting(w, newOrder - {k})
  {
  }

  /** What delivery takes is not among the orders that stay. */
  lemma NewestIsNotOld(w: nat, district: Districts, order: Orders, pending: map<DKey, nat>, d: nat)
    requires DistrictsExist(w, district) && IsDistrict(d)
    requires Ids(w, district, order, None) && PendingOk(w, order, pending, None)
    ensures DKey(w, d) in pending && pending[DKey(w, d)] >= LAST_LOADED
  {
    assert OKey(w, d, LAST_LOADED) in order;
  }

  lemma InsertOrderKeepsDates(order: Orders, lines: set<OLKey>, dated: set<OLKey>, k: OKey, row: Order)
    requires Lines(order, lines, None, 0) && k !in order && LineDates(order, lines, dated, None, 0)
    ensures LineDates(order[k := row], lines, dated, None, 0)
  {
  }

  lemma InsertLineKeepsDates(order: Orders, lines: set<OLKey>, dated: set<OLKey>, k: OKey, i: nat)
    requires Lines(order, lines, Some(k), i) && LineDates(order, lines, dated, None, 0)
    requires k in order && order[k].carrier == 0 && k.o > LOADED_DELIVERED
    ensures var l := OLKey(k.w, k.d, k.o, i + 1); LineDates(order, lines + {l}, dated - {l}, None, 0)
  {
    assert OLKey(k.w, k.d, k.o, i + 1) !in lines;
  }

  lemma MarkKeepsDates(order: Orders, lines: set<OLKey>, dated: set<OLKey>, k: OKey, carrier: nat)
    requires Lines(order, lines, None, 0) && LineDates(order, lines, dated, None, 0)
    requires k in order && order[k].carrier == 0
    ensures LineDates(order[k := order[k].(carrier := carrier)], lines, dated, Some(k), 0)
  {
  }

  /** Writing back one scanned row dates it; rows past the order's own were dated before. */
  lemma WriteBackKeepsDates(w: nat, order: Orders, lines: set<OLKey>, dated: set<OLKey>, rows: seq<Row>, k: OKey, i: nat)
    requires Lines(order, lines, None, 0) && LineDates(order, lines, dated, Some(k), i)
    requires k in order && order[k].carrier != 0 && k.o > LOADED_DELIVERED && k.w == w
    requires RowsShape(rows, k, order[k].lines) && i < |rows|
    requires forall l :: l in lines ==> l.w == w
    requires rows[i].0.w == w ==> rows[i].0 in lines
    ensures LineDates(order, lines, if rows[i].0.w == w then dated + {rows[i].0} else dated, Some(k), i + 1)
  {
    var l, own := rows[i].0, Min(order[k].lines, SCANNED);
    forall m | m in lines && OKey(m.w, m.d, m.o) in order && m != l
      ensures IsDated(order[OKey(m.w, m.d, m.o)].carrier, m, Some(k), i)
           == IsDated(order[OKey(m.w, m.d, m.o)].carrier, m, Some(k), i + 1)
    {
      if OKey(m.w, m.d, m.o) == k {
        assert m.n != i + 1 || i >= own;
      }
    }
  }

  /** All scanned rows written back, the order is like any other delivered one. */
  lemma WrittenKeepsDates(order: Orders, lines: set<OLKey>, dated: set<OLKey>, rows: seq<Row>, k: OKey)
    requires Lines(order, lines, None, 0) && LineDates(order, lines, dated, Some(k), |rows|)
    requires k in order && RowsShape(rows, k, order[k].lines)
    ensures LineDates(order, lines, dated, None, 0)
  {
  }

  // ----- side caches

  lemma SetPendingKeepsPending(w: nat, order: Orders, pending: map<DKey, nat>, k: OKey)
    requires k.w == w && PendingOk(w, order, pending, None)
    ensures PendingOk(w, order, pending[DKey(w, k.d) := k.o], Some(k))
  {
  }

  lemma InsertOrderKeepsPending(w: nat, order: Orders, pending: map<DKey, nat>, k: OKey, row: Order)
    requires Above(order, k) && k.w == w && PendingOk(w, order, pending, Some(k))
    ensures PendingOk(w, order[k := row], pending, None)
  {
  }

  lemma MarkKeepsPending(w: nat, order: Orders, pending: map<DKey, nat>, k: OKey, carrier: nat)
    requires k in order && PendingOk(w, order, pending, None)
    ensures PendingOk(w, order[k := order[k].(carrier := carrier)], pending, None)
  {
  }

  lemma SetLatestKeepsLatest(w: nat, order: Orders, latest: map<CKey, nat>, k: OKey, c: nat)
    requires k.w == w && LatestOk(w, order, latest, None)
    ensures LatestOk(w, order, latest[CKey(w, k.d, c) := k.o], Some((CKey(w, k.d, c), k.o)))
  {
  }

  lemma InsertOrderKeepsLatest(w: nat, order: Orders, latest: map<CKey, nat>, k: OKey, row: Order)
    requires Above(order, k) && k.w == w
    requires LatestOk(w, order, latest, Some((CKey(w, k.d, row.c), k.o)))
    ensures LatestOk(w, order[k := row], latest, None)
  {
  }

  lemma MarkKeepsLatest(w: nat, order: Orders, latest: map<CKey, nat>, k: OKey, carrier: nat)
    requires k in order && LatestOk(w, order, latest, None)
    ensures LatestOk(w, order[k := order[k].(carrier := carrier)], latest, None)
  {
  }

  // ----- all steps

  /** The scanned rows of a delivery are its order's lines and then lines of orders 1. */
  ghost predicate ScanOk(db: Db, t: Task)
  {
    t.Delivery? ==>
      && (t.v.DelScanLines? ==>
           RowsShape(Scan(db.orderLine, OLKey(t.v.a.w, t.v.d, t.v.o, 0), SCANNED),
                     OKey(t.v.a.w, t.v.d, t.v.o), t.v.order.lines))
      && (t.v.DelWriteLine? ==> RowsShape(t.v.rows, OKey(t.v.a.w, t.v.d, t.v.o), t.v.order.lines))
  }

  /** `v` is what the owner sees before step `t`; the item it reads, if any, exists. */
  ghost predicate At(db: Db, v: View, t: Task, clock: nat)
  {
    && v.w in db.warehouse && v == ViewOf(db, v.w)
    && Hit(db, t) && NoWrap(Point(db, t, clock)) && WarehouseOf(t) == v.w
    && WarehouseInv(v, t, clock)
    && (t.NewOrder? && t.n.NoReadItem? ==> t.n.a.lines[t.n.i].item in db.item)
    && ScanOk(db, t) && RowsExist(db, t)
  }

  // Reads return what is in the view.

  lemma SeesWarehouse(db: Db, w: nat)
    requires w in db.warehouse
    ensures ViewOf(db, w).ytd == db.warehouse[w]
  {
  }

  lemma SeesDistrict(db: Db, w: nat, d: nat)
    requires w in db.warehouse && DKey(w, d) in db.district
    ensures DKey(w, d) in ViewOf(db, w).district && ViewOf(db, w).district[DKey(w, d)] == db.district[DKey(w, d)]
  {
  }

  lemma SeesOrder(db: Db, w: nat, t: DeliveryTask)
    requires w in db.warehouse && t.a.w == w
    ensures t.DelReadPending? ==>
              var k, v := DKey(w, t.d), ViewOf(db, w);
              (k in v.pending <==> k in db.pending) && (k in v.pending ==> v.pending[k] == db.pending[k])
    ensures t.DelReadNewOrder? || t.DelReadOrder? ==>
              var k, v := OKey(w, t.d, t.o), ViewOf(db, w);
              && (k in v.newOrder <==> k in db.newOrder)
              && (k in v.order <==> k in db.order)
              && (k in v.order ==> v.order[k] == db.order[k])
  {
  }

  lemma TakeIdKeeps(db: Db, v: View, t: NewOrderTask, clock: nat)
    requires At(db, v, NewOrder(t), clock)
    requires t.NoReadDistrict? || t.NoWriteDistrict?
    ensures var x := NewOrderStep(db, t, clock);
            WarehouseInv(NewOrderEffect(v, t, clock), x.task, x.clock)
  {
    hide Money, Dated, Ids, Carriers, Lines, PendingOk, LatestOk, Above, ViewOf, Waiting, LineDates;
    if t.NoReadDistrict? {
      SeesDistrict(db, v.w, t.a.d);
    } else {
      BumpKeepsMoney(v.w, v.ytd, v.district, v.history, t.a.d);
      BumpTakesId(v.w, v.district, v.order, t.a.d);
    }
  }

  lemma AnnounceKeeps(db: Db, v: View, t: NewOrderTask, clock: nat)
    requires At(db, v, NewOrder(t), clock)
    requires t.NoInsertNewOrder? || t.NoSetPending? || t.NoSetLatest?
    ensures var x := NewOrderStep(db, t, clock);
            WarehouseInv(NewOrderEffect(v, t, clock), x.task, x.clock)
  {
    hide Money, Dated, Ids, Carriers, Lines, PendingOk, LatestOk, Above, ViewOf, Waiting, LineDates;
    var k := NewKey(t.a, t.row);
    if t.NoInsertNewOrder? {
      TakenIsFresh(v.w, v.district, v.order, k);
      AnnounceKeepsCarriers(v.order, v.newOrder, k);
      TakenIsRunTime(v.w, v.district, v.order, k);
      AnnounceKeepsWaiting(v.w, v.newOrder, k);
    } else if t.NoSetPending? {
      SetPendingKeepsPending(v.w, v.order, v.pending, k);
    } else {
      SetLatestKeepsLatest(v.w, v.order, v.latest, k, t.a.c);
    }
  }

  lemma FillOrderKeeps(db: Db, v: View, t: NewOrderTask, clock: nat)
    requires At(db, v, NewOrder(t), clock)
    requires t.NoInsertOrder? || t.NoInsertLine?
    ensures var x := NewOrderStep(db, t, clock);
            WarehouseInv(NewOrderEffect(v, t, clock), x.task, x.clock)
  {
    hide Money, Dated, Ids, Carriers, Lines, PendingOk, LatestOk, Above, ViewOf, Waiting, LineDates;
    var k := NewKey(t.a, t.row);
    if t.NoInsertOrder? {
      DatedLater(v.history, clock);
      InsertOrderKeeps(v, k, Order(t.a.c, 0, |t.a.lines|, AllLocal(t.a), clock));
    } else {
      InsertLineKeepsLines(v.order, v.lines, k, t.i);
      NextIsRunTime(v.w, v.district, v.order, t.a.d);
      InsertLineKeepsDates(v.order, v.lines, v.dated, k, t.i);
      if t.i + 1 == |t.a.lines| {
        FilledKeepsLines(v.order, v.lines + {OLKey(k.w, k.d, k.o, t.i + 1)}, k);
      }
    }
  }

  lemma ReadItemKeeps(db: Db, v: View, t: NewOrderTask, clock: nat)
    requires At(db, v, NewOrder(t), clock)
    requires t.NoReadItem? || t.NoReadStock? || t.NoWriteStock?
    ensures var x := NewOrderStep(db, t, clock);
            WarehouseInv(NewOrderEffect(v, t, clock), x.task, x.clock)
  {
    hide Money, Dated, Ids, Carriers, Lines, PendingOk, LatestOk, Above, ViewOf, Waiting, LineDates;
    assert NewOrderEffect(v, t, clock) == v;
  }

  lemma NewOrderKeeps(db: Db, v: View, t: NewOrderTask, clock: nat)
    requires At(db, v, NewOrder(t), clock)
    ensures var x := NewOrderStep(db, t, clock);
            WarehouseInv(NewOrderEffect(v, t, clock), x.task, x.clock)
  {
    assert !Undoing(t);
    hide WarehouseInv;
    if t.NoReadDistrict? || t.NoWriteDistrict? {
      TakeIdKeeps(db, v, t, clock);
    } else if t.NoInsertNewOrder? || t.NoSetPending? || t.NoSetLatest? {
      AnnounceKeeps(db, v, t, clock);
    } else if t.NoInsertOrder? || t.NoInsertLine? {
      FillOrderKeeps(db, v, t, clock);
    } else {
      ReadItemKeeps(db, v, t, clock);
    }
  }

  lemma InsertOrderKeeps(v: View, k: OKey, row: Order)
    requires DistrictsExist(v.w, v.district) && k.w == v.w && IsDistrict(k.d)
    requires k.o == v.district[DKey(v.w, k.d)].next && OrderRowOk(row) && row.carrier == 0
    requires Ids(v.w, v.district, v.order, Some(k))
    requires Carriers(v.order, v.newOrder, Some(k), None)
    requires Lines(v.order, v.lines, None, 0)
    requires PendingOk(v.w, v.order, v.pending, Some(k))
    requires LatestOk(v.w, v.order, v.latest, Some((CKey(v.w, k.d, row.c), k.o)))
    requires LineDates(v.order, v.lines, v.dated, None, 0)
    ensures Ids(v.w, v.district, v.order[k := row], None)
    ensures Carriers(v.order[k := row], v.newOrder, None, None)
    ensures Lines(v.order[k := row], v.lines, Some(k), 0)
    ensures PendingOk(v.w, v.order[k := row], v.pending, None)
    ensures LatestOk(v.w, v.order[k := row], v.latest, None)
    ensures LineDates(v.order[k := row], v.lines, v.dated, None, 0)
  {
    hide Ids, Carriers, Lines, PendingOk, LatestOk, Above, Waiting, LineDates;
    TakenIsFresh(v.w, v.district, v.order, k);
    InsertOrderKeepsIds(v.w, v.district, v.order, k, row);
    InsertOrderKeepsCarriers(v.order, v.newOrder, k, row);
    InsertOrderKeepsLines(v.order, v.lines, k, row);
    InsertOrderKeepsDates(v.order, v.lines, v.dated, k, row);
    InsertOrderKeepsPending(v.w, v.order, v.pending, k, row);
    InsertOrderKeepsLatest(v.w, v.order, v.latest, k, row);
  }

  lemma PaymentKeeps(db: Db, v: View, t: PaymentTask, clock: nat)
    requires At(db, v, Payment(t), clock)
    ensures var x := PaymentStep(db, t, clock);
            WarehouseInv(PaymentEffect(v, t), x.task, x.clock)
  {
    hide Money, Ids, Carriers, Lines, PendingOk, LatestOk, ViewOf, Waiting, LineDates;
    if t.PayReadWarehouse? {
      SeesWarehouse(db, v.w);
    } else if t.PayWriteWarehouse? {
      PayKeepsMoney(v.w, v.ytd, v.district, v.history, t.a.amount);
    } else if t.PayReadDistrict? {
      SeesDistrict(db, v.w, t.a.d);
    } else if t.PayWriteDistrict? {
      CollectKeepsMoney(v.w, v.ytd, v.district, v.history, t.a.d, t.a.amount);
      CollectKeepsIds(v.w, v.district, v.order, t.a.d, t.a.amount);
    } else if t.PayInsertHistory? {
      HistoryKeepsMoney(v.w, v.ytd, v.district, v.history, HistoryKey(t.a), t.a.amount);
    }
  }

  lemma DeliveryKeeps(db: Db, v: View, t: DeliveryTask, clock: nat)
    requires At(db, v, Delivery(t), clock)
    ensures var x := DeliveryStep(db, t, clock);
            WarehouseInv(DeliveryEffect(v, t), x.task, x.clock)
  {
    hide WarehouseInv, RowsExist, ScanOk, ViewOf;
    if t.DelScanLines? || t.DelWriteLine? {
      LinesStepKeeps(db, v, t, clock);
    } else if t.DelRemoveNewOrder? || t.DelWriteOrder? {
      TakeNewestKeeps(db, v, t, clock);
    } else {
      DeliveryReadKeeps(db, v, t, clock);
    }
  }

  lemma DeliveryReadKeeps(db: Db, v: View, t: DeliveryTask, clock: nat)
    requires At(db, v, Delivery(t), clock)
    requires !t.DelScanLines? && !t.DelWriteLine? && !t.DelRemoveNewOrder? && !t.DelWriteOrder?
    ensures var x := DeliveryStep(db, t, clock);
            WarehouseInv(DeliveryEffect(v, t), x.task, x.clock)
  {
    hide Money, Dated, Ids, Carriers, Lines, PendingOk, LatestOk, ViewOf, Waiting, LineDates, RowsExist, ScanOk;
    SeesOrder(db, v.w, t);
    if t.DelReadOrder? {
      NewOrdersExist(v.order, v.newOrder, OKey(v.w, t.d, t.o));
      RowOk(v.w, v.district, v.order, OKey(v.w, t.d, t.o));
    }
  }

  lemma TakeNewestKeeps(db: Db, v: View, t: DeliveryTask, clock: nat)
    requires At(db, v, Delivery(t), clock)
    requires t.DelRemoveNewOrder? || t.DelWriteOrder?
    ensures var x := DeliveryStep(db, t, clock);
            WarehouseInv(DeliveryEffect(v, t), x.task, x.clock)
  {
    hide Money, Dated, Ids, Carriers, Lines, PendingOk, LatestOk, ViewOf, Waiting, LineDates, RowsExist, ScanOk;
    var k := OKey(v.w, t.d, t.o);
    if t.DelRemoveNewOrder? {
      NewestIsNotOld(v.w, v.district, v.order, v.pending, t.d);
      RemoveKeepsWaiting(v.w, v.newOrder, k);
      RemoveKeepsCarriers(v.order, v.newOrder, k);
      RowOk(v.w, v.district, v.order, k);
    } else {
      MarkKeeps(v, k, t.a.carrier);
    }
  }

  lemma LinesStepKeeps(db: Db, v: View, t: DeliveryTask, clock: nat)
    requires At(db, v, Delivery(t), clock)
    requires t.DelScanLines? || t.DelWriteLine?
    ensures var x := DeliveryStep(db, t, clock);
            WarehouseInv(DeliveryEffect(v, t), x.task, x.clock)
  {
    hide Money, Dated, Ids, Carriers, Lines, PendingOk, LatestOk, ViewOf, Waiting, LineDates, RowsShape, RowsExist, Scan;
    var k := OKey(v.w, t.d, t.o);
    DatedLater(v.history, clock);
    NewestIsNotOld(v.w, v.district, v.order, v.pending, t.d);
    if t.DelScanLines? {
      ShapeIsNotEmpty(Scan(db.orderLine, OLKey(t.a.w, t.d, t.o, 0), SCANNED), k, t.order.lines);
    } else {
      SeesLine(db, v.w, t);
      WriteBackKeepsDates(v.w, v.order, v.lines, v.dated, t.rows, k, t.i);
      if t.i + 1 == |t.rows| {
        WrittenKeepsDates(v.order, v.lines, DeliveryEffect(v, t).dated, t.rows, k);
      }
    }
  }

  lemma ShapeIsNotEmpty(rows: seq<Row>, k: OKey, n: nat)
    requires RowsShape(rows, k, n) && n >= 1
    ensures rows != []
  {
  }

  lemma SeesLine(db: Db, w: nat, t: DeliveryTask)
    requires w in db.warehouse && t.DelWriteLine? && t.i < |t.rows| && RowsExist(db, Delivery(t))
    ensures forall l :: l in ViewOf(db, w).lines ==> l.w == w
    ensures t.rows[t.i].0.w == w ==> t.rows[t.i].0 in ViewOf(db, w).lines
  {
    assert RowExists(db, t.a.w, t.rows[t.i].0);
  }

  lemma NewOrdersExist(order: Orders, newOrder: set<OKey>, k: OKey)
    requires Carriers(order, newOrder, None, None) && k in newOrder
    ensures k in order
  {
  }

  lemma RowOk(w: nat, district: Districts, order: Orders, k: OKey)
    requires DistrictsExist(w, district) && Ids(w, district, order, None) && k in order
    ensures OrderRowOk(order[k])
  {
  }

  lemma InHandIsUnmarked(order: Orders, newOrder: set<OKey>, k: OKey)
    requires Carriers(order, newOrder, None, Some(k)) && k in order
    ensures order[k].carrier == 0
  {
  }

  lemma MarkKeeps(v: View, k: OKey, carrier: nat)
    requires DistrictsExist(v.w, v.district) && k in v.order && carrier != 0
    requires Ids(v.w, v.district, v.order, None)
    requires Carriers(v.order, v.newOrder, None, Some(k))
    requires Lines(v.order, v.lines, None, 0)
    requires PendingOk(v.w, v.order, v.pending, None)
    requires LatestOk(v.w, v.order, v.latest, None)
    requires LineDates(v.order, v.lines, v.dated, None, 0)
    ensures var order := v.order[k := v.order[k].(carrier := carrier)];
            && Ids(v.w, v.district, order, None)
            && Carriers(order, v.newOrder, None, None)
            && Lines(order, v.lines, None, 0)
            && PendingOk(v.w, order, v.pending, None)
            && LatestOk(v.w, order, v.latest, None)
            && LineDates(order, v.lines, v.dated, Some(k), 0)
  {
    hide Ids, Carriers, Lines, PendingOk, LatestOk, Waiting, LineDates;
    MarkKeepsIds(v.w, v.district, v.order, k, carrier);
    InHandIsUnmarked(v.order, v.newOrder, k);
    MarkKeepsCarriers(v.order, v.newOrder, k, carrier);
    MarkKeepsDates(v.order, v.lines, v.dated, k, carrier);
    MarkKeepsLines(v.order, v.lines, k, carrier);
    MarkKeepsPending(v.w, v.order, v.pending, k, carrier);
    MarkKeepsLatest(v.w, v.order, v.latest, k, carrier);
  }

  lemma ClockIsSet(x: Point, w: nat)
    requires w in x.db.warehouse && At(x.db, ViewOf(x.db, w), x.task, x.clock)
    ensures x.clock != 0
  {
  }

  /** A step keeps the invariant of the warehouse it works for. */
  lemma StepKeepsWarehouse(x: Point, w: nat)
    requires w in x.db.warehouse && At(x.db, ViewOf(x.db, w), x.task, x.clock)
    ensures w in Step(x).db.warehouse
    ensures WarehouseInv(ViewOf(Step(x).db, w), Step(x).task, Step(x).clock)
  {
    ClockIsSet(x, w);
    hide WarehouseInv;
    var v := ViewOf(x.db, w);
    StepView(x, w);
    match x.task
    case NewOrder(n) => NewOrderKeeps(x.db, v, n, x.clock);
    case Payment(p) => PaymentKeeps(x.db, v, p, x.clock);
    case Delivery(e) => DeliveryKeeps(x.db, v, e, x.clock);
  }
}
