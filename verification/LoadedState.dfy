/** The tables as the loaders leave them, and why they satisfy the invariant. */
module LoadedState {
  import opened Common
  import opened Totals
  import opened Schema
  import opened Engine
  import opened WarehouseView
  import opened WarehouseInvariant
  import opened DeliveryScan
  import opened Workers

  const W_YTD: int := 30000000
  const D_YTD: int := 3000000
  const H_AMOUNT: int := 1000
  const NEXT_O_ID: nat := 3001

  ghost predicate LoadedWarehouse(warehouses: nat, m: map<nat, int>)
  {
    && (forall w :: w in m <==> IsWarehouse(warehouses, w))
    && forall w :: w in m ==> m[w] == W_YTD
  }

  ghost predicate LoadedDistrict(warehouses: nat, m: map<DKey, District>)
  {
    && (forall k :: k in m <==> IsWarehouse(warehouses, k.w) && IsDistrict(k.d))
    && forall k :: k in m ==> m[k] == District(D_YTD, NEXT_O_ID)
  }

  ghost predicate LoadedCustomer(warehouses: nat, m: map<CKey, Customer>)
  {
    && (forall k :: k in m <==> IsWarehouse(warehouses, k.w) && IsDistrict(k.d) && IsCustomer(k.c))
    && forall k :: k in m ==> m[k] == Customer(-H_AMOUNT, H_AMOUNT, 1, 0)
  }

  /** One payment per customer, in its home district, dated by the customer's number. */
  predicate LoadedHistoryKey(warehouses: nat, k: HKey)
  {
    IsWarehouse(warehouses, k.w) && IsDistrict(k.d) && IsCustomer(k.c)
    && k.cw == k.w && k.cd == k.d && k.date == k.c
  }

  ghost predicate LoadedHistory(warehouses: nat, m: map<HKey, int>)
  {
    && (forall k :: k in m <==> LoadedHistoryKey(warehouses, k))
    && forall k :: k in m ==> m[k] == H_AMOUNT
  }

  ghost predicate LoadedItem(m: map<nat, nat>)
  {
    && (forall i :: i in m <==> IsItem(i))
    && forall i :: i in m ==> 100 <= m[i] <= 10000
  }

  ghost predicate LoadedStock(warehouses: nat, m: map<SKey, Stock>)
  {
    && (forall k :: k in m <==> IsWarehouse(warehouses, k.w) && IsItem(k.i))
    && forall k :: k in m ==> 10 <= m[k].quantity <= 100 && m[k] == Stock(m[k].quantity, 0, 0, 0)
  }

  predicate LoadedOrderRow(k: OKey, row: Order)
  {
    && OrderRowOk(row) && row.allLocal && row.entry >= 1
    && if k.o <= LOADED_DELIVERED then 1 <= row.carrier <= 10 else row.carrier == 0
  }

  ghost predicate LoadedOrder(warehouses: nat, m: map<OKey, Order>)
  {
    && (forall k :: k in m <==> IsWarehouse(warehouses, k.w) && IsDistrict(k.d) && IsCustomer(k.o))
    && forall k :: k in m ==> LoadedOrderRow(k, m[k])
  }

  /** Order `o` is the one order of customer `c`. */
  ghost predicate IsOnlyOrder(m: map<OKey, Order>, w: nat, d: nat, c: nat, o: nat)
  {
    && OKey(w, d, o) in m && m[OKey(w, d, o)].c == c
    && forall o': nat :: OKey(w, d, o') in m && m[OKey(w, d, o')].c == c ==> o' == o
  }

  ghost predicate HasOneOrder(m: map<OKey, Order>, w: nat, d: nat, c: nat) { exists o: nat :: IsOnlyOrder(m, w, d, c, o) }

  /** Every customer has exactly one loaded order. */
  ghost predicate LoadedOwners(warehouses: nat, m: map<OKey, Order>)
  {
    forall w, d, c :: IsWarehouse(warehouses, w) && IsDistrict(d) && IsCustomer(c) ==> HasOneOrder(m, w, d, c)
  }

  /** Orders are entered in the order of their keys, each by the customer at its place of the shuffle. */
  ghost predicate LoadedFrom(m: map<OKey, Order>, cIds: seq<nat>)
  {
    forall k :: k in m ==>
      && 1 <= k.w && 1 <= k.d && 1 <= k.o <= |cIds| && m[k].c == cIds[k.o - 1]
      && m[k].entry == ((k.w - 1) * 10 + (k.d - 1)) * 3000 + k.o
  }

  ghost predicate LoadedNewOrder(warehouses: nat, m: set<OKey>)
  {
    forall k :: k in m <==>
      IsWarehouse(warehouses, k.w) && IsDistrict(k.d) && IsCustomer(k.o) && LOADED_DELIVERED < k.o
  }

  predicate LoadedLineRow(k: OLKey, row: OrderLine, order: Order)
  {
    && IsItem(row.item) && row.supply == k.w && row.quantity == 5
    && if k.o <= LOADED_DELIVERED then row.delivered == order.entry && row.amount == 0
       else row.delivered == 0 && 1 <= row.amount <= 999999
  }

  ghost predicate LoadedOrderLine(order: map<OKey, Order>, m: map<OLKey, OrderLine>)
  {
    && (forall k :: k in m <==> OKey(k.w, k.d, k.o) in order && 1 <= k.n <= order[OKey(k.w, k.d, k.o)].lines)
    && forall k :: k in m ==> LoadedLineRow(k, m[k], order[OKey(k.w, k.d, k.o)])
  }

  ghost predicate LoadedPending(warehouses: nat, m: map<DKey, nat>)
  {
    && (forall k :: k in m <==> IsWarehouse(warehouses, k.w) && IsDistrict(k.d))
    && forall k :: k in m ==> m[k] == LAST_LOADED
  }

  ghost predicate LoadedLatest(warehouses: nat, m: map<CKey, nat>)
  {
    && (forall k :: k in m <==> IsWarehouse(warehouses, k.w) && IsDistrict(k.d) && IsCustomer(k.c))
    && forall k :: k in m ==> m[k] == LAST_LOADED
  }

  ghost predicate Loaded(warehouses: nat, db: Db)
  {
    && LoadedWarehouse(warehouses, db.warehouse)
    && LoadedDistrict(warehouses, db.district)
    && LoadedCustomer(warehouses, db.customer)
    && LoadedHistory(warehouses, db.history)
    && LoadedItem(db.item)
    && LoadedStock(warehouses, db.stock)
    && LoadedOrder(warehouses, db.order)
    && LoadedOwners(warehouses, db.order)
    && LoadedNewOrder(warehouses, db.newOrder)
    && LoadedOrderLine(db.order, db.orderLine)
    && LoadedPending(warehouses, db.pending)
    && LoadedLatest(warehouses, db.latest)
  }

  /** All workers idle, their counters fresh. */
  ghost predicate Init(cfg: Config, s: State)
  {
    && ValidConfig(cfg) && Loaded(cfg.warehouses, s.db)
    && |s.tasks| == |s.clocks| == cfg.workers
    && forall i :: 0 <= i < cfg.workers ==> s.tasks[i] == Idle && s.clocks[i] == FIRST_TICK
  }

  /** The quantities the stock rows are loaded with. */
  ghost function FirstQuantities(db: Db): map<SKey, nat> { map k | k in db.stock :: db.stock[k].quantity }

  // ----- the loaded money adds up

  ghost function LoadedRows(w: nat, d: nat, n: nat): map<HKey, int>
  {
    map c: nat | 1 <= c <= n :: HKey(w, d, w, d, c, c) := H_AMOUNT
  }

  lemma {:induction false} LoadedRowsTotal(w: nat, d: nat, n: nat)
    ensures Total(LoadedRows(w, d, n)) == n * H_AMOUNT
  {
    if n > 0 {
      LoadedRowsTotal(w, d, n - 1);
      TotalInsert(LoadedRows(w, d, n - 1), HKey(w, d, w, d, n, n), H_AMOUNT);
      assert LoadedRows(w, d, n) == LoadedRows(w, d, n - 1)[HKey(w, d, w, d, n, n) := H_AMOUNT];
    } else {
      assert LoadedRows(w, d, n) == map[];
    }
  }

  lemma LoadedDistrictTotal(warehouses: nat, h: map<HKey, int>, w: nat, d: nat)
    requires LoadedHistory(warehouses, h) && IsWarehouse(warehouses, w) && IsDistrict(d)
    ensures Total(DistrictHistory(HomeHistory(h, w), d)) == D_YTD
  {
    assert DistrictHistory(HomeHistory(h, w), d) == LoadedRows(w, d, CUSTOMERS);
    LoadedRowsTotal(w, d, CUSTOMERS);
  }

  ghost function UpToDistrict(h: map<HKey, int>, n: nat): map<HKey, int> { map k | k in h && k.d <= n :: h[k] }

  lemma {:induction false} LoadedWarehouseTotal(warehouses: nat, h: map<HKey, int>, w: nat, n: nat)
    requires LoadedHistory(warehouses, h) && IsWarehouse(warehouses, w) && n <= DISTRICTS
    ensures Total(UpToDistrict(HomeHistory(h, w), n)) == n * D_YTD
  {
    var home := HomeHistory(h, w);
    if n > 0 {
      LoadedWarehouseTotal(warehouses, h, w, n - 1);
      LoadedDistrictTotal(warehouses, h, w, n);
      assert UpToDistrict(home, n) == UpToDistrict(home, n - 1) + DistrictHistory(home, n);
      TotalDisjoint(UpToDistrict(home, n - 1), DistrictHistory(home, n));
    } else {
      assert UpToDistrict(home, n) == map[];
    }
  }

  lemma {:induction false} LoadedDistrictsTotal(district: Districts, w: nat, n: nat)
    requires forall d :: 1 <= d <= n ==> DKey(w, d) in district && district[DKey(w, d)].ytd == D_YTD
    ensures DistrictTotal(district, w, n) == n * D_YTD
  {
    if n > 0 {
      LoadedDistrictsTotal(district, w, n - 1);
    }
  }

  lemma LoadedMoney(warehouses: nat, db: Db, w: nat)
    requires Loaded(warehouses, db) && IsWarehouse(warehouses, w)
    ensures var v := ViewOf(db, w);
            DistrictsExist(w, v.district) && Money(w, v.ytd, v.district, v.history, Owed(0, 0, 0, 0))
  {
    var v := ViewOf(db, w);
    LoadedDistrictsTotal(v.district, w, DISTRICTS);
    LoadedWarehouseTotal(warehouses, db.history, w, DISTRICTS);
    assert UpToDistrict(v.history, DISTRICTS) == v.history;
    forall d | IsDistrict(d) ensures v.district[DKey(w, d)].ytd == Total(DistrictHistory(v.history, d)) {
      LoadedDistrictTotal(warehouses, db.history, w, d);
    }
  }

  lemma LoadedIds(warehouses: nat, db: Db, w: nat)
    requires Loaded(warehouses, db) && IsWarehouse(warehouses, w)
    ensures var v := ViewOf(db, w);
            DistrictsExist(w, v.district) && Ids(w, v.district, v.order, None) && Dated(v.history, FIRST_TICK)
  {
    hide LoadedCustomer, LoadedItem, LoadedStock, LoadedNewOrder, LoadedOrderLine, LoadedPending, LoadedLatest;
  }

  lemma LoadedCarriers(warehouses: nat, db: Db, w: nat)
    requires Loaded(warehouses, db) && IsWarehouse(warehouses, w)
    ensures var v := ViewOf(db, w); Carriers(v.order, v.newOrder, None, None)
  {
    hide LoadedDistrict, LoadedCustomer, LoadedItem, LoadedStock, LoadedOrderLine, LoadedPending, LoadedLatest;
  }

  lemma LoadedLines(warehouses: nat, db: Db, w: nat)
    requires Loaded(warehouses, db) && IsWarehouse(warehouses, w)
    ensures var v := ViewOf(db, w); Lines(v.order, v.lines, None, 0)
  {
    hide LoadedDistrict, LoadedCustomer, LoadedItem, LoadedStock, LoadedNewOrder, LoadedPending, LoadedLatest;
  }

  lemma LoadedCaches(warehouses: nat, db: Db, w: nat)
    requires Loaded(warehouses, db) && IsWarehouse(warehouses, w)
    ensures var v := ViewOf(db, w);
            PendingOk(w, v.order, v.pending, None) && LatestOk(w, v.order, v.latest, None)
  {
    hide LoadedDistrict, LoadedCustomer, LoadedItem, LoadedStock, LoadedNewOrder, LoadedOrderLine;
  }

  lemma LoadedWaiting(warehouses: nat, db: Db, w: nat)
    requires Loaded(warehouses, db) && IsWarehouse(warehouses, w)
    ensures Waiting(w, ViewOf(db, w).newOrder)
  {
    hide LoadedDistrict, LoadedCustomer, LoadedItem, LoadedStock, LoadedOrder, LoadedOrderLine, LoadedPending, LoadedLatest;
  }

  lemma LoadedDates(warehouses: nat, db: Db, w: nat)
    requires Loaded(warehouses, db) && IsWarehouse(warehouses, w)
    ensures var v := ViewOf(db, w); LineDates(v.order, v.lines, v.dated, None, 0)
  {
    hide LoadedDistrict, LoadedCustomer, LoadedItem, LoadedStock, LoadedNewOrder, LoadedPending, LoadedLatest;
  }

  lemma OwnerInvFrom(db: Db, w: nat)
    requires w in db.warehouse
    requires var v := ViewOf(db, w);
             && DistrictsExist(w, v.district)
             && Money(w, v.ytd, v.district, v.history, Owed(0, 0, 0, 0))
             && Dated(v.history, FIRST_TICK)
             && Ids(w, v.district, v.order, None)
             && Carriers(v.order, v.newOrder, None, None)
             && Lines(v.order, v.lines, None, 0)
             && PendingOk(w, v.order, v.pending, None)
             && LatestOk(w, v.order, v.latest, None)
             && Waiting(w, v.newOrder)
             && LineDates(v.order, v.lines, v.dated, None, 0)
    ensures OwnerInv(db, Idle, FIRST_TICK, w)
  {
    hide Money, Dated, Ids, Carriers, Lines, PendingOk, LatestOk, DistrictsExist, HomeDistricts, Waiting, LineDates;
  }

  lemma LoadedOwner(warehouses: nat, db: Db, w: nat)
    requires Loaded(warehouses, db) && IsWarehouse(warehouses, w)
    ensures OwnerInv(db, Idle, FIRST_TICK, w)
  {
    hide Money, Dated, Ids, Carriers, Lines, PendingOk, LatestOk, OwnerInv, Waiting, LineDates;
    LoadedMoney(warehouses, db, w);
    LoadedIds(warehouses, db, w);
    LoadedCarriers(warehouses, db, w);
    LoadedLines(warehouses, db, w);
    LoadedCaches(warehouses, db, w);
    LoadedWaiting(warehouses, db, w);
    LoadedDates(warehouses, db, w);
    OwnerInvFrom(db, w);
  }

  lemma LoadedLineTable(warehouses: nat, db: Db)
    requires LoadedOrder(warehouses, db.order) && LoadedOrderLine(db.order, db.orderLine)
    ensures LineTable(warehouses, db.orderLine)
  {
    forall w, d, n: nat | IsWarehouse(warehouses, w) && IsDistrict(d) && 1 <= n <= LEAST_LINES
      ensures OLKey(w, d, 1, n) in db.orderLine
    {
      assert OKey(w, d, 1) in db.order && LoadedOrderRow(OKey(w, d, 1), db.order[OKey(w, d, 1)]);
    }
  }

  /** The loaded state satisfies the invariant. */
  lemma InitIsInv(cfg: Config, s: State)
    requires Init(cfg, s)
    ensures Inv(cfg, FirstQuantities(s.db), s)
  {
    LoadedLineTable(cfg.warehouses, s.db);
    hide LineTable, RangeOf, OwnerInv, LoadedOrder, LoadedNewOrder, LoadedOrderLine,
         LoadedPending, LoadedLatest, LoadedHistory;
    forall i: nat, w: nat | OwnedBy(cfg, i, w) ensures OwnerInv(s.db, s.tasks[i], s.clocks[i], w) {
      OwnerIsUnique(cfg, i, i, w);
      LoadedOwner(cfg.warehouses, s.db, w);
    }
  }
}
