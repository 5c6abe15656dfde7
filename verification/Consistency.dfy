/**
 The TPC-C consistency conditions (section 3.3.2 of the TPC-C specification) in every
 state of every interleaved run of the workers, in the form this code keeps them, and
 exactly when the standard's own form holds.
 */
module Consistency {
  import opened Common
  import opened Totals
  import opened Schema
  import opened OrderedScan
  import opened Engine
  import opened WarehouseView
  import opened WarehouseInvariant
  import opened WarehouseSteps
  import opened Workers
  import opened WorkerSteps
  import opened DeliveryScan
  import opened LoadedState

  // ----- what may be in the middle of a transaction

  /** No payment to warehouse `w` is under way; other transactions may be. */
  ghost predicate NoPaymentAt(s: State, w: nat) { forall t :: t in s.tasks && t.Payment? ==> t.p.a.w != w }

  /** The order whose rows a task is entering or delivering. */
  function OrderInWork(t: Task): Option<OKey>
  {
    if Taken(t).Some? then Taken(t)
    else if Filling(t).Some? then Filling(t)
    else if InHand(t).Some? then InHand(t)
    else Dating(t)
  }

  /** Nobody is entering or delivering order `k`; anything else may be under way. */
  ghost predicate AtRest(s: State, k: OKey) { forall t :: t in s.tasks ==> OrderInWork(t) != Some(k) }

  ghost predicate DistrictAtRest(s: State, w: nat, d: nat)
  {
    forall t :: t in s.tasks && OrderInWork(t).Some? ==> OrderInWork(t).value.w != w || OrderInWork(t).value.d != d
  }

  lemma RestInDistrict(s: State, k: OKey)
    requires DistrictAtRest(s, k.w, k.d)
    ensures AtRest(s, k)
  {
  }

  /** What the owner of `w` is doing for it, and the invariant at that point. */
  lemma OwnerView(cfg: Config, s0: State, moves: seq<Move>, w: nat) returns (t: Task, clock: nat)
    requires Init(cfg, s0) && IsRun(cfg, s0, moves) && IsWarehouse(cfg.warehouses, w)
    ensures var s := Run(cfg, s0, moves);
            w in s.db.warehouse && WarehouseInv(ViewOf(s.db, w), t, clock) && (t == Idle || t in s.tasks)
    ensures t == Idle || WarehouseOf(t) == w
  {
    hide OwnerInv, WarehouseInv, RangeOf, Loaded;
    var s := Run(cfg, s0, moves);
    InitIsInv(cfg, s0);
    RunKeepsInv(cfg, FirstQuantities(s0.db), s0, moves);
    var i := OwnerExists(cfg, w);
    Owned(cfg, FirstQuantities(s0.db), s, i, w);
    t, clock := ActiveAt(s.tasks[i], w), s.clocks[i];
    OwnerAt(s.db, s.tasks[i], s.clocks[i], w);
  }

  lemma OwnerAt(db: Db, t: Task, clock: nat, w: nat)
    requires OwnerInv(db, t, clock, w)
    ensures w in db.warehouse && WarehouseInv(ViewOf(db, w), ActiveAt(t, w), clock)
  {
    hide WarehouseInv, ViewOf;
  }

  // ----- money

  /** Condition 1: W_YTD is the sum of the D_YTD of its districts. */
  lemma WarehouseYtdIsDistrictSum(cfg: Config, s0: State, moves: seq<Move>, w: nat)
    requires Init(cfg, s0) && IsRun(cfg, s0, moves)
    requires IsWarehouse(cfg.warehouses, w) && NoPaymentAt(Run(cfg, s0, moves), w)
    ensures var db := Run(cfg, s0, moves).db;
            && w in db.warehouse && DistrictsExist(w, db.district)
            && db.warehouse[w] == DistrictTotal(db.district, w, DISTRICTS)
  {
    hide Dated, Ids, Carriers, Lines, PendingOk, LatestOk, Waiting, LineDates, IsRun, Run, Loaded;
    var db := Run(cfg, s0, moves).db;
    var t, clock := OwnerView(cfg, s0, moves, w);
    HomeTotal(db.district, w, DISTRICTS);
  }

  lemma {:induction false} HomeTotal(district: Districts, w: nat, n: nat)
    requires forall d :: 1 <= d <= n ==> DKey(w, d) in HomeDistricts(district, w)
    ensures DistrictTotal(HomeDistricts(district, w), w, n) == DistrictTotal(district, w, n)
  {
    if n > 0 {
      HomeTotal(district, w, n - 1);
    }
  }

  /** Condition 8 and 9: W_YTD and every D_YTD are the sums of their H_AMOUNT. */
  lemma YtdIsHistorySum(cfg: Config, s0: State, moves: seq<Move>, w: nat)
    requires Init(cfg, s0) && IsRun(cfg, s0, moves)
    requires IsWarehouse(cfg.warehouses, w) && NoPaymentAt(Run(cfg, s0, moves), w)
    ensures var db := Run(cfg, s0, moves).db;
            && w in db.warehouse && DistrictsExist(w, db.district)
            && db.warehouse[w] == Total(HomeHistory(db.history, w))
            && forall d :: IsDistrict(d) ==>
                 db.district[DKey(w, d)].ytd == Total(DistrictHistory(HomeHistory(db.history, w), d))
  {
    hide Dated, Ids, Carriers, Lines, PendingOk, LatestOk, Waiting, LineDates, IsRun, Run, Loaded, DistrictTotal, Total;
    var t, clock := OwnerView(cfg, s0, moves, w);
    HomeMoney(Run(cfg, s0, moves).db, w);
  }

  lemma HomeMoney(db: Db, w: nat)
    requires w in db.warehouse
    requires DistrictsExist(w, ViewOf(db, w).district)
    requires Money(w, db.warehouse[w], ViewOf(db, w).district, HomeHistory(db.history, w), Owed(0, 0, 0, 0))
    ensures DistrictsExist(w, db.district) && db.warehouse[w] == Total(HomeHistory(db.history, w))
    ensures forall d :: IsDistrict(d) ==>
              db.district[DKey(w, d)].ytd == Total(DistrictHistory(HomeHistory(db.history, w), d))
  {
    hide DistrictTotal, Total, HomeHistory, DistrictHistory;
    assert forall d :: IsDistrict(d) ==> DKey(w, d) in HomeDistricts(db.district, w);
  }

  // ----- order lines

  /** The line keys of one order. */
  ghost function LineKeys(db: Db, k: OKey): set<OLKey>
  {
    set l | l in db.orderLine.Keys && OKey(l.w, l.d, l.o) == k
  }

  /** Condition 6: the lines of an order are numbered 1 to O_OL_CNT, so there are O_OL_CNT of them. */
  lemma LinesMatchCount(cfg: Config, s0: State, moves: seq<Move>, k: OKey)
    requires Init(cfg, s0) && IsRun(cfg, s0, moves) && IsWarehouse(cfg.warehouses, k.w)
    requires k in Run(cfg, s0, moves).db.order && AtRest(Run(cfg, s0, moves), k)
    ensures var db := Run(cfg, s0, moves).db;
            && LineKeys(db, k) == (set n: nat | 1 <= n <= db.order[k].lines :: OLKey(k.w, k.d, k.o, n))
            && |LineKeys(db, k)| == db.order[k].lines
            && 5 <= db.order[k].lines <= 15
  {
    hide Money, Dated, Carriers, PendingOk, LatestOk, Waiting, LineDates, IsRun, Run, Loaded, Lines;
    var s := Run(cfg, s0, moves);
    var t, clock := OwnerView(cfg, s0, moves, k.w);
    assert Filling(t) != Some(k);
    HomeLinesOf(s.db, k, Taken(t), Filling(t), Entered(t));
  }

  lemma HomeLinesOf(db: Db, k: OKey, taken: Option<OKey>, filling: Option<OKey>, entered: nat)
    requires k.w in db.warehouse && k in db.order && filling != Some(k)
    requires DistrictsExist(k.w, ViewOf(db, k.w).district)
    requires Ids(k.w, ViewOf(db, k.w).district, ViewOf(db, k.w).order, taken)
    requires Lines(ViewOf(db, k.w).order, ViewOf(db, k.w).lines, filling, entered)
    ensures LineKeys(db, k) == (set n: nat | 1 <= n <= db.order[k].lines :: OLKey(k.w, k.d, k.o, n))
    ensures |LineKeys(db, k)| == db.order[k].lines && 5 <= db.order[k].lines <= 15
  {
    var v := ViewOf(db, k.w);
    assert k in v.order && LineCount(v.order, k, filling, entered) == db.order[k].lines;
    var keys := set n: nat | 1 <= n <= db.order[k].lines :: OLKey(k.w, k.d, k.o, n);
    forall l | l in LineKeys(db, k) ensures l in keys {
      assert l in v.lines;
    }
    forall n: nat | 1 <= n <= db.order[k].lines ensures OLKey(k.w, k.d, k.o, n) in LineKeys(db, k) {
      assert OLKey(k.w, k.d, k.o, n) in v.lines;
    }
    assert LineKeys(db, k) == keys;
    NumberedKeys(k, db.order[k].lines);
  }

  lemma {:induction false} NumberedKeys(k: OKey, n: nat)
    ensures |set i: nat | 1 <= i <= n :: OLKey(k.w, k.d, k.o, i)| == n
  {
    if n > 0 {
      NumberedKeys(k, n - 1);
      assert (set i: nat | 1 <= i <= n :: OLKey(k.w, k.d, k.o, i))
          == (set i: nat | 1 <= i <= n - 1 :: OLKey(k.w, k.d, k.o, i)) + {OLKey(k.w, k.d, k.o, n)};
    }
  }

  /** No line belongs to a missing order. */
  lemma LinesHaveOrders(cfg: Config, s0: State, moves: seq<Move>, l: OLKey)
    requires Init(cfg, s0) && IsRun(cfg, s0, moves)
    requires l in Run(cfg, s0, moves).db.orderLine
    ensures IsWarehouse(cfg.warehouses, l.w) && OKey(l.w, l.d, l.o) in Run(cfg, s0, moves).db.order
  {
    hide Money, Dated, Ids, Carriers, PendingOk, LatestOk, Waiting, LineDates, IsRun, Run, Loaded, OwnerInv, TaskOk,
         RowsPresent, StockInv;
    var db := Run(cfg, s0, moves).db;
    RunInv(cfg, s0, moves);
    var t, clock := OwnerView(cfg, s0, moves, l.w);
    assert l in ViewOf(db, l.w).lines;
  }

  /** O_OL_CNT of the orders of a district. */
  ghost function LineCounts(order: Orders, w: nat, d: nat): map<OKey, int>
  {
    map k | k in order && k.w == w && k.d == d :: order[k].lines
  }

  ghost function DistrictLines(db: Db, w: nat, d: nat): set<OLKey>
  {
    set l | l in db.orderLine.Keys && l.w == w && l.d == d
  }

  /** `lines` are exactly the lines 1 up to the count of every order in `counts`. */
  ghost predicate Numbered(counts: map<OKey, int>, lines: set<OLKey>)
  {
    && (forall l :: l in lines ==> OKey(l.w, l.d, l.o) in counts && 1 <= l.n <= counts[OKey(l.w, l.d, l.o)])
    && (forall k, n: nat | k in counts :: 1 <= n <= counts[k] ==> OLKey(k.w, k.d, k.o, n) in lines)
    && (forall k :: k in counts ==> counts[k] >= 0)
  }

  lemma NumberedRest(counts: map<OKey, int>, lines: set<OLKey>, k: OKey)
    requires Numbered(counts, lines) && k in counts
    ensures var own := set i: nat | 1 <= i <= counts[k] :: OLKey(k.w, k.d, k.o, i);
            own <= lines && Numbered(counts - {k}, lines - own)
  {
  }

  lemma {:induction false} CountIsTotal(counts: map<OKey, int>, lines: set<OLKey>)
    requires Numbered(counts, lines)
    ensures Total(counts) == |lines|
    decreases |counts|
  {
    if counts == map[] {
      assert lines == {};
    } else {
      hide Numbered, Total;
      var k :| k in counts;
      CountsArePositive(counts, lines, k);
      var own := set i: nat | 1 <= i <= counts[k] :: OLKey(k.w, k.d, k.o, i);
      NumberedRest(counts, lines, k);
      CountIsTotal(counts - {k}, lines - own);
      TotalRemove(counts, k);
      NumberedKeys(k, counts[k]);
    }
  }

  lemma CountsArePositive(counts: map<OKey, int>, lines: set<OLKey>, k: OKey)
    requires Numbered(counts, lines) && k in counts
    ensures counts[k] >= 0
  {
  }

  /** Condition 4: the O_OL_CNT of a district add up to the number of its order lines. */
  lemma LineCountsAddUp(cfg: Config, s0: State, moves: seq<Move>, w: nat, d: nat)
    requires Init(cfg, s0) && IsRun(cfg, s0, moves) && IsWarehouse(cfg.warehouses, w)
    requires DistrictAtRest(Run(cfg, s0, moves), w, d)
    ensures var db := Run(cfg, s0, moves).db; Total(LineCounts(db.order, w, d)) == |DistrictLines(db, w, d)|
  {
    hide Money, Dated, Ids, Carriers, PendingOk, LatestOk, Waiting, LineDates, IsRun, Run, Loaded, Total, Lines, Numbered;
    var s := Run(cfg, s0, moves);
    var t, clock := OwnerView(cfg, s0, moves, w);
    assert Filling(t).Some? ==> Filling(t).value.w != w || Filling(t).value.d != d;
    HomeLinesAreNumbered(s.db, w, d, Filling(t), Entered(t));
    CountIsTotal(LineCounts(s.db.order, w, d), DistrictLines(s.db, w, d));
  }

  lemma HomeLinesAreNumbered(db: Db, w: nat, d: nat, filling: Option<OKey>, entered: nat)
    requires w in db.warehouse && (filling.Some? ==> filling.value.w != w || filling.value.d != d)
    requires Lines(ViewOf(db, w).order, ViewOf(db, w).lines, filling, entered)
    ensures Numbered(LineCounts(db.order, w, d), DistrictLines(db, w, d))
  {
    var v := ViewOf(db, w);
    var counts := LineCounts(db.order, w, d);
    forall k | k in counts ensures k in v.order && LineCount(v.order, k, filling, entered) == counts[k] {
    }
    forall l | l in DistrictLines(db, w, d)
      ensures OKey(l.w, l.d, l.o) in counts && 1 <= l.n <= counts[OKey(l.w, l.d, l.o)]
    {
      assert l in v.lines;
    }
    forall k, n: nat | k in counts && 1 <= n <= counts[k] ensures OLKey(k.w, k.d, k.o, n) in DistrictLines(db, w, d) {
      assert OLKey(k.w, k.d, k.o, n) in v.lines;
    }
  }

  // ----- carriers and delivery dates

  /** Condition 5: O_CARRIER_ID is 0 exactly for the orders with a new_order row. */
  lemma CarrierMarksNewOrders(cfg: Config, s0: State, moves: seq<Move>, k: OKey)
    requires Init(cfg, s0) && IsRun(cfg, s0, moves) && IsWarehouse(cfg.warehouses, k.w)
    requires AtRest(Run(cfg, s0, moves), k)
    ensures var db := Run(cfg, s0, moves).db;
            && (k in db.newOrder ==> k in db.order && k.o > LOADED_DELIVERED)
            && (k in db.order ==> (db.order[k].carrier == 0 <==> k in db.newOrder))
  {
    hide Money, Dated, Ids, Lines, PendingOk, LatestOk, LineDates, IsRun, Run, Loaded;
    var db := Run(cfg, s0, moves).db;
    var t, clock := OwnerView(cfg, s0, moves, k.w);
    assert Announced(t) != Some(k) && InHand(t) != Some(k);
    var v := ViewOf(db, k.w);
    assert (k in v.order <==> k in db.order) && (k in v.newOrder <==> k in db.newOrder);
  }

  /**
   What the code keeps of condition 7: a line carries no delivery date exactly if its order
   is not delivered, or if it is past the tenth line of an order delivered at run time.
   */
  lemma LineIsDated(cfg: Config, s0: State, moves: seq<Move>, l: OLKey)
    requires Init(cfg, s0) && IsRun(cfg, s0, moves)
    requires l in Run(cfg, s0, moves).db.orderLine && AtRest(Run(cfg, s0, moves), OKey(l.w, l.d, l.o))
    ensures var db := Run(cfg, s0, moves).db;
            var k := OKey(l.w, l.d, l.o);
            && k in db.order
            && (db.orderLine[l].delivered == 0
                <==> db.order[k].carrier == 0 || (k.o > LOADED_DELIVERED && l.n > SCANNED))
  {
    hide Money, Dated, Ids, Carriers, Lines, PendingOk, LatestOk, Waiting, IsRun, Run, Loaded;
    var db := Run(cfg, s0, moves).db;
    var k := OKey(l.w, l.d, l.o);
    LinesHaveOrders(cfg, s0, moves, l);
    CarrierMarksNewOrders(cfg, s0, moves, k);
    var t, clock := OwnerView(cfg, s0, moves, l.w);
    assert Dating(t) != Some(k);
    var v := ViewOf(db, l.w);
    assert l in v.lines && k in v.order && v.order[k] == db.order[k];
  }

  /** Condition 7 for one order: OL_DELIVERY_D is set on its lines exactly if O_CARRIER_ID is. */
  ghost predicate DatesMatchCarrier(db: Db, k: OKey)
    requires k in db.order
  {
    forall l :: l in LineKeys(db, k) && l in db.orderLine ==>
      (db.orderLine[l].delivered == 0 <==> db.order[k].carrier == 0)
  }

  /** It holds if and only if the order is not a run-time delivery of more than ten lines. */
  lemma DatesMatchExactly(cfg: Config, s0: State, moves: seq<Move>, k: OKey)
    requires Init(cfg, s0) && IsRun(cfg, s0, moves) && IsWarehouse(cfg.warehouses, k.w)
    requires k in Run(cfg, s0, moves).db.order && AtRest(Run(cfg, s0, moves), k)
    ensures var db := Run(cfg, s0, moves).db;
            DatesMatchCarrier(db, k)
            <==> !(db.order[k].carrier != 0 && k.o > LOADED_DELIVERED && db.order[k].lines > SCANNED)
  {
    hide IsRun, Run, Loaded, AtRest;
    var db := Run(cfg, s0, moves).db;
    LinesMatchCount(cfg, s0, moves, k);
    forall l | l in LineKeys(db, k)
      ensures l in db.orderLine
      ensures db.orderLine[l].delivered == 0
         <==> db.order[k].carrier == 0 || (k.o > LOADED_DELIVERED && l.n > SCANNED)
    {
      LineIsDated(cfg, s0, moves, l);
    }
    if db.order[k].lines > SCANNED {
      assert OLKey(k.w, k.d, k.o, SCANNED + 1) in LineKeys(db, k);
    }
  }

  // ----- order ids

  /**
   The order ids of a district are 1 to D_NEXT_O_ID without 3001, and the cache for delivery
   holds the largest.
   */
  lemma OrderIds(cfg: Config, s0: State, moves: seq<Move>, w: nat, d: nat)
    requires Init(cfg, s0) && IsRun(cfg, s0, moves)
    requires IsWarehouse(cfg.warehouses, w) && IsDistrict(d) && DistrictAtRest(Run(cfg, s0, moves), w, d)
    ensures var db := Run(cfg, s0, moves).db;
            && DKey(w, d) in db.district && DKey(w, d) in db.pending
            && var next := db.district[DKey(w, d)].next;
               && next >= SKIPPED_ID
               && (forall o: nat :: OKey(w, d, o) in db.order <==> 1 <= o <= next && o != SKIPPED_ID)
               && db.pending[DKey(w, d)] == if next == SKIPPED_ID then LAST_LOADED else next
  {
    hide Money, Dated, Carriers, Lines, LatestOk, Waiting, LineDates, IsRun, Run, Loaded;
    var s := Run(cfg, s0, moves);
    var t, clock := OwnerView(cfg, s0, moves, w);
    assert Taken(t).Some? ==> Taken(t).value.w != w || Taken(t).value.d != d;
    HomeIds(s.db, w, d, Taken(t), Cached(t));
  }

  lemma HomeIds(db: Db, w: nat, d: nat, taken: Option<OKey>, cached: Option<OKey>)
    requires w in db.warehouse && IsDistrict(d)
    requires taken.Some? ==> taken.value.w != w || taken.value.d != d
    requires cached.Some? ==> cached == taken && cached.value.w == w
    requires var v := ViewOf(db, w);
             && DistrictsExist(w, v.district) && Ids(w, v.district, v.order, taken)
             && PendingOk(w, v.order, v.pending, cached)
    ensures DKey(w, d) in db.district && DKey(w, d) in db.pending
    ensures var next := db.district[DKey(w, d)].next;
            && next >= SKIPPED_ID
            && (forall o: nat :: OKey(w, d, o) in db.order <==> 1 <= o <= next && o != SKIPPED_ID)
            && db.pending[DKey(w, d)] == if next == SKIPPED_ID then LAST_LOADED else next
  {
    var v := ViewOf(db, w);
    var dk := DKey(w, d);
    assert dk in v.district && v.district[dk] == db.district[dk] && dk in v.pending && v.pending[dk] == db.pending[dk];
    assert forall o: nat :: OKey(w, d, o) in v.order <==> OKey(w, d, o) in db.order;
    var top := if db.district[dk].next == SKIPPED_ID then LAST_LOADED else db.district[dk].next;
    assert IsNewest(w, v.order, d, v.pending[dk]);
    assert OKey(w, d, top) in v.order;
    assert OKey(w, d, v.pending[dk]) in v.order;
  }

  /** `o` is the largest id of a district among `keys`. */
  ghost predicate IsLargest(keys: set<OKey>, w: nat, d: nat, o: nat)
  {
    OKey(w, d, o) in keys && forall k :: k in keys && k.w == w && k.d == d ==> k.o <= o
  }

  ghost predicate IsSmallest(keys: set<OKey>, w: nat, d: nat, o: nat)
  {
    OKey(w, d, o) in keys && forall k :: k in keys && k.w == w && k.d == d ==> o <= k.o
  }

  /**
   Condition 2: D_NEXT_O_ID - 1 is the largest O_ID as long as no order has been entered,
   and never after; it is also the largest NO_O_ID if order 3000 still waits.
   */
  lemma NextIdExactly(cfg: Config, s0: State, moves: seq<Move>, w: nat, d: nat)
    requires Init(cfg, s0) && IsRun(cfg, s0, moves)
    requires IsWarehouse(cfg.warehouses, w) && IsDistrict(d) && DistrictAtRest(Run(cfg, s0, moves), w, d)
    ensures var db := Run(cfg, s0, moves).db;
            && DKey(w, d) in db.district && db.district[DKey(w, d)].next >= 1
            && var next := db.district[DKey(w, d)].next;
               && (IsLargest(db.order.Keys, w, d, next - 1) <==> next == SKIPPED_ID)
               && (IsLargest(db.order.Keys, w, d, next - 1) && IsLargest(db.newOrder, w, d, next - 1)
                   <==> next == SKIPPED_ID && OKey(w, d, LAST_LOADED) in db.newOrder)
  {
    hide IsRun, Run, Loaded;
    var db := Run(cfg, s0, moves).db;
    OrderIds(cfg, s0, moves, w, d);
    var next := db.district[DKey(w, d)].next;
    WaitingIds(cfg, s0, moves, w, d);
    assert next > SKIPPED_ID ==> OKey(w, d, next) in db.order.Keys;
    assert next == SKIPPED_ID ==> OKey(w, d, next - 1) in db.order.Keys;
  }

  ghost function OrdersIn(keys: set<OKey>, w: nat, d: nat): set<OKey> { set k | k in keys && k.w == w && k.d == d }

  /** The waiting ids of a district: 2101 to 2999, and some of the later orders. */
  lemma WaitingIds(cfg: Config, s0: State, moves: seq<Move>, w: nat, d: nat)
    requires Init(cfg, s0) && IsRun(cfg, s0, moves)
    requires IsWarehouse(cfg.warehouses, w) && IsDistrict(d) && DistrictAtRest(Run(cfg, s0, moves), w, d)
    ensures var db := Run(cfg, s0, moves).db;
            && (forall o: nat :: LOADED_DELIVERED < o < LAST_LOADED ==> OKey(w, d, o) in db.newOrder)
            && (forall k :: k in OrdersIn(db.newOrder, w, d) ==>
                 k.o > LOADED_DELIVERED && k.o != SKIPPED_ID && k in db.order)
  {
    hide Money, Dated, Ids, Carriers, Lines, PendingOk, LatestOk, LineDates, IsRun, Run, Loaded, DistrictAtRest;
    var s := Run(cfg, s0, moves);
    var t, clock := OwnerView(cfg, s0, moves, w);
    OrderIds(cfg, s0, moves, w, d);
    forall o: nat | LOADED_DELIVERED < o < LAST_LOADED ensures OKey(w, d, o) in s.db.newOrder {
      assert OKey(w, d, o) in ViewOf(s.db, w).newOrder;
    }
    forall k | k in OrdersIn(s.db.newOrder, w, d)
      ensures k.o > LOADED_DELIVERED && k.o != SKIPPED_ID && k in s.db.order
    {
      RestInDistrict(s, k);
      CarrierMarksNewOrders(cfg, s0, moves, k);
      assert k == OKey(w, d, k.o);
    }
  }

  lemma {:induction false} NumberedOrders(w: nat, d: nat, from: nat, n: nat)
    ensures |set o: nat | from <= o < from + n :: OKey(w, d, o)| == n
  {
    if n > 0 {
      NumberedOrders(w, d, from, n - 1);
      assert (set o: nat | from <= o < from + n :: OKey(w, d, o))
          == (set o: nat | from <= o < from + n - 1 :: OKey(w, d, o)) + {OKey(w, d, from + n - 1)};
    } else {
      assert (set o: nat | from <= o < from + n :: OKey(w, d, o)) == {};
    }
  }

  lemma Subsets(a: set<OKey>, b: set<OKey>)
    requires a <= b
    ensures |a| <= |b| && (|a| == |b| ==> a == b)
  {
    assert b == a + (b - a);
  }

  /** `keys` has no gap exactly if it has as many ids as its smallest and largest allow. */
  lemma NoGapIsCount(keys: set<OKey>, w: nat, d: nat, lo: nat, hi: nat)
    requires IsSmallest(keys, w, d, lo) && IsLargest(keys, w, d, hi)
    ensures |OrdersIn(keys, w, d)| == hi - lo + 1 <==> forall o: nat :: lo <= o <= hi ==> OKey(w, d, o) in keys
  {
    assert lo <= OKey(w, d, hi).o;
    var all := set o: nat | lo <= o < lo + (hi - lo + 1) :: OKey(w, d, o);
    NumberedOrders(w, d, lo, hi - lo + 1);
    forall k | k in OrdersIn(keys, w, d) ensures k in all {
      assert k == OKey(w, d, k.o);
    }
    Subsets(OrdersIn(keys, w, d), all);
    if forall o: nat :: lo <= o <= hi ==> OKey(w, d, o) in keys {
      assert OrdersIn(keys, w, d) == all;
    } else {
      var o: nat :| lo <= o <= hi && OKey(w, d, o) !in keys;
      assert OKey(w, d, o) in all;
    }
  }

  /** Condition 3: NO_O_ID has no gap if and only if no order entered at run time waits. */
  lemma WaitingHasNoGapExactly(cfg: Config, s0: State, moves: seq<Move>, w: nat, d: nat, lo: nat, hi: nat)
    requires Init(cfg, s0) && IsRun(cfg, s0, moves)
    requires IsWarehouse(cfg.warehouses, w) && IsDistrict(d) && DistrictAtRest(Run(cfg, s0, moves), w, d)
    requires IsSmallest(Run(cfg, s0, moves).db.newOrder, w, d, lo) && IsLargest(Run(cfg, s0, moves).db.newOrder, w, d, hi)
    ensures lo == LOADED_DELIVERED + 1
    ensures |OrdersIn(Run(cfg, s0, moves).db.newOrder, w, d)| == hi - lo + 1 <==> hi <= LAST_LOADED
  {
    hide IsRun, Run, Loaded, DistrictAtRest;
    var db := Run(cfg, s0, moves).db;
    WaitingIds(cfg, s0, moves, w, d);
    NoGapIsCount(db.newOrder, w, d, lo, hi);
    assert OKey(w, d, LOADED_DELIVERED + 1) in db.newOrder && OKey(w, d, LAST_LOADED - 1) in db.newOrder;
    assert OKey(w, d, lo) in OrdersIn(db.newOrder, w, d) && OKey(w, d, hi) in OrdersIn(db.newOrder, w, d);
    assert OKey(w, d, SKIPPED_ID) !in OrdersIn(db.newOrder, w, d);
  }

  // ----- the cache of order-status

  /** No task is about to insert the order that the customer's cache names already. */
  ghost predicate CacheAtRest(s: State, ck: CKey)
  {
    forall t :: t in s.tasks && CachedFor(t).Some? ==> CachedFor(t).value.0 != ck
  }

  /**
   What order-status reads from its cache: the customer's newest order, if the customer
   has ordered since loading; otherwise 3000, which is an order, but not always theirs.
   */
  lemma LatestOrder(cfg: Config, s0: State, moves: seq<Move>, ck: CKey)
    requires Init(cfg, s0) && IsRun(cfg, s0, moves) && IsWarehouse(cfg.warehouses, ck.w)
    requires CacheAtRest(Run(cfg, s0, moves), ck) && IsDistrict(ck.d) && IsCustomer(ck.c)
    ensures var db := Run(cfg, s0, moves).db;
            && ck in db.latest
            && OKey(ck.w, ck.d, db.latest[ck]) in db.order
            && (LargestOrderOf(db, ck, db.latest[ck])
                <==> db.order[OKey(ck.w, ck.d, db.latest[ck])].c == ck.c)
            && (db.latest[ck] > LAST_LOADED <==>
                exists k :: OrderOf(db, ck, k) && LAST_LOADED < k.o)
            && (db.latest[ck] > LAST_LOADED ==> LargestOrderOf(db, ck, db.latest[ck]))
  {
    hide Money, Dated, Ids, Carriers, Lines, PendingOk, Waiting, LineDates, IsRun, Run, Loaded;
    var db := Run(cfg, s0, moves).db;
    var t, clock := OwnerView(cfg, s0, moves, ck.w);
    var v := ViewOf(db, ck.w);
    assert ck == CKey(v.w, ck.d, ck.c) && ck in v.latest;
    var o := v.latest[ck];
    assert IsLatest(ck.w, v.order, ck.d, ck.c, o);
    assert forall k :: k in db.order && k.w == ck.w ==> k in v.order && v.order[k] == db.order[k];
    if o > LAST_LOADED {
      assert OrderOf(db, ck, OKey(ck.w, ck.d, o));
    }
  }

  ghost predicate OrderOf(db: Db, ck: CKey, k: OKey)
  {
    k in db.order && k.w == ck.w && k.d == ck.d && db.order[k].c == ck.c
  }

  /** What the index scan of order-status would return. */
  ghost predicate LargestOrderOf(db: Db, ck: CKey, o: nat)
  {
    OrderOf(db, ck, OKey(ck.w, ck.d, o)) && forall k :: OrderOf(db, ck, k) ==> k.o <= o
  }

  // ----- all workers

  lemma RunInv(cfg: Config, s0: State, moves: seq<Move>)
    requires Init(cfg, s0) && IsRun(cfg, s0, moves)
    ensures Inv(cfg, FirstQuantities(s0.db), Run(cfg, s0, moves))
  {
    InitIsInv(cfg, s0);
    RunKeepsInv(cfg, FirstQuantities(s0.db), s0, moves);
  }

  /** Every stock row, after whatever updates and lost updates. */
  lemma StockRows(cfg: Config, s0: State, moves: seq<Move>, k: SKey)
    requires Init(cfg, s0) && IsRun(cfg, s0, moves)
    requires 1 <= k.w <= cfg.warehouses && IsItem(k.i)
    ensures k in s0.db.stock && k in Run(cfg, s0, moves).db.stock
    ensures StockOk(s0.db.stock[k].quantity, Run(cfg, s0, moves).db.stock[k])
  {
    hide OwnerInv, IsRun, Run, StockOk, TaskOk;
    RunInv(cfg, s0, moves);
  }

  /**
   At any moment of any run: the row a worker reads next is there, so no transaction
   aborts or gives up, and every row it is about to insert has a key not yet in the table.
   */
  ghost predicate Proceeds(db: Db, t: Task)
  {
    match t
    case Idle => true
    case NewOrder(n) => NewOrderReady(db, n) && NewOrderIsFresh(db, n)
    case Payment(p) => PaymentHit(db, p) && (p.PayInsertHistory? ==> HistoryKey(p.a) !in db.history)
    case Delivery(v) => DeliveryReady(db, v) && (v.DelReadOrder? ==> OKey(v.a.w, v.d, v.o) in db.order)
  }

  ghost predicate NewOrderIsFresh(db: Db, n: NewOrderTask)
  {
    && (n.NoInsertNewOrder? ==> NewKey(n.a, n.row) !in db.newOrder)
    && (n.NoInsertNewOrder? || n.NoInsertOrder? ==>
         NewKey(n.a, n.row) !in db.order && LineKeys(db, NewKey(n.a, n.row)) == {})
  }

  lemma NothingMisses(cfg: Config, s0: State, moves: seq<Move>, i: nat)
    requires Init(cfg, s0) && IsRun(cfg, s0, moves) && i < cfg.workers
    ensures var s := Run(cfg, s0, moves);
            |s.tasks| == cfg.workers && Proceeds(s.db, s.tasks[i])
  {
    var s := Run(cfg, s0, moves);
    RunInv(cfg, s0, moves);
    hide OwnerInv, IsRun, Run, Loaded, TaskOk, RowsPresent, StockInv, LineTable;
    if !s.tasks[i].Idle? {
      BusyProceeds(cfg, FirstQuantities(s0.db), s, i);
    }
  }

  lemma BusyProceeds(cfg: Config, first: map<SKey, nat>, s: State, i: nat)
    requires ValidConfig(cfg) && Inv(cfg, first, s) && i < cfg.workers && !s.tasks[i].Idle?
    ensures Proceeds(s.db, s.tasks[i])
  {
    hide OwnerInv, RowsPresent, StockInv, TaskOk, LineTable, OwnedBy, At, SharedOk, NewOrderIsFresh,
         NewOrderReady, DeliveryReady;
    var w := WarehouseOf(s.tasks[i]);
    BusyHits(cfg, first, s, i);
    Owned(cfg, first, s, i, w);
    match s.tasks[i]
    case NewOrder(n) => FreshOrder(s.db, w, n, s.clocks[i]);
    case Payment(p) => FreshHistoryKey(s.db, w, p, s.clocks[i]);
    case Delivery(v) => OrderIsThere(s.db, w, v, s.clocks[i]);
  }

  lemma FreshOrder(db: Db, w: nat, n: NewOrderTask, clock: nat)
    requires OwnerInv(db, NewOrder(n), clock, w) && n.a.w == w
    ensures NewOrderIsFresh(db, n)
  {
    hide Money, Dated, PendingOk, LatestOk, Waiting, LineDates;
    var v := ViewOf(db, w);
    if n.NoInsertNewOrder? || n.NoInsertOrder? {
      var k := NewKey(n.a, n.row);
      TakenIsFresh(w, v.district, v.order, k);
      assert forall l :: l in v.lines <==> l in db.orderLine && l.w == w;
      assert forall l :: l in v.lines ==> OKey(l.w, l.d, l.o) in v.order;
      assert k in db.newOrder ==> k in v.newOrder;
    }
  }

  lemma FreshHistoryKey(db: Db, w: nat, p: PaymentTask, clock: nat)
    requires OwnerInv(db, Payment(p), clock, w) && p.a.w == w
    ensures HistoryKey(p.a) !in db.history
  {
    hide Money, Ids, Carriers, Lines, PendingOk, LatestOk, Waiting, LineDates;
    assert HistoryKey(p.a) !in ViewOf(db, w).history;
  }

  lemma OrderIsThere(db: Db, w: nat, v: DeliveryTask, clock: nat)
    requires OwnerInv(db, Delivery(v), clock, w) && v.a.w == w
    ensures v.DelReadOrder? ==> OKey(v.a.w, v.d, v.o) in db.order
  {
    hide Money, Dated, Ids, Lines, PendingOk, LatestOk, Waiting, LineDates;
    if v.DelReadOrder? {
      NewOrdersExist(ViewOf(db, w).order, ViewOf(db, w).newOrder, OKey(w, v.d, v.o));
    }
  }
}
