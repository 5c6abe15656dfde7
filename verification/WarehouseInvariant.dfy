/**
 The invariant of one warehouse: what holds of its own rows while its owner is at point
 `t` of a transaction. With `t` idle it states the TPC-C consistency conditions; in the
 middle of a transaction it says exactly what is still owed.
 */
module WarehouseInvariant {
  import opened Common
  import opened Totals
  import opened Schema
  import opened Engine
  import opened OrderedScan
  import opened DeliveryScan
  import opened WarehouseView

  const FIRST_TICK: nat := 3001
  const LAST_LOADED: nat := 3000
  const SKIPPED_ID: nat := 3001  // d_next_o_id is loaded as 3001 and incremented before it is used

  type Districts = map<DKey, District>
  type Orders = map<OKey, Order>

  // ----- how far a task has got

  /** The id a new order has taken, while its order row is not in yet. */
  function Taken(t: Task): Option<OKey>
  {
    if t.NewOrder? && (t.n.NoInsertNewOrder? || t.n.NoSetPending? || t.n.NoSetLatest? || t.n.NoInsertOrder?)
    then Some(NewKey(t.n.a, t.n.row)) else None
  }

  /** The same once the new_order row is in. */
  function Announced(t: Task): Option<OKey>
  {
    if t.NewOrder? && (t.n.NoSetPending? || t.n.NoSetLatest? || t.n.NoInsertOrder?)
    then Some(NewKey(t.n.a, t.n.row)) else None
  }

  /** The same once the district's newest-order cache is set. */
  function Cached(t: Task): Option<OKey>
  {
    if t.NewOrder? && (t.n.NoSetLatest? || t.n.NoInsertOrder?) then Some(NewKey(t.n.a, t.n.row)) else None
  }

  /** The customer whose newest-order cache is set, while the order row is not in yet. */
  function CachedFor(t: Task): Option<(CKey, nat)>
  {
    if t.NewOrder? && t.n.NoInsertOrder? then Some((CKey(t.n.a.w, t.n.a.d, t.n.a.c), t.n.row.next)) else None
  }

  /** The order whose lines are being entered, and how many are. */
  function Filling(t: Task): Option<OKey>
  {
    if t.NewOrder? && (t.n.NoReadItem? || t.n.NoReadStock? || t.n.NoWriteStock? || t.n.NoInsertLine?)
    then Some(NewKey(t.n.a, t.n.row)) else None
  }

  function Entered(t: Task): nat { if Filling(t).Some? then t.n.i else 0 }

  /** The order that delivery has taken out of new_order and not yet marked. */
  function InHand(t: Task): Option<OKey>
  {
    if t.Delivery? && t.v.DelWriteOrder? then Some(OKey(t.v.a.w, t.v.d, t.v.o)) else None
  }

  /** The order whose lines delivery is dating, and how many scanned rows it has written back. */
  function Dating(t: Task): Option<OKey>
  {
    if t.Delivery? && (t.v.DelScanLines? || t.v.DelWriteLine?) then Some(OKey(t.v.a.w, t.v.d, t.v.o)) else None
  }

  function WrittenBack(t: Task): nat { if t.Delivery? && t.v.DelWriteLine? then t.v.i else 0 }

  // ----- money

  ghost predicate DistrictsExist(w: nat, district: Districts)
  {
    forall d :: IsDistrict(d) ==> DKey(w, d) in district
  }

  ghost function DistrictTotal(district: Districts, w: nat, n: nat): int
    requires forall d :: 1 <= d <= n ==> DKey(w, d) in district
  {
    if n == 0 then 0 else DistrictTotal(district, w, n - 1) + district[DKey(w, n)].ytd
  }

  ghost function DistrictHistory(h: map<HKey, int>, d: nat): map<HKey, int> { map k | k in h && k.d == d :: h[k] }

  /** Amounts that payment `t` has added to one place and not yet to the other. */
  datatype Owed = Owed(toDistrict: int, toHistory: int, district: nat, byDistrict: int)

  function OwedBy(t: Task): Owed
  {
    if !t.Payment? || t.p.PayReadWarehouse? || t.p.PayWriteWarehouse? then Owed(0, 0, 0, 0)
    else if t.p.PayReadDistrict? || t.p.PayWriteDistrict? then Owed(t.p.a.amount, t.p.a.amount, 0, 0)
    else Owed(0, t.p.a.amount, t.p.a.d, t.p.a.amount)
  }

  ghost predicate Money(w: nat, ytd: int, district: Districts, history: map<HKey, int>, owed: Owed)
    requires DistrictsExist(w, district)
  {
    && ytd == DistrictTotal(district, w, DISTRICTS) + owed.toDistrict
    && ytd == Total(history) + owed.toHistory
    && forall d :: IsDistrict(d) ==>
         district[DKey(w, d)].ytd
         == Total(DistrictHistory(history, d)) + if d == owed.district then owed.byDistrict else 0
  }

  /** Every history row is older than the next one; a payment's date is drawn at its start. */
  ghost predicate Dated(history: map<HKey, int>, next: nat) { forall k :: k in history ==> k.date < next }

  function NextDate(t: Task, clock: nat): nat { if t.Payment? then t.p.a.date else clock }

  // ----- orders

  predicate OrderRowOk(order: Order) { IsCustomer(order.c) && 5 <= order.lines <= 15 }

  /**
   The ids of a district are 1 up to `d_next_o_id` without 3001; one of them may be just
   taken, and is above all others.
   */
  ghost predicate Ids(w: nat, district: Districts, order: Orders, taken: Option<OKey>)
    requires DistrictsExist(w, district)
  {
    && (forall k :: k in order ==>
         && k.w == w && IsDistrict(k.d) && 1 <= k.o <= district[DKey(w, k.d)].next && k.o != SKIPPED_ID
         && OrderRowOk(order[k]))
    && (forall d, o: nat :: IsDistrict(d) && 1 <= o <= district[DKey(w, d)].next && o != SKIPPED_ID ==>
         OKey(w, d, o) in order || taken == Some(OKey(w, d, o)))
    && (forall d :: IsDistrict(d) ==> LAST_LOADED < district[DKey(w, d)].next)
    && (taken.Some? ==> Above(order, taken.value))
  }

  ghost predicate Above(order: Orders, k: OKey)
  {
    SKIPPED_ID < k.o && forall j :: j in order && j.d == k.d ==> j.o < k.o
  }

  /** A carrier of 0 marks exactly the orders with a new_order row. */
  ghost predicate Carriers(order: Orders, newOrder: set<OKey>, announced: Option<OKey>, inHand: Option<OKey>)
  {
    && (forall k :: k in newOrder ==> k in order || announced == Some(k))
    && (forall k :: k in order ==> (order[k].carrier == 0 <==> k in newOrder || inHand == Some(k)))
    && (announced.Some? ==> announced.value in newOrder)
    && (inHand.Some? ==> inHand.value !in newOrder && inHand.value in order)
  }

  /** Of the loaded orders, 2101 to 2999 are never delivered, and none up to 2100 awaits delivery. */
  ghost predicate Waiting(w: nat, newOrder: set<OKey>)
  {
    && (forall k :: k in newOrder ==> k.o > LOADED_DELIVERED)
    && (forall d, o: nat :: IsDistrict(d) && LOADED_DELIVERED < o < LAST_LOADED ==> OKey(w, d, o) in newOrder)
  }

  function LineCount(order: Orders, k: OKey, filling: Option<OKey>, entered: nat): nat
    requires k in order
  {
    if filling == Some(k) then entered else order[k].lines
  }

  /** The line numbers of an order are exactly 1 up to its line count, or up to the last one entered. */
  ghost predicate Lines(order: Orders, lines: set<OLKey>, filling: Option<OKey>, entered: nat)
  {
    && (forall l :: l in lines ==>
         OKey(l.w, l.d, l.o) in order && 1 <= l.n <= LineCount(order, OKey(l.w, l.d, l.o), filling, entered))
    && (forall k, n | k in order :: 1 <= n <= LineCount(order, k, filling, entered) ==>
         OLKey(k.w, k.d, k.o, n) in lines)
  }

  /** A line of a delivered order is dated, except past the tenth and where delivery has yet to come. */
  predicate IsDated(carrier: nat, l: OLKey, dating: Option<OKey>, written: nat)
  {
    l.o <= LOADED_DELIVERED
    || (carrier != 0 && l.n <= SCANNED && (dating == Some(OKey(l.w, l.d, l.o)) ==> l.n <= written))
  }

  ghost predicate LineDates(order: Orders, lines: set<OLKey>, dated: set<OLKey>, dating: Option<OKey>, written: nat)
  {
    && dated <= lines
    && forall l :: l in lines && OKey(l.w, l.d, l.o) in order ==>
         (l in dated <==> IsDated(order[OKey(l.w, l.d, l.o)].carrier, l, dating, written))
  }

  // ----- side caches

  ghost predicate IsNewest(w: nat, order: Orders, d: nat, o: nat)
  {
    OKey(w, d, o) in order && forall k :: k in order && k.d == d ==> k.o <= o
  }

  /** The district cache names the newest order, or the one about to become it. */
  ghost predicate PendingOk(w: nat, order: Orders, pending: map<DKey, nat>, cached: Option<OKey>)
  {
    forall d :: IsDistrict(d) ==>
      && DKey(w, d) in pending
      && if cached.Some? && cached.value.d == d then cached == Some(OKey(w, d, pending[DKey(w, d)]))
         else IsNewest(w, order, d, pending[DKey(w, d)])
  }

  /** `o` is the customer's newest order, or the loaded 3000 while the customer has no newer one. */
  ghost predicate IsLatest(w: nat, order: Orders, d: nat, c: nat, o: nat)
  {
    && LAST_LOADED <= o
    && OKey(w, d, o) in order
    && (o == LAST_LOADED || order[OKey(w, d, o)].c == c)
    && forall k :: k in order && k.d == d && order[k].c == c && LAST_LOADED < k.o ==> k.o <= o
  }

  ghost predicate LatestOk(w: nat, order: Orders, latest: map<CKey, nat>, cached: Option<(CKey, nat)>)
  {
    forall d, c :: IsDistrict(d) && IsCustomer(c) ==>
      && CKey(w, d, c) in latest
      && if cached.Some? && cached.value.0 == CKey(w, d, c) then latest[CKey(w, d, c)] == cached.value.1
         else IsLatest(w, order, d, c, latest[CKey(w, d, c)])
  }

  // ----- local copies: the owner is the only writer of these rows, so they are current

  ghost predicate NewOrderCopies(v: View, t: NewOrderTask)
    requires DistrictsExist(v.w, v.district)
  {
    && t.a.w == v.w && IsDistrict(t.a.d) && IsCustomer(t.a.c) && 5 <= |t.a.lines| <= 15
    && !Undoing(t)
    && (!t.NoReadDistrict? ==> t.row == v.district[DKey(v.w, t.a.d)])
    && (Filling(NewOrder(t)).Some? ==>
         var k := NewKey(t.a, t.row);
         k in v.order && v.order[k].lines == |t.a.lines| && t.i < |t.a.lines| && v.order[k].carrier == 0)
  }

  ghost predicate PaymentCopies(v: View, t: PaymentTask, clock: nat)
    requires DistrictsExist(v.w, v.district)
  {
    && t.a.w == v.w && IsDistrict(t.a.d) && t.a.date < clock
    && (t.PayWriteWarehouse? ==> t.ytd == v.ytd)
    && (t.PayWriteDistrict? ==> t.row == v.district[DKey(v.w, t.a.d)])
  }

  ghost predicate DeliveryCopies(v: View, t: DeliveryTask)
  {
    && t.a.w == v.w && IsDistrict(t.d) && 1 <= t.a.carrier <= DISTRICTS
    && (!t.DelReadPending? ==> DKey(v.w, t.d) in v.pending && t.o == v.pending[DKey(v.w, t.d)])
    && (t.DelReadOrder? || t.DelRemoveNewOrder? ==> OKey(v.w, t.d, t.o) in v.newOrder)
    && (!t.DelReadPending? && !t.DelReadNewOrder? && !t.DelReadOrder? ==>
         OKey(v.w, t.d, t.o) in v.order && v.order[OKey(v.w, t.d, t.o)] == t.order && OrderRowOk(t.order))
    && (t.DelScanLines? || t.DelWriteLine? ==> t.order.carrier != 0)
  }

  ghost predicate Copies(v: View, t: Task, clock: nat)
    requires DistrictsExist(v.w, v.district)
  {
    match t
    case Idle => true
    case NewOrder(n) => NewOrderCopies(v, n)
    case Payment(p) => PaymentCopies(v, p, clock)
    case Delivery(e) => DeliveryCopies(v, e)
  }

  ghost predicate WarehouseInv(v: View, t: Task, clock: nat)
  {
    && FIRST_TICK <= clock
    && DistrictsExist(v.w, v.district)
    && Copies(v, t, clock)
    && Money(v.w, v.ytd, v.district, v.history, OwedBy(t))
    && Dated(v.history, NextDate(t, clock))
    && Ids(v.w, v.district, v.order, Taken(t))
    && Carriers(v.order, v.newOrder, Announced(t), InHand(t))
    && Lines(v.order, v.lines, Filling(t), Entered(t))
    && PendingOk(v.w, v.order, v.pending, Cached(t))
    && LatestOk(v.w, v.order, v.latest, CachedFor(t))
    && Waiting(v.w, v.newOrder)
    && LineDates(v.order, v.lines, v.dated, Dating(t), WrittenBack(t))
  }
}
