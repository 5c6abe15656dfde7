/**
 What one warehouse's owner sees: the rows whose home is that warehouse, except the
 customer, stock and order-line contents, which any worker may write. Of the order lines
 it sees which ones exist and which carry a delivery date.
 A step changes the view of its own warehouse only.
 */
module WarehouseView {
  import opened Schema
  import opened Engine

  datatype View = View(
    w: nat,
    ytd: int,
    district: map<DKey, District>,
    order: map<OKey, Order>,
    newOrder: set<OKey>,
    lines: set<OLKey>,
    dated: set<OLKey>,
    pending: map<DKey, nat>,
    latest: map<CKey, nat>,
    history: map<HKey, int>)

  // The rows of one table whose home is `w`.

  ghost function HomeDistricts<V>(m: map<DKey, V>, w: nat): map<DKey, V> { map k | k in m && k.w == w :: m[k] }

  ghost function HomeCustomers<V>(m: map<CKey, V>, w: nat): map<CKey, V> { map k | k in m && k.w == w :: m[k] }

  ghost function HomeOrders(m: map<OKey, Order>, w: nat): map<OKey, Order> { map k | k in m && k.w == w :: m[k] }

  ghost function HomeNewOrders(m: set<OKey>, w: nat): set<OKey> { set k | k in m && k.w == w }

  ghost function HomeLines(m: set<OLKey>, w: nat): set<OLKey> { set k | k in m && k.w == w }

  ghost function HomeDated(m: map<OLKey, OrderLine>, w: nat): set<OLKey>
  {
    set k | k in m.Keys && k.w == w && m[k].delivered != 0
  }

  ghost function HomeHistory(m: map<HKey, int>, w: nat): map<HKey, int> { map k | k in m && k.w == w :: m[k] }

  ghost function ViewOf(db: Db, w: nat): View
    requires w in db.warehouse
  {
    View(w, db.warehouse[w], HomeDistricts(db.district, w), HomeOrders(db.order, w),
         HomeNewOrders(db.newOrder, w), HomeLines(db.orderLine.Keys, w), HomeDated(db.orderLine, w),
         HomeDistricts(db.pending, w), HomeCustomers(db.latest, w), HomeHistory(db.history, w))
  }

  // Writing one row changes the home part of its own warehouse only.

  lemma PutDistrict<V>(m: map<DKey, V>, k: DKey, value: V, w: nat)
    ensures HomeDistricts(m[k := value], w)
         == if k.w == w then HomeDistricts(m, w)[k := value] else HomeDistricts(m, w)
  {
    assert HomeDistricts(m[k := value], w)
        == if k.w == w then HomeDistricts(m, w)[k := value] else HomeDistricts(m, w);
  }

  lemma PutCustomer<V>(m: map<CKey, V>, k: CKey, value: V, w: nat)
    ensures HomeCustomers(m[k := value], w)
         == if k.w == w then HomeCustomers(m, w)[k := value] else HomeCustomers(m, w)
  {
    assert HomeCustomers(m[k := value], w)
        == if k.w == w then HomeCustomers(m, w)[k := value] else HomeCustomers(m, w);
  }

  lemma PutOrder(m: map<OKey, Order>, k: OKey, value: Order, w: nat)
    ensures HomeOrders(m[k := value], w)
         == if k.w == w then HomeOrders(m, w)[k := value] else HomeOrders(m, w)
  {
    assert HomeOrders(m[k := value], w) == if k.w == w then HomeOrders(m, w)[k := value] else HomeOrders(m, w);
  }

  lemma DropOrder(m: map<OKey, Order>, k: OKey, w: nat)
    ensures HomeOrders(m - {k}, w) == if k.w == w then HomeOrders(m, w) - {k} else HomeOrders(m, w)
  {
    assert HomeOrders(m - {k}, w) == if k.w == w then HomeOrders(m, w) - {k} else HomeOrders(m, w);
  }

  lemma PutNewOrder(m: set<OKey>, k: OKey, w: nat)
    ensures HomeNewOrders(m + {k}, w) == if k.w == w then HomeNewOrders(m, w) + {k} else HomeNewOrders(m, w)
    ensures HomeNewOrders(m - {k}, w) == if k.w == w then HomeNewOrders(m, w) - {k} else HomeNewOrders(m, w)
  {
  }

  lemma PutLine(m: map<OLKey, OrderLine>, k: OLKey, value: OrderLine, w: nat)
    ensures HomeLines(m[k := value].Keys, w)
         == if k.w == w then HomeLines(m.Keys, w) + {k} else HomeLines(m.Keys, w)
    ensures k in m ==> m[k := value].Keys == m.Keys
    ensures HomeDated(m[k := value], w)
         == if k.w != w then HomeDated(m, w)
            else if value.delivered != 0 then HomeDated(m, w) + {k} else HomeDated(m, w) - {k}
  {
    assert m[k := value].Keys == m.Keys + {k};
  }

  lemma PutHistory(m: map<HKey, int>, k: HKey, value: int, w: nat)
    ensures HomeHistory(m[k := value], w)
         == if k.w == w then HomeHistory(m, w)[k := value] else HomeHistory(m, w)
  {
    assert HomeHistory(m[k := value], w) == if k.w == w then HomeHistory(m, w)[k := value] else HomeHistory(m, w);
  }

  /** A line that delivery is about to write back is there already; in another warehouse it is also dated already. */
  ghost predicate RowsExist(db: Db, t: Task)
  {
    t.Delivery? && t.v.DelWriteLine? ==> forall i :: 0 <= i < |t.v.rows| ==> RowExists(db, t.v.a.w, t.v.rows[i].0)
  }

  predicate RowExists(db: Db, w: nat, l: OLKey)
  {
    l in db.orderLine && (l.w != w ==> db.orderLine[l].delivered != 0)
  }

  // ----- a step as its own warehouse sees it

  ghost function NewOrderEffect(v: View, t: NewOrderTask, clock: nat): View
  {
    match t
    case NoWriteDistrict(a, row) => v.(district := v.district[DKey(a.w, a.d) := Bumped(row)])
    case NoInsertNewOrder(a, row) => v.(newOrder := v.newOrder + {NewKey(a, row)})
    case NoSetPending(a, row) => v.(pending := v.pending[DKey(a.w, a.d) := row.next])
    case NoSetLatest(a, row) => v.(latest := v.latest[CKey(a.w, a.d, a.c) := row.next])
    case NoInsertOrder(a, row) =>
      v.(order := v.order[NewKey(a, row) := Order(a.c, 0, |a.lines|, AllLocal(a), clock)])
    case NoInsertLine(a, row, i, _) =>
      var l := OLKey(a.w, a.d, row.next, i + 1);
      v.(lines := v.lines + {l}, dated := v.dated - {l})
    case NoUndoDistrict(a, row) => v.(district := v.district[DKey(a.w, a.d) := Unbumped(row)])
    case NoUndoNewOrder(a, row) => v.(newOrder := v.newOrder - {NewKey(a, row)})
    case NoUndoOrder(a, row) => v.(order := v.order - {NewKey(a, row)})
    case _ => v
  }

  ghost function PaymentEffect(v: View, t: PaymentTask): View
  {
    match t
    case PayWriteWarehouse(a, ytd) => v.(ytd := ytd + a.amount)
    case PayWriteDistrict(a, row) => v.(district := v.district[DKey(a.w, a.d) := Collected(row, a.amount)])
    case PayInsertHistory(a) => v.(history := v.history[HistoryKey(a) := a.amount])
    case _ => v
  }

  ghost function DeliveryEffect(v: View, t: DeliveryTask): View
  {
    match t
    case DelRemoveNewOrder(a, d, o, _) => v.(newOrder := v.newOrder - {OKey(a.w, d, o)})
    case DelWriteOrder(a, d, o, order) =>
      v.(order := v.order[OKey(a.w, d, o) := order.(carrier := a.carrier)])
    case DelWriteLine(_, _, _, _, rows, i, _) =>
      if i < |rows| && rows[i].0.w == v.w then v.(dated := v.dated + {rows[i].0}) else v
    case _ => v
  }

  ghost function Effect(v: View, t: Task, clock: nat): View
  {
    match t
    case Idle => v
    case NewOrder(n) => NewOrderEffect(v, n, clock)
    case Payment(p) => PaymentEffect(v, p)
    case Delivery(e) => DeliveryEffect(v, e)
  }

  predicate Undoing(t: NewOrderTask) { t.NoUndoDistrict? || t.NoUndoNewOrder? || t.NoUndoOrder? }

  lemma UndoView(db: Db, t: NewOrderTask, clock: nat, w: nat)
    requires Undoing(t) && w in db.warehouse
    ensures w in NewOrderStep(db, t, clock).db.warehouse
    ensures ViewOf(NewOrderStep(db, t, clock).db, w)
         == if w == t.a.w then NewOrderEffect(ViewOf(db, w), t, clock) else ViewOf(db, w)
  {
    match t
    case NoUndoDistrict(a, row) => PutDistrict(db.district, DKey(a.w, a.d), Unbumped(row), w);
    case NoUndoNewOrder(a, row) => PutNewOrder(db.newOrder, NewKey(a, row), w);
    case NoUndoOrder(a, row) => DropOrder(db.order, NewKey(a, row), w);
  }

  lemma TakeView(db: Db, t: NewOrderTask, clock: nat, w: nat)
    requires NewOrderHit(db, t) && w in db.warehouse
    requires t.NoWriteDistrict? || t.NoInsertNewOrder? || t.NoSetPending? || t.NoSetLatest?
    ensures w in NewOrderStep(db, t, clock).db.warehouse
    ensures ViewOf(NewOrderStep(db, t, clock).db, w)
         == if w == t.a.w then NewOrderEffect(ViewOf(db, w), t, clock) else ViewOf(db, w)
  {
    match t
    case NoWriteDistrict(a, row) => PutDistrict(db.district, DKey(a.w, a.d), Bumped(row), w);
    case NoInsertNewOrder(a, row) => PutNewOrder(db.newOrder, NewKey(a, row), w);
    case NoSetPending(a, row) => PutDistrict(db.pending, DKey(a.w, a.d), row.next, w);
    case NoSetLatest(a, row) => PutCustomer(db.latest, CKey(a.w, a.d, a.c), row.next, w);
  }

  lemma FillView(db: Db, t: NewOrderTask, clock: nat, w: nat)
    requires NewOrderHit(db, t) && w in db.warehouse && (t.NoInsertOrder? || t.NoInsertLine?)
    ensures w in NewOrderStep(db, t, clock).db.warehouse
    ensures ViewOf(NewOrderStep(db, t, clock).db, w)
         == if w == t.a.w then NewOrderEffect(ViewOf(db, w), t, clock) else ViewOf(db, w)
  {
    match t
    case NoInsertOrder(a, row) =>
      PutOrder(db.order, NewKey(a, row), Order(a.c, 0, |a.lines|, AllLocal(a), clock), w);
    case NoInsertLine(a, row, i, price) =>
      var l := a.lines[i];
      PutLine(db.orderLine, OLKey(a.w, a.d, row.next, i + 1),
              OrderLine(l.item, 0, l.quantity * price, l.supply, l.quantity), w);
  }

  lemma NewOrderView(db: Db, t: NewOrderTask, clock: nat, w: nat)
    requires NewOrderHit(db, t) && w in db.warehouse
    ensures w in NewOrderStep(db, t, clock).db.warehouse
    ensures ViewOf(NewOrderStep(db, t, clock).db, w)
         == if w == t.a.w then NewOrderEffect(ViewOf(db, w), t, clock) else ViewOf(db, w)
  {
    if Undoing(t) {
      UndoView(db, t, clock, w);
    } else if t.NoInsertOrder? || t.NoInsertLine? {
      FillView(db, t, clock, w);
    } else if t.NoWriteDistrict? || t.NoInsertNewOrder? || t.NoSetPending? || t.NoSetLatest? {
      TakeView(db, t, clock, w);
    }
  }

  lemma PaymentView(db: Db, t: PaymentTask, clock: nat, w: nat)
    requires PaymentHit(db, t) && w in db.warehouse
    ensures w in PaymentStep(db, t, clock).db.warehouse
    ensures ViewOf(PaymentStep(db, t, clock).db, w)
         == if w == t.a.w then PaymentEffect(ViewOf(db, w), t) else ViewOf(db, w)
  {
    match t
    case PayWriteDistrict(a, row) => PutDistrict(db.district, DKey(a.w, a.d), Collected(row, a.amount), w);
    case PayInsertHistory(a) => PutHistory(db.history, HistoryKey(a), a.amount, w);
    case _ =>
  }

  lemma DeliveryView(db: Db, t: DeliveryTask, clock: nat, w: nat)
    requires DeliveryHit(db, t) && w in db.warehouse && RowsExist(db, Delivery(t)) && clock != 0
    ensures w in DeliveryStep(db, t, clock).db.warehouse
    ensures ViewOf(DeliveryStep(db, t, clock).db, w)
         == if w == t.a.w then DeliveryEffect(ViewOf(db, w), t) else ViewOf(db, w)
  {
    match t
    case DelRemoveNewOrder(a, d, o, order) => PutNewOrder(db.newOrder, OKey(a.w, d, o), w);
    case DelWriteOrder(a, d, o, order) => PutOrder(db.order, OKey(a.w, d, o), order.(carrier := a.carrier), w);
    case DelWriteLine(_, _, _, _, rows, i, _) =>
      assert RowExists(db, t.a.w, rows[i].0);
      PutLine(db.orderLine, rows[i].0, rows[i].1.(delivered := clock), w);
    case _ =>
  }

  /** In its own warehouse a step does what `Effect` says; every other view is unchanged. */
  lemma StepView(x: Point, w: nat)
    requires Hit(x.db, x.task) && w in x.db.warehouse && RowsExist(x.db, x.task) && x.clock != 0
    ensures w in Step(x).db.warehouse
    ensures ViewOf(Step(x).db, w)
         == if w == WarehouseOf(x.task) then Effect(ViewOf(x.db, w), x.task, x.clock) else ViewOf(x.db, w)
  {
    match x.task
    case NewOrder(n) => NewOrderView(x.db, n, x.clock, w);
    case Payment(p) => PaymentView(x.db, p, x.clock, w);
    case Delivery(e) => DeliveryView(x.db, e, x.clock, w);
  }
}
