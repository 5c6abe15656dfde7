/** Rows, keys and tables of the TPC-C engine. Money is in cents. */
module Schema {

  const DISTRICTS: nat := 10
  const CUSTOMERS: nat := 3000
  const ITEMS: nat := 100000
  const TWO32: nat := 0x1_0000_0000

  datatype DKey = DKey(w: nat, d: nat)
  datatype CKey = CKey(w: nat, d: nat, c: nat)
  datatype HKey = HKey(w: nat, d: nat, cw: nat, cd: nat, c: nat, date: nat)
  datatype SKey = SKey(w: nat, i: nat)
  datatype OKey = OKey(w: nat, d: nat, o: nat)  // orders and new orders
  datatype OLKey = OLKey(w: nat, d: nat, o: nat, n: nat)

  datatype District = District(ytd: int, next: nat)
  datatype Customer = Customer(balance: int, ytdPayment: int, paymentCnt: nat, deliveryCnt: nat)
  datatype Stock = Stock(quantity: nat, ytd: nat, orderCnt: nat, remoteCnt: nat)
  datatype Order = Order(c: nat, carrier: nat, lines: nat, allLocal: bool, entry: nat)
  datatype OrderLine = OrderLine(item: nat, delivered: nat, amount: int, supply: nat, quantity: nat)

  /** The tables, and the two side caches kept in global vectors. */
  datatype Db = Db(
    warehouse: map<nat, int>,            // w_ytd
    district: map<DKey, District>,
    customer: map<CKey, Customer>,
    history: map<HKey, int>,             // h_amount
    item: map<nat, nat>,                 // i_price
    stock: map<SKey, Stock>,
    order: map<OKey, Order>,
    newOrder: set<OKey>,
    orderLine: map<OLKey, OrderLine>,
    pending: map<DKey, nat>,             // pending_new_order_per_dis
    latest: map<CKey, nat>)              // latest_order_id_per_customer

  /** `x + 1` and `x - 1` on an unsigned 32-bit counter. */
  function Inc32(x: nat): nat { (x + 1) % TWO32 }

  function Dec32(x: nat): nat { (x - 1) % TWO32 }

  predicate IsDistrict(d: nat) { 1 <= d <= DISTRICTS }

  predicate IsCustomer(c: nat) { 1 <= c <= CUSTOMERS }

  predicate IsItem(i: nat) { 1 <= i <= ITEMS }

  /** The order of `OL_key`: by warehouse, district, order, line number. */
  predicate OLLess(a: OLKey, b: OLKey)
  {
    a.w < b.w || (a.w == b.w &&
    (a.d < b.d || (a.d == b.d &&
    (a.o < b.o || (a.o == b.o && a.n < b.n)))))
  }
}
