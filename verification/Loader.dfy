/** The loaders of the tables, loop by loop. */
module Loader {
  import opened Common
  import opened Schema
  import opened DeliveryScan
  import opened WarehouseInvariant
  import opened LoadedState
  import opened FastRandom
  import Lcg

  method LoadWarehouse(warehouses: nat) returns (m: map<nat, int>)
    ensures LoadedWarehouse(warehouses, m)
  {
    m := map[];
    for i := 1 to warehouses + 1
      invariant forall w :: w in m <==> 1 <= w < i
      invariant forall w :: w in m ==> m[w] == W_YTD
    {
      m := m[i := W_YTD];
    }
  }

  /** The loops over warehouses and districts have passed `(w, d)`. */
  predicate Passed(w: nat, d: nat, atW: nat, atD: nat)
  {
    1 <= w && IsDistrict(d) && (w < atW || (w == atW && d < atD))
  }

  /** ... and the loop inside them, over `1 .. top`, has passed `i`. */
  predicate PassedInner(w: nat, d: nat, i: nat, atW: nat, atD: nat, at: nat, top: nat)
  {
    1 <= w && IsDistrict(d) && 1 <= i <= top && (w < atW || (w == atW && (d < atD || (d == atD && i < at))))
  }

  method LoadDistrict(warehouses: nat) returns (m: map<DKey, District>)
    ensures LoadedDistrict(warehouses, m)
  {
    m := map[];
    for w := 1 to warehouses + 1
      invariant forall k :: k in m <==> Passed(k.w, k.d, w, 1)
      invariant forall k :: k in m ==> m[k] == District(D_YTD, NEXT_O_ID)
    {
      for d := 1 to DISTRICTS + 1
        invariant forall k :: k in m <==> Passed(k.w, k.d, w, d)
        invariant forall k :: k in m ==> m[k] == District(D_YTD, NEXT_O_ID)
      {
        m := m[DKey(w, d) := District(D_YTD, NEXT_O_ID)];
      }
    }
  }

  method LoadCustomer(warehouses: nat) returns (m: map<CKey, Customer>)
    ensures LoadedCustomer(warehouses, m)
  {
    m := map[];
    for w := 1 to warehouses + 1
      invariant forall k :: k in m <==> PassedInner(k.w, k.d, k.c, w, 1, 1, CUSTOMERS)
      invariant forall k :: k in m ==> m[k] == Customer(-H_AMOUNT, H_AMOUNT, 1, 0)
    {
      for d := 1 to DISTRICTS + 1
        invariant forall k :: k in m <==> PassedInner(k.w, k.d, k.c, w, d, 1, CUSTOMERS)
        invariant forall k :: k in m ==> m[k] == Customer(-H_AMOUNT, H_AMOUNT, 1, 0)
      {
        for c := 1 to CUSTOMERS + 1
          invariant forall k :: k in m <==> PassedInner(k.w, k.d, k.c, w, d, c, CUSTOMERS)
          invariant forall k :: k in m ==> m[k] == Customer(-H_AMOUNT, H_AMOUNT, 1, 0)
        {
          m := m[CKey(w, d, c) := Customer(-H_AMOUNT, H_AMOUNT, 1, 0)];
        }
      }
    }
  }

  method LoadHistory(warehouses: nat) returns (m: map<HKey, int>)
    ensures LoadedHistory(warehouses, m)
  {
    m := map[];
    for w := 1 to warehouses + 1
      invariant forall k :: k in m <==> HomePayment(k) && PassedInner(k.w, k.d, k.c, w, 1, 1, CUSTOMERS)
      invariant forall k :: k in m ==> m[k] == H_AMOUNT
    {
      for d := 1 to DISTRICTS + 1
        invariant forall k :: k in m <==> HomePayment(k) && PassedInner(k.w, k.d, k.c, w, d, 1, CUSTOMERS)
        invariant forall k :: k in m ==> m[k] == H_AMOUNT
      {
        var ts := 0;
        for c := 1 to CUSTOMERS + 1
          invariant ts == c - 1
          invariant forall k :: k in m <==> HomePayment(k) && PassedInner(k.w, k.d, k.c, w, d, c, CUSTOMERS)
          invariant forall k :: k in m ==> m[k] == H_AMOUNT
        {
          ts := ts + 1;
          m := m[HKey(w, d, w, d, c, ts) := H_AMOUNT];
        }
      }
    }
  }

  predicate HomePayment(k: HKey) { k.cw == k.w && k.cd == k.d && k.date == k.c }

  method LoadItem(r: Generator) returns (m: map<nat, nat>)
    requires r.Valid()
    modifies r
    ensures r.Valid() && LoadedItem(m)
  {
    m := map[];
    for i := 1 to ITEMS + 1
      invariant r.Valid()
      invariant forall j :: j in m <==> 1 <= j < i
      invariant forall j :: j in m ==> 100 <= m[j] <= 10000
    {
      var price := r.RandomNumber(100, 10000);
      m := m[i := price];
    }
  }

  /** The quantity of a stock row is the draw at its place in the order of the keys. */
  predicate QuantityDrawn(seed: nat, k: SKey, row: Stock)
  {
    k.w >= 1 && k.i >= 1 && row.quantity == Pick(Lcg.Iterate((k.w - 1) * ITEMS + k.i - 1, seed), 10, 100)
  }

  lemma DrawnAt(seed: nat, k: SKey, quantity: nat)
    requires k.w >= 1 && k.i >= 1 && quantity == Pick(Lcg.Iterate((k.w - 1) * ITEMS + k.i - 1, seed), 10, 100)
    ensures QuantityDrawn(seed, k, Stock(quantity, 0, 0, 0))
  {
  }

  method LoadStock(r: Generator, warehouses: nat) returns (m: map<SKey, Stock>)
    requires r.Valid()
    modifies r
    ensures r.Valid() && LoadedStock(warehouses, m)
    ensures forall k :: k in m ==> QuantityDrawn(old(r.seed), k, m[k])
  {
    hide Pick, Lcg.Iterate, QuantityDrawn;
    m := map[];
    IterateNext(0, r.seed);
    for w := 1 to warehouses + 1
      invariant r.Valid() && r.seed == Lcg.Iterate((w - 1) * ITEMS, old(r.seed))
      invariant forall k :: k in m ==> QuantityDrawn(old(r.seed), k, m[k])
      invariant forall k :: k in m <==> 1 <= k.w < w && IsItem(k.i)
      invariant forall k :: k in m ==> 10 <= m[k].quantity <= 100 && m[k] == Stock(m[k].quantity, 0, 0, 0)
    {
      for i := 1 to ITEMS + 1
        invariant r.Valid() && r.seed == Lcg.Iterate((w - 1) * ITEMS + i - 1, old(r.seed))
        invariant forall k :: k in m ==> QuantityDrawn(old(r.seed), k, m[k])
        invariant forall k :: k in m <==> (1 <= k.w < w && IsItem(k.i)) || (k.w == w && 1 <= k.i < i)
        invariant forall k :: k in m ==> 10 <= m[k].quantity <= 100 && m[k] == Stock(m[k].quantity, 0, 0, 0)
      {
        var quantity := r.RandomNumber(10, 100);
        IterateNext((w - 1) * ITEMS + i - 1, old(r.seed));
        DrawnAt(old(r.seed), SKey(w, i), quantity);
        m := m[SKey(w, i) := Stock(quantity, 0, 0, 0)];
      }
    }
  }

  // ----- orders, their new_order rows and their lines

  method LoadOrderRow(r: Generator, k: OKey, c: nat, ts: nat) returns (row: Order)
    requires r.Valid() && IsCustomer(c) && ts >= 1
    modifies r
    ensures r.Valid() && LoadedOrderRow(k, row) && row.c == c && row.entry == ts
    ensures if k.o < 2101 then row.carrier == Pick(old(r.seed), 1, 10) && row.lines == Pick(Lcg.Next(old(r.seed)), 5, 15)
            else row.lines == Pick(old(r.seed), 5, 15)
  {
    var carrier := 0;
    if k.o < 2101 {
      carrier := r.RandomNumber(1, 10);
    }
    var lines := r.RandomNumber(5, 15);
    row := Order(c, carrier, lines, true, ts);
  }

  /** Each line draws its item, and its amount if the order is not delivered. */
  predicate OrderLineDrawn(seed: nat, l: OLKey, line: OrderLine)
  {
    l.n >= 1
    && if l.o < 2101 then line.item == Pick(Lcg.Iterate(l.n - 1, seed), 1, ITEMS)
       else line.item == Pick(Lcg.Iterate(2 * l.n - 2, seed), 1, ITEMS)
            && line.amount == Pick(Lcg.Iterate(2 * l.n - 1, seed), 1, 999999)
  }

  lemma OrderLineDrawnAt(seed: nat, l: OLKey, line: OrderLine)
    requires l.n >= 1
    requires l.o < 2101 ==> line.item == Pick(Lcg.Iterate(l.n - 1, seed), 1, ITEMS)
    requires l.o >= 2101 ==> line.item == Pick(Lcg.Iterate(2 * l.n - 2, seed), 1, ITEMS)
                             && line.amount == Pick(Lcg.Iterate(2 * l.n - 1, seed), 1, 999999)
    ensures OrderLineDrawn(seed, l, line)
  {
  }

  /** The lines of order `k` are added to `lines`. */
  method LoadLines(r: Generator, k: OKey, row: Order, before: map<OLKey, OrderLine>)
    returns (lines: map<OLKey, OrderLine>)
    requires r.Valid() && forall l :: l in before ==> OKey(l.w, l.d, l.o) != k
    modifies r
    ensures r.Valid()
    ensures forall l :: l in lines <==> l in before || (OKey(l.w, l.d, l.o) == k && 1 <= l.n <= row.lines)
    ensures forall l :: l in before ==> lines[l] == before[l]
    ensures forall l :: l in lines && l !in before ==> LoadedLineRow(l, lines[l], row)
    ensures forall l :: l in lines && l !in before ==> OrderLineDrawn(old(r.seed), l, lines[l])
  {
    hide Pick, Lcg.Iterate, OrderLineDrawn;
    lines := before;
    IterateNext(0, r.seed);
    for n := 1 to row.lines + 1
      invariant r.Valid() && r.seed == Lcg.Iterate(if k.o < 2101 then n - 1 else 2 * (n - 1), old(r.seed))
      invariant forall l :: l in lines && l !in before ==> OrderLineDrawn(old(r.seed), l, lines[l])
      invariant forall l :: l in lines <==> l in before || (OKey(l.w, l.d, l.o) == k && 1 <= l.n < n)
      invariant forall l :: l in before ==> lines[l] == before[l]
      invariant forall l :: l in lines && l !in before ==> LoadedLineRow(l, lines[l], row)
    {
      var item := r.RandomNumber(1, 100000);
      var delivered, amount := 0, 0;
      IterateNext(if k.o < 2101 then n - 1 else 2 * (n - 1), old(r.seed));
      IterateNext(2 * n - 1, old(r.seed));
      if k.o < 2101 {
        delivered := row.entry;
      } else {
        amount := r.RandomNumber(1, 999999);
      }
      OrderLineDrawnAt(old(r.seed), OLKey(k.w, k.d, k.o, n), OrderLine(item, delivered, amount, k.w, 5));
      lines := lines[OLKey(k.w, k.d, k.o, n) := OrderLine(item, delivered, amount, k.w, 5)];
    }
  }

  ghost predicate OrdersUpTo(order: map<OKey, Order>, w: nat, d: nat, o: nat, cIds: seq<nat>)
  {
    && (forall k :: k in order <==> PassedInner(k.w, k.d, k.o, w, d, o, CUSTOMERS))
    && (forall k :: k in order ==> LoadedOrderRow(k, order[k]))
    && LoadedFrom(order, cIds)
  }

  /** The orders entered before the loops reach `(w, d)`. */
  function OrdersBefore(w: nat, d: nat): int { ((w - 1) * DISTRICTS + (d - 1)) * CUSTOMERS }

  ghost predicate NewOrdersMatch(order: map<OKey, Order>, newOrder: set<OKey>)
  {
    forall k :: k in newOrder <==> k in order && k.o > LOADED_DELIVERED
  }

  lemma AddLoadedOrder(order: map<OKey, Order>, newOrder: set<OKey>, lines: map<OLKey, OrderLine>, w: nat, d: nat, o: nat,
                       row: Order, lines': map<OLKey, OrderLine>, cIds: seq<nat>)
    requires 1 <= w && IsDistrict(d) && IsCustomer(o) && |cIds| == CUSTOMERS
    requires row.c == cIds[o - 1] && row.entry == OrdersBefore(w, d) + o
    requires OrdersUpTo(order, w, d, o, cIds) && NewOrdersMatch(order, newOrder) && LoadedOrderLine(order, lines)
    requires var k := OKey(w, d, o);
             && LoadedOrderRow(k, row)
             && (forall l :: l in lines' <==> l in lines || (OKey(l.w, l.d, l.o) == k && 1 <= l.n <= row.lines))
             && (forall l :: l in lines ==> lines'[l] == lines[l])
             && (forall l :: l in lines' && l !in lines ==> LoadedLineRow(l, lines'[l], row))
    ensures var k := OKey(w, d, o);
            && OrdersUpTo(order[k := row], w, d, o + 1, cIds)
            && NewOrdersMatch(order[k := row], if o > LOADED_DELIVERED then newOrder + {k} else newOrder)
            && LoadedOrderLine(order[k := row], lines')
  {
    assert OKey(w, d, o) !in order;
  }

  lemma NextLoadedDistrict(order: map<OKey, Order>, w: nat, d: nat, cIds: seq<nat>)
    requires OrdersUpTo(order, w, d, CUSTOMERS + 1, cIds)
    ensures OrdersUpTo(order, w, d + 1, 1, cIds)
  {
  }

  lemma NextLoadedWarehouse(order: map<OKey, Order>, w: nat, cIds: seq<nat>)
    requires OrdersUpTo(order, w, DISTRICTS + 1, 1, cIds)
    ensures OrdersUpTo(order, w + 1, 1, 1, cIds)
  {
  }

  function Elements(s: seq<nat>): (e: set<nat>)
    ensures forall x :: x in e <==> x in s
  {
    if s == [] then {} else {s[0]} + Elements(s[1..])
  }

  lemma {:induction false} DistinctSize(s: seq<nat>)
    requires Distinct(s)
    ensures |Elements(s)| == |s|
  {
    if s != [] {
      DistinctSize(s[1..]);
    }
  }

  function UpTo(n: nat): (e: set<nat>)
    ensures |e| == n && forall x :: x in e <==> 1 <= x <= n
  {
    if n == 0 then {} else UpTo(n - 1) + {n}
  }

  /** Distinct customer numbers, as many as there are customers, are all of them. */
  lemma EveryCustomerOccurs(cIds: seq<nat>, c: nat)
    requires |cIds| == CUSTOMERS && Distinct(cIds) && (forall x :: x in cIds ==> IsCustomer(x)) && IsCustomer(c)
    ensures c in cIds
  {
    hide Distinct;
    DistinctSize(cIds);
    if c !in cIds {
      assert Elements(cIds) <= UpTo(CUSTOMERS) - {c};
      SubsetSize(Elements(cIds), UpTo(CUSTOMERS) - {c});
    }
  }

  lemma {:induction false} SubsetSize(a: set<nat>, b: set<nat>)
    requires a <= b
    ensures |a| <= |b|
  {
    if a != {} {
      var x :| x in a;
      SubsetSize(a - {x}, b - {x});
    }
  }

  /** The shuffle gives every customer of every district one order. */
  lemma OneOrderEach(warehouses: nat, order: map<OKey, Order>, cIds: seq<nat>)
    requires LoadedOrder(warehouses, order) && LoadedFrom(order, cIds)
    requires |cIds| == CUSTOMERS && Distinct(cIds) && forall c :: c in cIds ==> IsCustomer(c)
    ensures LoadedOwners(warehouses, order)
  {
    forall w, d, c | IsWarehouse(warehouses, w) && IsDistrict(d) && IsCustomer(c) ensures HasOneOrder(order, w, d, c) {
      EveryCustomerOccurs(cIds, c);
      var i :| 0 <= i < |cIds| && cIds[i] == c;
      assert IsOnlyOrder(order, w, d, c, i + 1);
    }
  }

  lemma NothingLoaded(cIds: seq<nat>)
    ensures OrdersUpTo(map[], 1, 1, 1, cIds)
  {
  }

  lemma AtItsPlace(order: map<OKey, Order>, cIds: seq<nat>)
    requires LoadedFrom(order, cIds)
    ensures forall k :: k in order ==> 1 <= k.o <= |cIds| && order[k].c == cIds[k.o - 1]
  {
  }

  /** `cIds` is the shuffle of the customer numbers, which is the same in every district. */
  method LoadOrder(r: Generator, warehouses: nat, cIds: seq<nat>)
    returns (order: map<OKey, Order>, newOrder: set<OKey>, lines: map<OLKey, OrderLine>)
    requires r.Valid() && |cIds| == CUSTOMERS && forall c :: c in cIds ==> IsCustomer(c)
    modifies r
    ensures r.Valid() && LoadedOrder(warehouses, order) && LoadedNewOrder(warehouses, newOrder)
    ensures LoadedOrderLine(order, lines)
    ensures forall k :: k in order ==> order[k].c == cIds[k.o - 1]
    ensures LoadedFrom(order, cIds) && (Distinct(cIds) ==> LoadedOwners(warehouses, order))
  {
    hide LoadedOwners, LoadedFrom;
    order, newOrder, lines := map[], {}, map[];
    NothingLoaded(cIds);
    var ts := 0;
    for w := 1 to warehouses + 1
      invariant r.Valid() && OrdersUpTo(order, w, 1, 1, cIds) && ts == OrdersBefore(w, 1)
      invariant NewOrdersMatch(order, newOrder) && LoadedOrderLine(order, lines)
    {
      for d := 1 to DISTRICTS + 1
        invariant r.Valid() && OrdersUpTo(order, w, d, 1, cIds) && ts == OrdersBefore(w, d)
        invariant NewOrdersMatch(order, newOrder) && LoadedOrderLine(order, lines)
      {
        for o := 1 to CUSTOMERS + 1
          invariant r.Valid() && OrdersUpTo(order, w, d, o, cIds) && ts == OrdersBefore(w, d) + o - 1
          invariant NewOrdersMatch(order, newOrder) && LoadedOrderLine(order, lines)
        {
          ts := ts + 1;
          var k := OKey(w, d, o);
          var row := LoadOrderRow(r, k, cIds[o - 1], ts);
          var lines' := LoadLines(r, k, row, lines);
          AddLoadedOrder(order, newOrder, lines, w, d, o, row, lines', cIds);
          order := order[k := row];
          if o >= 2101 {
            newOrder := newOrder + {k};
          }
          lines := lines';
        }
        NextLoadedDistrict(order, w, d, cIds);
      }
      NextLoadedWarehouse(order, w, cIds);
    }
    AtItsPlace(order, cIds);
    if Distinct(cIds) {
      OneOrderEach(warehouses, order, cIds);
    }
  }

  /** The two side caches of run_tpcc: everything starts at order 3000. */
  method LoadCaches(warehouses: nat) returns (pending: map<DKey, nat>, latest: map<CKey, nat>)
    ensures LoadedPending(warehouses, pending) && LoadedLatest(warehouses, latest)
  {
    pending, latest := map[], map[];
    for w := 1 to warehouses + 1
      invariant forall k :: k in pending <==> Passed(k.w, k.d, w, 1)
      invariant forall k :: k in latest <==> PassedInner(k.w, k.d, k.c, w, 1, 1, CUSTOMERS)
      invariant forall k :: k in pending ==> pending[k] == LAST_LOADED
      invariant forall k :: k in latest ==> latest[k] == LAST_LOADED
    {
      for d := 1 to DISTRICTS + 1
        invariant forall k :: k in pending <==> Passed(k.w, k.d, w, d)
        invariant forall k :: k in latest <==> PassedInner(k.w, k.d, k.c, w, d, 1, CUSTOMERS)
        invariant forall k :: k in pending ==> pending[k] == LAST_LOADED
        invariant forall k :: k in latest ==> latest[k] == LAST_LOADED
      {
        pending := pending[DKey(w, d) := LAST_LOADED];
        for c := 1 to CUSTOMERS + 1
          invariant forall k :: k in latest <==> PassedInner(k.w, k.d, k.c, w, d, c, CUSTOMERS)
          invariant forall k :: k in latest ==> latest[k] == LAST_LOADED
        {
          latest := latest[CKey(w, d, c) := LAST_LOADED];
        }
      }
    }
  }

  /** All tables: the state in which the workers start. */
  method Load(r: Generator, warehouses: nat, cIds: seq<nat>) returns (db: Db)
    requires r.Valid() && |cIds| == CUSTOMERS && Distinct(cIds) && forall c :: c in cIds ==> IsCustomer(c)
    modifies r
    ensures r.Valid() && Loaded(warehouses, db) && LoadedFrom(db.order, cIds)
  {
    hide LoadedWarehouse, LoadedDistrict, LoadedCustomer, LoadedHistory, LoadedItem, LoadedStock, LoadedOrder,
         LoadedOwners, LoadedFrom, LoadedNewOrder, LoadedOrderLine, LoadedPending, LoadedLatest;
    var warehouse := LoadWarehouse(warehouses);
    var district := LoadDistrict(warehouses);
    var customer := LoadCustomer(warehouses);
    var history := LoadHistory(warehouses);
    var item := LoadItem(r);
    var stock := LoadStock(r, warehouses);
    var order, newOrder, orderLine := LoadOrder(r, warehouses, cIds);
    var pending, latest := LoadCaches(warehouses);
    db := Db(warehouse, district, customer, history, item, stock, order, newOrder, orderLine, pending, latest);
  }
}
