/**
 The transactions as the code runs them, statement by statement on the tables. Each is
 proved to have the outcome of its step program run alone, which is one of the
 interleaved runs.
 */
module Transactions {
  import opened Schema
  import opened OrderedScan
  import opened Engine
  import opened DeliveryScan
  import opened Workers
  import opened Uninterrupted
  import opened Outcomes
  import opened WholeDelivery
  import opened RunOutcomes
  import opened FastRandom
  import opened Lcg

  /** g_new_order_remote_item_pct and g_uniform_item_dist. */
  datatype Options = Options(remotePct: nat, uniformItems: bool)

  /** The draws of one item, from state `before` of the generator to state `after`. */
  ghost predicate LineDrawn(before: nat, l: LineArgs, after: nat, warehouses: nat, w: nat, options: Options)
    requires warehouses >= 1
  {
    var s := if options.uniformItems then Next(before) else Next(Next(before));
    && l.item == (if options.uniformItems then Pick(before, 1, ITEMS) else NonUniform(before, 8191, 7911, 1, ITEMS))
    && if Pick(s, 1, 100) > options.remotePct || warehouses == 1
       then l.supply == w && QuantityDrawn(Next(s), l, after)
       else RemoteDrawn(Next(s), l, after, warehouses, w)
  }

  ghost predicate RemoteDrawn(before: nat, l: LineArgs, after: nat, warehouses: nat, w: nat)
    requires warehouses >= 1
  {
    exists retries, mid :: IsFirstOther(before, l.supply, mid, warehouses, w, retries) && QuantityDrawn(mid, l, after)
  }

  predicate QuantityDrawn(before: nat, l: LineArgs, after: nat)
  {
    l.quantity == Pick(before, 1, 10) && after == Next(before)
  }

  /** The draws of a new order, item by item, from state `before` of the generator on. */
  ghost predicate NewOrderDrawn(before: nat, a: NewOrderArgs, seeds: seq<nat>, warehouses: nat, options: Options)
    requires warehouses >= 1
  {
    && a.d == Pick(before, 1, 10) && a.c == NonUniform(Next(before), 1023, 259, 1, CUSTOMERS)
    && |a.lines| == Pick(Next(Next(Next(before))), 5, 15)
    && |seeds| == |a.lines| + 1 && seeds[0] == Next(Next(Next(Next(before))))
    && forall i :: 0 <= i < |a.lines| ==> LineDrawn(seeds[i], a.lines[i], seeds[i + 1], warehouses, a.w, options)
  }

  /** The draws at the start of txn_new_order; `allLocal` is the flag that the order row will carry. */
  method DrawNewOrder(r: Generator, warehouses: nat, w: nat, options: Options)
    returns (a: NewOrderArgs, allLocal: bool, ghost seeds: seq<nat>)
    requires r.Valid() && 1 <= w <= warehouses <= INT_MAX
    modifies r
    ensures r.Valid() && ValidNewOrder(warehouses, a) && a.w == w
    ensures NewOrderDrawn(old(r.seed), a, seeds, warehouses, options) && seeds[|seeds| - 1] == r.seed
    ensures allLocal <==> forall i :: 0 <= i < |a.lines| ==> a.lines[i].supply == w
    ensures warehouses == 1 || options.remotePct == 0 ==> allLocal
  {
    hide NonUniform, Pick, Next, IsFirstOther, LineDrawn;
    var d := r.RandomNumber(1, DISTRICTS);
    var c := r.GetCustomerId();
    var items := r.RandomNumber(5, 15);
    var lines := [];
    allLocal, seeds := true, [r.seed];
    for i := 0 to items
      invariant r.Valid() && |lines| == i
      invariant forall l :: l in lines ==> ValidLine(warehouses, l)
      invariant allLocal <==> forall j :: 0 <= j < i ==> lines[j].supply == w
      invariant warehouses == 1 || options.remotePct == 0 ==> allLocal
      invariant |seeds| == i + 1 && seeds[i] == r.seed && seeds[0] == Next(Next(Next(Next(old(r.seed)))))
      invariant forall j :: 0 <= j < i ==> LineDrawn(seeds[j], lines[j], seeds[j + 1], warehouses, w, options)
    {
      var l, remote := DrawLine(r, warehouses, w, options);
      if remote {
        allLocal := false;
      }
      assert forall j :: 0 <= j < i ==> (lines + [l])[j] == lines[j];
      assert (lines + [l])[i] == l;
      lines := lines + [l];
      seeds := seeds + [r.seed];
    }
    a := NewOrderArgs(w, d, c, lines);
  }

  method DrawLine(r: Generator, warehouses: nat, w: nat, options: Options) returns (l: LineArgs, remote: bool)
    requires r.Valid() && 1 <= w <= warehouses <= INT_MAX
    modifies r
    ensures r.Valid() && ValidLine(warehouses, l)
    ensures LineDrawn(old(r.seed), l, r.seed, warehouses, w, options)
    ensures remote <==> l.supply != w
    ensures warehouses == 1 || options.remotePct == 0 ==> !remote
  {
    hide NonUniform, Next, IsFirstOther;
    var item := r.GetItemId(options.uniformItems);
    ghost var s := r.seed;
    var pct := r.RandomNumber(1, 100);
    var supply := w;
    remote := false;
    ghost var retries := 0;
    if !(pct > options.remotePct || warehouses == 1) {
      remote := true;
      supply, retries := r.OtherWarehouse(warehouses, w);
    }
    ghost var mid := r.seed;
    var quantity := r.RandomNumber(1, 10);
    l := LineArgs(item, supply, quantity);
    assert QuantityDrawn(mid, l, r.seed);
    if remote {
      assert IsFirstOther(Next(s), l.supply, mid, warehouses, w, retries);
      assert RemoteDrawn(Next(s), l, r.seed, warehouses, w);
    }
  }

  /** The draws of a payment after its customer's warehouse is known. */
  predicate AmountDrawn(before: nat, a: PaymentArgs, after: nat)
  {
    && a.amount == Pick(before, 100, 500000) && a.c == NonUniform(Next(before), 1023, 259, 1, CUSTOMERS)
    && after == Next(Next(Next(before)))
  }

  /** The draws of a payment: 15 of 100 are for the customer of another warehouse. */
  ghost predicate PaymentDrawn(before: nat, a: PaymentArgs, after: nat, warehouses: nat)
    requires warehouses >= 1
  {
    var s := Next(before);
    && a.d == Pick(before, 1, 10)
    && if warehouses == 1 then a.cw == a.w && a.cd == a.d && AmountDrawn(s, a, after)
       else if Pick(s, 1, 100) <= 85 then a.cw == a.w && a.cd == a.d && AmountDrawn(Next(s), a, after)
       else
         && a.cd == Pick(Next(s), 1, 10)
         && exists retries, mid :: IsFirstOther(Next(Next(s)), a.cw, mid, warehouses, a.w, retries)
                                   && AmountDrawn(mid, a, after)
  }

  /** The draws at the start of txn_payment, with the date taken from the thread's counter. */
  method DrawPayment(r: Generator, clock: ThreadClock, warehouses: nat, w: nat) returns (a: PaymentArgs)
    requires r.Valid() && 1 <= w <= warehouses <= INT_MAX
    modifies r, clock
    ensures r.Valid() && clock.next == Inc32(old(clock.next))
    ensures ValidPayment(warehouses, a) && a.w == w && a.date == old(clock.next)
    ensures PaymentDrawn(old(r.seed), a, r.seed, warehouses)
  {
    hide NonUniform, Next, IsFirstOther;
    var d := r.RandomNumber(1, 10);
    var cd, cw := d, w;
    var home := warehouses == 1;
    ghost var s := r.seed;
    if !home {
      var pct := r.RandomNumber(1, 100);
      home := pct <= 85;
    }
    if !home {
      cd := r.RandomNumber(1, 10);
      ghost var retries;
      cw, retries := r.OtherWarehouse(warehouses, w);
      assert IsFirstOther(Next(Next(s)), cw, r.seed, warehouses, w, retries);
    }
    ghost var mid := r.seed;
    var amount := r.RandomNumber(100, 500000);
    var date := clock.GetCurrentTimeMillis();
    var c := r.GetCustomerId();
    a := PaymentArgs(w, d, cw, cd, c, amount, date);
    assert AmountDrawn(mid, a, r.seed);
  }

  class Tables {
    var warehouse: map<nat, int>
    var district: map<DKey, District>
    var customer: map<CKey, Customer>
    var history: map<HKey, int>
    var item: map<nat, nat>
    var stock: map<SKey, Stock>
    var order: map<OKey, Order>
    var newOrder: set<OKey>
    var orderLine: map<OLKey, OrderLine>
    var pending: map<DKey, nat>
    var latest: map<CKey, nat>

    function Contents(): Db
      reads this
    {
      Db(warehouse, district, customer, history, item, stock, order, newOrder, orderLine, pending, latest)
    }

    constructor (db: Db)
      ensures Contents() == db
    {
      warehouse, district, customer, history := db.warehouse, db.district, db.customer, db.history;
      item, stock, order, newOrder := db.item, db.stock, db.order, db.newOrder;
      orderLine, pending, latest := db.orderLine, db.pending, db.latest;
    }

    // ----- txn_payment

    /** The warehouse and the district. */
    method CollectAmount(a: PaymentArgs, clock: ThreadClock)
      requires Finish(Point(Contents(), Payment(PayReadWarehouse(a)), clock.next)).Finished?
      modifies this
      ensures old(Finish(Point(Contents(), Payment(PayReadWarehouse(a)), clock.next)))
           == Finish(Point(Contents(), Payment(PayReadCustomer(a)), clock.next))
    {
      hide Finish;
      ghost var x := Advance(Point(Contents(), Payment(PayReadWarehouse(a)), clock.next));
      var ytd := warehouse[a.w];
      x := Advance(x);
      warehouse := warehouse[a.w := ytd + a.amount];
      x := Advance(x);
      var d := district[DKey(a.w, a.d)];
      x := Advance(x);
      district := district[DKey(a.w, a.d) := Collected(d, a.amount)];
    }

    /** The customer and the history. */
    method PayCustomer(a: PaymentArgs, clock: ThreadClock)
      requires Finish(Point(Contents(), Payment(PayReadCustomer(a)), clock.next)).Finished?
      modifies this
      ensures old(Finish(Point(Contents(), Payment(PayReadCustomer(a)), clock.next)))
           == Finished(Contents(), clock.next)
    {
      hide Finish;
      ghost var x := Advance(Point(Contents(), Payment(PayReadCustomer(a)), clock.next));
      var c := customer[CustomerOf(a)];
      x := Advance(x);
      customer := customer[CustomerOf(a) := Paid(c, a.amount)];
      x := Advance(x);
      history := history[HistoryKey(a) := a.amount];
      Done(x);
    }

    method Pay(a: PaymentArgs, clock: ThreadClock)
      requires Finish(Point(Contents(), Payment(PayReadWarehouse(a)), clock.next)).Finished?
      modifies this
      ensures old(Finish(Point(Contents(), Payment(PayReadWarehouse(a)), clock.next)))
           == Finished(Contents(), clock.next)
    {
      hide Finish;
      CollectAmount(a, clock);
      PayCustomer(a, clock);
    }

    // ----- txn_new_order

    /** Up to the order row. */
    method TakeOrder(a: NewOrderArgs, allLocal: bool, clock: ThreadClock) returns (row: District)
      requires allLocal <==> forall l :: l in a.lines ==> l.supply == a.w
      requires Finish(Point(Contents(), NewOrder(NoReadDistrict(a)), clock.next)).Finished?
      modifies this, clock
      ensures old(Finish(Point(Contents(), NewOrder(NoReadDistrict(a)), clock.next)))
           == Finish(Point(Contents(), NextItem(a, row, 0), clock.next))
    {
      hide Finish;
      ghost var x := Advance(Point(Contents(), NewOrder(NoReadDistrict(a)), clock.next));
      row := district[DKey(a.w, a.d)];
      x := Advance(x);
      row := Bumped(row);
      district := district[DKey(a.w, a.d) := row];
      x := Advance(x);
      newOrder := newOrder + {NewKey(a, row)};
      x := Advance(x);
      pending := pending[DKey(a.w, a.d) := row.next];
      x := Advance(x);
      latest := latest[CKey(a.w, a.d, a.c) := row.next];
      x := Advance(x);
      var now := clock.GetCurrentTimeMillis();
      order := order[NewKey(a, row) := Order(a.c, 0, |a.lines|, allLocal, now)];
    }

    /** One item: its stock row and its order line, unless the item is missing. */
    method EnterLine(a: NewOrderArgs, row: District, i: nat, clock: ThreadClock) returns (found: bool)
      requires i < |a.lines| && Finish(Point(Contents(), NewOrder(NoReadItem(a, row, i)), clock.next)).Finished?
      modifies this
      ensures old(Finish(Point(Contents(), NewOrder(NoReadItem(a, row, i)), clock.next)))
           == Finish(Point(Contents(), if found then NextItem(a, row, i + 1) else NewOrder(NoUndoDistrict(a, row)),
                           clock.next))
    {
      hide Finish;
      var l := a.lines[i];
      ghost var x := Advance(Point(Contents(), NewOrder(NoReadItem(a, row, i)), clock.next));
      found := l.item in item;
      if found {
        var price := item[l.item];
        x := Advance(x);
        var s := stock[SKey(l.supply, l.item)];
        x := Advance(x);
        stock := stock[SKey(l.supply, l.item) := Restock(s, l.quantity, l.supply != a.w)];
        x := Advance(x);
        var line := OrderLine(l.item, 0, l.quantity * price, l.supply, l.quantity);
        orderLine := orderLine[OLKey(a.w, a.d, row.next, i + 1) := line];
      }
    }

    /** The abort branch. */
    method Undo(a: NewOrderArgs, row: District, clock: ThreadClock)
      requires Finish(Point(Contents(), NewOrder(NoUndoDistrict(a, row)), clock.next)).Finished?
      modifies this
      ensures old(Finish(Point(Contents(), NewOrder(NoUndoDistrict(a, row)), clock.next)))
           == Finished(Contents(), clock.next)
    {
      hide Finish;
      ghost var x := Advance(Point(Contents(), NewOrder(NoUndoDistrict(a, row)), clock.next));
      district := district[DKey(a.w, a.d) := Unbumped(row)];
      x := Advance(x);
      newOrder := newOrder - {NewKey(a, row)};
      x := Advance(x);
      order := order - {NewKey(a, row)};
      Done(x);
    }

    method Enter(a: NewOrderArgs, allLocal: bool, clock: ThreadClock)
      requires allLocal <==> forall l :: l in a.lines ==> l.supply == a.w
      requires Finish(Point(Contents(), NewOrder(NoReadDistrict(a)), clock.next)).Finished?
      modifies this, clock
      ensures old(Finish(Point(Contents(), NewOrder(NoReadDistrict(a)), clock.next)))
           == Finished(Contents(), clock.next)
    {
      hide Finish;
      var row := TakeOrder(a, allLocal, clock);
      for i := 0 to |a.lines|
        invariant old(Finish(Point(Contents(), NewOrder(NoReadDistrict(a)), clock.next)))
               == Finish(Point(Contents(), NextItem(a, row, i), clock.next))
      {
        var found := EnterLine(a, row, i, clock);
        if !found {
          Undo(a, row, clock);
          return;
        }
      }
      Done(Point(Contents(), Idle, clock.next));
    }

    // ----- txn_delivery

    /** The newest order of one district, if it has a new_order row; `aborted` if its order row is missing. */
    method TakeNewest(a: DeliveryArgs, d: nat, clock: ThreadClock)
      returns (aborted: bool, taken: bool, o: nat, v: Order)
      requires Finish(Point(Contents(), Delivery(DelReadPending(a, d)), clock.next)).Finished?
      modifies this
      ensures old(Finish(Point(Contents(), Delivery(DelReadPending(a, d)), clock.next)))
           == Finish(Point(Contents(),
                           if aborted then Idle
                           else if taken then Delivery(DelScanLines(a, d, o, v))
                           else NextDistrict(a, d + 1), clock.next))
    {
      hide Finish;
      aborted, taken, v := false, false, Order(0, 0, 0, false, 0);
      ghost var x := Advance(Point(Contents(), Delivery(DelReadPending(a, d)), clock.next));
      o := pending[DKey(a.w, d)];
      x := Advance(x);
      var k := OKey(a.w, d, o);
      if k in newOrder {
        x := Advance(x);
        if k !in order {
          aborted := true;
        } else {
          v := order[k];
          x := Advance(x);
          newOrder := newOrder - {k};
          x := Advance(x);
          v := v.(carrier := a.carrier);
          order := order[k := v];
          taken := true;
        }
      }
    }

    /** Scans, dates and adds up lines. */
    method DateLines(a: DeliveryArgs, d: nat, o: nat, v: Order, clock: ThreadClock) returns (total: int)
      requires Finish(Point(Contents(), Delivery(DelScanLines(a, d, o, v)), clock.next)).Finished?
      modifies this, clock
      ensures old(Finish(Point(Contents(), Delivery(DelScanLines(a, d, o, v)), clock.next)))
           == Finish(Point(Contents(), Delivery(DelReadCustomer(a, d, o, v, total)), clock.next))
    {
      hide Finish, Scan;
      ghost var x := Advance(Point(Contents(), Delivery(DelScanLines(a, d, o, v)), clock.next));
      var rows := Scan(orderLine, OLKey(a.w, d, o, 0), SCANNED);
      total := 0;
      for i := 0 to |rows|
        invariant x == Point(Contents(), NextLine(a, d, o, v, rows, i, total), clock.next)
        invariant Finish(x) == old(Finish(Point(Contents(), Delivery(DelScanLines(a, d, o, v)), clock.next)))
      {
        x := Advance(x);
        var (k, line) := rows[i];
        total := total + line.amount;
        var now := clock.GetCurrentTimeMillis();
        orderLine := orderLine[k := line.(delivered := now)];
      }
    }

    /** The customer of a delivered order. */
    method CreditCustomer(a: DeliveryArgs, d: nat, o: nat, v: Order, total: int, clock: ThreadClock)
      requires Finish(Point(Contents(), Delivery(DelReadCustomer(a, d, o, v, total)), clock.next)).Finished?
      modifies this
      ensures old(Finish(Point(Contents(), Delivery(DelReadCustomer(a, d, o, v, total)), clock.next)))
           == Finish(Point(Contents(), NextDistrict(a, d + 1), clock.next))
    {
      hide Finish;
      ghost var x := Advance(Point(Contents(), Delivery(DelReadCustomer(a, d, o, v, total)), clock.next));
      var ck := CKey(a.w, d, v.c);
      var c := customer[ck];
      x := Advance(x);
      customer := customer[ck := Credited(c, total)];
    }

    method CreditOrder(a: DeliveryArgs, d: nat, o: nat, v: Order, clock: ThreadClock)
      requires Finish(Point(Contents(), Delivery(DelScanLines(a, d, o, v)), clock.next)).Finished?
      modifies this, clock
      ensures old(Finish(Point(Contents(), Delivery(DelScanLines(a, d, o, v)), clock.next)))
           == Finish(Point(Contents(), NextDistrict(a, d + 1), clock.next))
    {
      hide Finish;
      var total := DateLines(a, d, o, v, clock);
      CreditCustomer(a, d, o, v, total, clock);
    }

    method Deliver(a: DeliveryArgs, clock: ThreadClock)
      requires Finish(Point(Contents(), Delivery(DelReadPending(a, 1)), clock.next)).Finished?
      modifies this, clock
      ensures old(Finish(Point(Contents(), Delivery(DelReadPending(a, 1)), clock.next)))
           == Finished(Contents(), clock.next)
    {
      hide Finish;
      for d := 1 to DISTRICTS + 1
        invariant old(Finish(Point(Contents(), Delivery(DelReadPending(a, 1)), clock.next)))
               == Finish(Point(Contents(), NextDistrict(a, d), clock.next))
      {
        var aborted, taken, o, v := TakeNewest(a, d, clock);
        if aborted {
          Done(Point(Contents(), Idle, clock.next));
          return;
        }
        if taken {
          CreditOrder(a, d, o, v, clock);
        }
      }
      Done(Point(Contents(), Idle, clock.next));
    }

    // ----- the transactions, by worker `i` of a configuration in state `s`

    method TxnPayment(r: Generator, w: nat, clock: ThreadClock, warehouses: nat,
                      ghost cfg: Config, ghost first: map<SKey, nat>, ghost s: State, ghost i: nat)
      returns (ghost a: PaymentArgs, ghost moves: seq<Move>)
      requires MayStart(cfg, first, s, i, w) && warehouses == cfg.warehouses <= INT_MAX && 1 <= w <= warehouses
      requires r.Valid() && s.db == Contents() && s.clocks[i] == clock.next
      modifies this, r, clock
      ensures r.Valid() && ValidPayment(warehouses, a) && a.w == w && a.date == old(clock.next)
      ensures PaymentDrawn(old(r.seed), a, r.seed, warehouses)
      ensures IsTransaction(cfg, s, i, Payment(PayReadWarehouse(a)), moves, Contents(), clock.next)
      ensures Inv(cfg, first, Moved(s, i, Point(Contents(), Idle, clock.next)))
      ensures a.w in s.db.warehouse && DKey(a.w, a.d) in s.db.district && CKey(a.cw, a.cd, a.c) in s.db.customer
      ensures PaymentMade(s.db, Contents(), a) && clock.next == Inc32(old(clock.next))
    {
      hide Inv, Finish, IsTransaction, PaymentMade, PaymentDrawn, OwnedBy;
      var args := DrawPayment(r, clock, warehouses, w);
      a := args;
      moves := TransactionRuns(cfg, first, s, i, Payment(PayReadWarehouse(a)));
      PaymentRowsExist(cfg, first, s, i, a);
      PaymentOutcome(s.db, a, clock.next);
      Pay(args, clock);
    }

    method TxnNewOrder(r: Generator, w: nat, clock: ThreadClock, warehouses: nat, options: Options,
                       ghost cfg: Config, ghost first: map<SKey, nat>, ghost s: State, ghost i: nat)
      returns (ghost a: NewOrderArgs, ghost moves: seq<Move>)
      requires MayStart(cfg, first, s, i, w) && warehouses == cfg.warehouses <= INT_MAX && 1 <= w <= warehouses
      requires r.Valid() && s.db == Contents() && s.clocks[i] == clock.next
      modifies this, r, clock
      ensures r.Valid() && ValidNewOrder(warehouses, a) && a.w == w
      ensures exists seeds :: NewOrderDrawn(old(r.seed), a, seeds, warehouses, options)
      ensures IsTransaction(cfg, s, i, NewOrder(NoReadDistrict(a)), moves, Contents(), clock.next)
      ensures Inv(cfg, first, Moved(s, i, Point(Contents(), Idle, clock.next)))
      ensures DKey(a.w, a.d) in s.db.district && clock.next == Inc32(old(clock.next))
      ensures OrderEntered(s.db, Contents(), a, s.db.district[DKey(a.w, a.d)].next + 1, old(clock.next))
    {
      hide Inv, Finish, IsTransaction, OrderEntered, NewOrderDrawn, OwnedBy;
      var args, allLocal, seeds := DrawNewOrder(r, warehouses, w, options);
      a := args;
      moves := TransactionRuns(cfg, first, s, i, NewOrder(NoReadDistrict(a)));
      NewOrderRowsExist(cfg, first, s, i, a);
      NewOrderOutcome(s.db, a, clock.next);
      Enter(args, allLocal, clock);
    }

    method TxnDelivery(r: Generator, w: nat, clock: ThreadClock, warehouses: nat,
                       ghost cfg: Config, ghost first: map<SKey, nat>, ghost s: State, ghost i: nat)
      returns (ghost a: DeliveryArgs, ghost moves: seq<Move>)
      requires MayStart(cfg, first, s, i, w) && warehouses == cfg.warehouses <= INT_MAX && 1 <= w <= warehouses
      requires r.Valid() && s.db == Contents() && s.clocks[i] == clock.next
      modifies this, r, clock
      ensures r.Valid() && ValidDelivery(warehouses, a) && a.w == w
      ensures a.carrier == Pick(old(r.seed), 1, 10) && r.seed == Next(old(r.seed))
      ensures IsTransaction(cfg, s, i, Delivery(DelReadPending(a, 1)), moves, Contents(), clock.next)
      ensures Inv(cfg, first, Moved(s, i, Point(Contents(), Idle, clock.next)))
      ensures Served(s.db, Contents(), a, 1, 11, old(clock.next))
      ensures forall d :: IsDistrict(d) && Awaits(s.db, a.w, d) ==>
                ServesItsOrder(s.db, Contents(), a, old(clock.next), d)
    {
      hide Inv, Finish, IsTransaction, Served, Awaits, ServesItsOrder, OwnedBy;
      var carrier := r.RandomNumber(1, DISTRICTS);
      var args := DeliveryArgs(w, carrier);
      a := args;
      moves := TransactionRuns(cfg, first, s, i, Delivery(DelReadPending(a, 1)));
      ghost var end := DeliveryServes(cfg, first, s, i, a, clock.next);
      Deliver(args, clock);
    }
  }
}
