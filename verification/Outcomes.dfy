/**
 What a whole transaction does to the tables when nobody interrupts it, stated on the rows
 and not on the steps.
 */
module Outcomes {
  import opened Schema
  import opened OrderedScan
  import opened Engine

  // ----- payment

  /** The warehouse and district rows. */
  lemma CollectOutcome(db: Db, a: PaymentArgs, clock: nat) returns (next: Db)
    requires a.w in db.warehouse && DKey(a.w, a.d) in db.district
    ensures Finish(Point(db, Payment(PayReadWarehouse(a)), clock))
         == Finish(Point(next, Payment(PayReadCustomer(a)), clock))
    ensures var d := db.district[DKey(a.w, a.d)];
            next == db.(warehouse := db.warehouse[a.w := db.warehouse[a.w] + a.amount],
                        district := db.district[DKey(a.w, a.d) := District(d.ytd + a.amount, d.next)])
  {
    hide Finish;
    var x := Point(db, Payment(PayReadWarehouse(a)), clock);
    Onward(x);
    x := Step(x);
    Onward(x);
    x := Step(x);
    Onward(x);
    x := Step(x);
    Onward(x);
    next := Step(x).db;
  }

  /** The customer and history rows. */
  lemma PaidOutcome(db: Db, a: PaymentArgs, clock: nat) returns (next: Db)
    requires CKey(a.cw, a.cd, a.c) in db.customer
    ensures Finish(Point(db, Payment(PayReadCustomer(a)), clock)) == Finished(next, clock)
    ensures var c := db.customer[CKey(a.cw, a.cd, a.c)];
            next == db.(customer := db.customer[CKey(a.cw, a.cd, a.c)
                          := Customer(c.balance - a.amount, c.ytdPayment + a.amount, c.paymentCnt + 1, c.deliveryCnt)],
                        history := db.history[HKey(a.w, a.d, a.cw, a.cd, a.c, a.date) := a.amount])
  {
    hide Finish;
    var x := Point(db, Payment(PayReadCustomer(a)), clock);
    Onward(x);
    x := Step(x);
    Onward(x);
    x := Step(x);
    Onward(x);
    x := Step(x);
    Done(x);
    next := x.db;
  }

  /** The four rows that a payment changes; `end` has no other change. */
  ghost predicate PaymentMade(db: Db, end: Db, a: PaymentArgs)
    requires a.w in db.warehouse && DKey(a.w, a.d) in db.district && CKey(a.cw, a.cd, a.c) in db.customer
  {
    var d, c := db.district[DKey(a.w, a.d)], db.customer[CKey(a.cw, a.cd, a.c)];
    && end.warehouse == db.warehouse[a.w := db.warehouse[a.w] + a.amount]
    && end.district == db.district[DKey(a.w, a.d) := District(d.ytd + a.amount, d.next)]
    && end.customer == db.customer[CKey(a.cw, a.cd, a.c)
         := Customer(c.balance - a.amount, c.ytdPayment + a.amount, c.paymentCnt + 1, c.deliveryCnt)]
    && end.history == db.history[HKey(a.w, a.d, a.cw, a.cd, a.c, a.date) := a.amount]
    && end == db.(warehouse := end.warehouse, district := end.district, customer := end.customer, history := end.history)
  }

  lemma BothParts(db: Db, mid: Db, end: Db, a: PaymentArgs)
    requires a.w in db.warehouse && DKey(a.w, a.d) in db.district && CKey(a.cw, a.cd, a.c) in db.customer
    requires var d := db.district[DKey(a.w, a.d)];
             mid == db.(warehouse := db.warehouse[a.w := db.warehouse[a.w] + a.amount],
                        district := db.district[DKey(a.w, a.d) := District(d.ytd + a.amount, d.next)])
    requires var c := db.customer[CKey(a.cw, a.cd, a.c)];
             end == mid.(customer := db.customer[CKey(a.cw, a.cd, a.c)
                           := Customer(c.balance - a.amount, c.ytdPayment + a.amount, c.paymentCnt + 1, c.deliveryCnt)],
                         history := db.history[HKey(a.w, a.d, a.cw, a.cd, a.c, a.date) := a.amount])
    ensures PaymentMade(db, end, a)
  {
  }

  /** A payment adds its amount to four rows and touches no other. */
  lemma PaymentOutcome(db: Db, a: PaymentArgs, clock: nat)
    requires a.w in db.warehouse && DKey(a.w, a.d) in db.district && CKey(a.cw, a.cd, a.c) in db.customer
    ensures var end := Finish(Point(db, Payment(PayReadWarehouse(a)), clock));
            end.Finished? && end.clock == clock && PaymentMade(db, end.db, a)
  {
    hide Finish, PaymentMade;
    var mid := CollectOutcome(db, a, clock);
    var end := PaidOutcome(mid, a, clock);
    BothParts(db, mid, end, a);
  }

  // ----- new order

  predicate ItemFound(db: Db, l: LineArgs) { l.item in db.item && SKey(l.supply, l.item) in db.stock }

  /** The first `m` items are all there. */
  ghost predicate ItemsFound(db: Db, a: NewOrderArgs, m: nat)
    requires m <= |a.lines|
  {
    forall i :: 0 <= i < m ==> ItemFound(db, a.lines[i])
  }

  /** How often, and how many pieces of, a stock row the lines from `i` on take. */
  function TimesTaken(lines: seq<LineArgs>, k: SKey, i: nat): nat
    decreases |lines| - i
  {
    if i >= |lines| then 0
    else (if SKey(lines[i].supply, lines[i].item) == k then 1 else 0) + TimesTaken(lines, k, i + 1)
  }

  function PiecesTaken(lines: seq<LineArgs>, k: SKey, i: nat): nat
    decreases |lines| - i
  {
    if i >= |lines| then 0
    else (if SKey(lines[i].supply, lines[i].item) == k then lines[i].quantity else 0) + PiecesTaken(lines, k, i + 1)
  }

  /** What is left of `quantity` pieces after the lines from `i` on, with 91 more whenever fewer than ten would be. */
  function QuantityLeft(quantity: nat, lines: seq<LineArgs>, k: SKey, i: nat): nat
    requires InRange(lines)
    decreases |lines| - i
  {
    if i >= |lines| then quantity
    else
      assert lines[i] in lines;
      QuantityLeft(if SKey(lines[i].supply, lines[i].item) == k then NextQuantity(quantity, lines[i].quantity) else quantity,
                   lines, k, i + 1)
  }

  predicate InRange(lines: seq<LineArgs>) { forall l :: l in lines ==> 1 <= l.quantity <= 10 }

  /** The quantity stays between 10 and 100, and moves with the pieces taken modulo 91. */
  lemma {:induction false} QuantityLeftMoves(quantity: nat, lines: seq<LineArgs>, k: SKey, i: nat)
    requires InRange(lines) && 10 <= quantity <= 100
    ensures 10 <= QuantityLeft(quantity, lines, k, i) <= 100
    ensures (QuantityLeft(quantity, lines, k, i) + PiecesTaken(lines, k, i)) % 91 == quantity % 91
    decreases |lines| - i
  {
    if i < |lines| {
      assert lines[i] in lines;
      if SKey(lines[i].supply, lines[i].item) == k {
        var next := NextQuantity(quantity, lines[i].quantity);
        QuantityLeftMoves(next, lines, k, i + 1);
        Plus91(quantity);
        SumMod(QuantityLeft(next, lines, k, i + 1) + PiecesTaken(lines, k, i + 1), lines[i].quantity, next);
      } else {
        QuantityLeftMoves(quantity, lines, k, i + 1);
      }
    }
  }

  lemma SumMod(a: nat, x: nat, b: nat)
    requires a % 91 == b % 91
    ensures (a + x) % 91 == (b + x) % 91
  {
  }

  predicate IsLineOf(l: OLKey, k: OKey, from: nat, to_: nat)
  {
    OKey(l.w, l.d, l.o) == k && from <= l.n <= to_
  }

  /** Item `j` of order `k` is its line `j + 1`, undelivered, at the item's price. */
  ghost predicate LineAt(after: map<OLKey, OrderLine>, k: OKey, lines: seq<LineArgs>, prices: map<nat, nat>, j: nat)
    requires j < |lines|
  {
    var l := lines[j];
    && LineKey(k, j + 1) in after && l.item in prices
    && after[LineKey(k, j + 1)] == OrderLine(l.item, 0, l.quantity * prices[l.item], l.supply, l.quantity)
  }

  ghost predicate SameAt(before: map<OLKey, OrderLine>, after: map<OLKey, OrderLine>, l: OLKey)
  {
    (l in before <==> l in after) && (l in before && l in after ==> before[l] == after[l])
  }

  /** Order `k` has got lines `i + 1` to the last, and no other line has changed. */
  ghost predicate LinesEntered(before: map<OLKey, OrderLine>, after: map<OLKey, OrderLine>, k: OKey,
                               lines: seq<LineArgs>, prices: map<nat, nat>, i: nat)
  {
    && (forall j: nat :: i <= j < |lines| ==> LineAt(after, k, lines, prices, j))
    && (forall l :: !IsLineOf(l, k, i + 1, |lines|) ==> SameAt(before, after, l))
  }

  /** What the lines from `i` on do to stock row `k`. */
  ghost predicate RowTaken(before: Stock, after: Stock, k: SKey, w: nat, lines: seq<LineArgs>, i: nat)
  {
    && after.ytd == before.ytd + PiecesTaken(lines, k, i)
    && after.orderCnt == before.orderCnt + TimesTaken(lines, k, i)
    && after.remoteCnt == before.remoteCnt + (if k.w == w then 0 else TimesTaken(lines, k, i))
    && (TimesTaken(lines, k, i) == 0 ==> after == before)
    && (InRange(lines) && 10 <= before.quantity <= 100 ==>
         after.quantity == QuantityLeft(before.quantity, lines, k, i))
  }

  /** Every stock row counts what the lines from `i` on take from it, and whether they are remote orders. */
  ghost predicate StockTaken(before: map<SKey, Stock>, after: map<SKey, Stock>, w: nat, lines: seq<LineArgs>, i: nat)
  {
    && before.Keys == after.Keys
    && forall k :: k in before && k in after ==> RowTaken(before[k], after[k], k, w, lines, i)
  }

  lemma LineEntered(before: map<OLKey, OrderLine>, after: map<OLKey, OrderLine>, k: OKey, lines: seq<LineArgs>,
                    prices: map<nat, nat>, i: nat, line: OrderLine)
    requires i < |lines| && lines[i].item in prices
    requires line == OrderLine(lines[i].item, 0, lines[i].quantity * prices[lines[i].item],
                               lines[i].supply, lines[i].quantity)
    requires LinesEntered(before[LineKey(k, i + 1) := line], after, k, lines, prices, i + 1)
    ensures LinesEntered(before, after, k, lines, prices, i)
  {
    var l, next := LineKey(k, i + 1), before[LineKey(k, i + 1) := line];
    assert SameAt(next, after, l);
    assert LineAt(after, k, lines, prices, i);
    forall m | !IsLineOf(m, k, i + 1, |lines|) ensures SameAt(before, after, m) {
      assert SameAt(next, after, m);
    }
  }

  lemma RowTakenFirst(before: Stock, after: Stock, k: SKey, w: nat, lines: seq<LineArgs>, i: nat)
    requires i < |lines| && k == SKey(lines[i].supply, lines[i].item)
    requires RowTaken(Restock(before, lines[i].quantity, lines[i].supply != w), after, k, w, lines, i + 1)
    ensures RowTaken(before, after, k, w, lines, i)
  {
    hide Restock, NextQuantity;
    assert lines[i] in lines;
    RestockCounts(before, lines[i].quantity, lines[i].supply != w);
    if InRange(lines) && 10 <= before.quantity <= 100 {
      RestockQuantity(before, lines[i].quantity, lines[i].supply != w);
    }
  }

  lemma RowNotTakenFirst(before: Stock, after: Stock, k: SKey, w: nat, lines: seq<LineArgs>, i: nat)
    requires i < |lines| && k != SKey(lines[i].supply, lines[i].item) && RowTaken(before, after, k, w, lines, i + 1)
    ensures RowTaken(before, after, k, w, lines, i)
  {
  }

  lemma StockLineTaken(before: map<SKey, Stock>, after: map<SKey, Stock>, w: nat, lines: seq<LineArgs>, i: nat, k: SKey)
    requires i < |lines| && k == SKey(lines[i].supply, lines[i].item) && k in before
    requires StockTaken(before[k := Restock(before[k], lines[i].quantity, lines[i].supply != w)], after, w, lines, i + 1)
    ensures StockTaken(before, after, w, lines, i)
  {
    hide Restock, RowTaken;
    var next := before[k := Restock(before[k], lines[i].quantity, lines[i].supply != w)];
    forall j | j in before && j in after ensures RowTaken(before[j], after[j], j, w, lines, i) {
      assert RowTaken(next[j], after[j], j, w, lines, i + 1);
      if j == k {
        RowTakenFirst(before[j], after[j], j, w, lines, i);
      } else {
        RowNotTakenFirst(before[j], after[j], j, w, lines, i);
      }
    }
  }

  lemma RestockCounts(s: Stock, x: nat, remote: bool)
    ensures var r := Restock(s, x, remote);
            && r.ytd == s.ytd + x && r.orderCnt == s.orderCnt + 1
            && r.remoteCnt == s.remoteCnt + if remote then 1 else 0
  {
  }

  /** What items `i` to `m - 1` do. */
  ghost predicate ItemsDone(db: Db, end: Db, a: NewOrderArgs, o: nat, i: nat, m: nat)
    requires m <= |a.lines|
  {
    && StockTaken(db.stock, end.stock, a.w, a.lines[..m], i)
    && LinesEntered(db.orderLine, end.orderLine, OKey(a.w, a.d, o), a.lines[..m], db.item, i)
    && end == db.(stock := end.stock, orderLine := end.orderLine)
  }

  lemma NoItems(db: Db, a: NewOrderArgs, o: nat, m: nat)
    requires m <= |a.lines|
    ensures ItemsDone(db, db, a, o, m, m)
  {
  }

  /** The tables after item `i`. */
  function AfterItem(db: Db, a: NewOrderArgs, row: District, i: nat): Db
    requires i < |a.lines| && ItemFound(db, a.lines[i])
  {
    var l := a.lines[i];
    var k := SKey(l.supply, l.item);
    db.(stock := db.stock[k := Restock(db.stock[k], l.quantity, l.supply != a.w)],
        orderLine := db.orderLine[OLKey(a.w, a.d, row.next, i + 1)
          := OrderLine(l.item, 0, l.quantity * db.item[l.item], l.supply, l.quantity)])
  }

  lemma ItemStep(db: Db, a: NewOrderArgs, row: District, i: nat, clock: nat)
    requires i < |a.lines| && ItemFound(db, a.lines[i])
    ensures Finish(Point(db, NextItem(a, row, i), clock))
         == Finish(Point(AfterItem(db, a, row, i), NextItem(a, row, i + 1), clock))
  {
    hide Finish, Restock;
    var x := Point(db, NextItem(a, row, i), clock);
    Onward(x);
    x := Step(x);
    Onward(x);
    x := Step(x);
    Onward(x);
    x := Step(x);
    Onward(x);
  }

  lemma ItemDone(db: Db, end: Db, a: NewOrderArgs, row: District, i: nat, m: nat)
    requires i < m <= |a.lines| && ItemFound(db, a.lines[i])
    requires ItemsDone(AfterItem(db, a, row, i), end, a, row.next, i + 1, m)
    ensures ItemsDone(db, end, a, row.next, i, m)
  {
    hide StockTaken, LinesEntered, Restock;
    var l := a.lines[i];
    assert a.lines[..m][i] == l;
    StockLineTaken(db.stock, end.stock, a.w, a.lines[..m], i, SKey(l.supply, l.item));
    LineEntered(db.orderLine, end.orderLine, OKey(a.w, a.d, row.next), a.lines[..m], db.item, i,
                OrderLine(l.item, 0, l.quantity * db.item[l.item], l.supply, l.quantity));
  }

  lemma ItemsStayFound(db: Db, a: NewOrderArgs, row: District, i: nat, m: nat)
    requires i < m <= |a.lines| && ItemFound(db, a.lines[i]) && ItemsFound(db, a, m)
    ensures ItemsFound(AfterItem(db, a, row, i), a, m)
  {
  }

  lemma {:induction false} ItemsOutcome(db: Db, a: NewOrderArgs, row: District, i: nat, m: nat, clock: nat) returns (end: Db)
    requires i <= m <= |a.lines| && ItemsFound(db, a, m)
    ensures Finish(Point(db, NextItem(a, row, i), clock)) == Finish(Point(end, NextItem(a, row, m), clock))
    ensures ItemsDone(db, end, a, row.next, i, m)
    decreases m - i
  {
    hide Finish, ItemsDone, AfterItem, NextItem, ItemFound;
    if i == m {
      end := db;
      NoItems(db, a, row.next, m);
    } else {
      assert ItemFound(db, a.lines[i]);
      ItemStep(db, a, row, i, clock);
      ItemsStayFound(db, a, row, i, m);
      end := ItemsOutcome(AfterItem(db, a, row, i), a, row, i + 1, m, clock);
      ItemDone(db, end, a, row, i, m);
    }
  }

  lemma HeaderOutcome(db: Db, a: NewOrderArgs, clock: nat) returns (next: Db)
    requires DKey(a.w, a.d) in db.district
    ensures var dk, row := DKey(a.w, a.d), db.district[DKey(a.w, a.d)];
            var k := OKey(a.w, a.d, Inc32(row.next));
            && Finish(Point(db, NewOrder(NoReadDistrict(a)), clock))
               == Finish(Point(next, NextItem(a, Bumped(row), 0), Inc32(clock)))
            && next == db.(district := db.district[dk := District(row.ytd, k.o)],
                           newOrder := db.newOrder + {k},
                           pending := db.pending[dk := k.o],
                           latest := db.latest[CKey(a.w, a.d, a.c) := k.o],
                           order := db.order[k := Order(a.c, 0, |a.lines|, AllLocal(a), clock)])
  {
    hide Finish, AllLocal, Inc32;
    var x := Point(db, NewOrder(NoReadDistrict(a)), clock);
    Onward(x);
    x := Step(x);
    Onward(x);
    x := Step(x);
    Onward(x);
    x := Step(x);
    Onward(x);
    x := Step(x);
    Onward(x);
    x := Step(x);
    Onward(x);
    next := Step(x).db;
  }

  /** What the tables are after a whole new order, which took id `o` and the date `clock`. */
  ghost predicate OrderEntered(db: Db, end: Db, a: NewOrderArgs, o: nat, clock: nat)
    requires DKey(a.w, a.d) in db.district
  {
    var dk, k := DKey(a.w, a.d), OKey(a.w, a.d, o);
    && end.district == db.district[dk := District(db.district[dk].ytd, o)]
    && end.newOrder == db.newOrder + {k}
    && end.pending == db.pending[dk := o]
    && end.latest == db.latest[CKey(a.w, a.d, a.c) := o]
    && k in end.order && end.order == db.order[k := end.order[k]]
    && IsOrderRow(end.order[k], a, clock)
    && StockTaken(db.stock, end.stock, a.w, a.lines, 0)
    && LinesEntered(db.orderLine, end.orderLine, k, a.lines, db.item, 0)
    && end.warehouse == db.warehouse && end.customer == db.customer && end.history == db.history
    && end.item == db.item
  }

  /** An undelivered order, local if and only if its own warehouse supplies every line. */
  ghost predicate IsOrderRow(row: Order, a: NewOrderArgs, clock: nat)
  {
    && row.c == a.c && row.carrier == 0 && row.lines == |a.lines| && row.entry == clock
    && (row.allLocal <==> forall j :: 0 <= j < |a.lines| ==> a.lines[j].supply == a.w)
  }

  lemma OrderRowIs(a: NewOrderArgs, clock: nat)
    ensures IsOrderRow(Order(a.c, 0, |a.lines|, AllLocal(a), clock), a, clock)
  {
    if AllLocal(a) {
      assert forall j :: 0 <= j < |a.lines| ==> a.lines[j] in a.lines;
    }
  }

  /**
   A new order takes the district's next number, enters one order, one new_order row and one
   priced line for each item, and takes each item from its stock row, however often an item
   occurs in it.
   */
  lemma NewOrderOutcome(db: Db, a: NewOrderArgs, clock: nat)
    requires DKey(a.w, a.d) in db.district && ItemsFound(db, a, |a.lines|)
    ensures var end := Finish(Point(db, NewOrder(NoReadDistrict(a)), clock));
            && end.Finished? && end.clock == Inc32(clock)
            && OrderEntered(db, end.db, a, Inc32(db.district[DKey(a.w, a.d)].next), clock)
  {
    hide Finish, StockTaken, LinesEntered, AllLocal, Inc32, IsOrderRow;
    OrderRowIs(a, clock);
    var row := Bumped(db.district[DKey(a.w, a.d)]);
    var next := HeaderOutcome(db, a, clock);
    var end := ItemsOutcome(next, a, row, 0, |a.lines|, Inc32(clock));
    assert a.lines[..|a.lines|] == a.lines;
    Done(Point(end, Idle, Inc32(clock)));
  }

  lemma UndoOutcome(db: Db, a: NewOrderArgs, row: District, i: nat, clock: nat)
    requires i < |a.lines| && a.lines[i].item !in db.item
    ensures Finish(Point(db, NextItem(a, row, i), clock))
         == Finished(db.(district := db.district[DKey(a.w, a.d) := District(row.ytd, Dec32(row.next))],
                         newOrder := db.newOrder - {NewKey(a, row)},
                         order := db.order - {NewKey(a, row)}), clock)
  {
    hide Finish, Dec32;
    var x := Point(db, NextItem(a, row, i), clock);
    Onward(x);
    x := Step(x);
    Onward(x);
    x := Step(x);
    Onward(x);
    x := Step(x);
    Onward(x);
    Done(Step(x));
  }

  /**
   What the abort branch leaves behind when item `m` is the first that does not exist: the
   district's number and the order's two rows are as before, but both caches name the order
   that is gone, and the lines and stock of the items before it stay.
   */
  lemma AbortOutcome(db: Db, a: NewOrderArgs, m: nat, clock: nat)
    requires DKey(a.w, a.d) in db.district && db.district[DKey(a.w, a.d)].next < TWO32
    requires m < |a.lines| && ItemsFound(db, a, m) && a.lines[m].item !in db.item
    ensures var end := Finish(Point(db, NewOrder(NoReadDistrict(a)), clock));
            var dk := DKey(a.w, a.d);
            var k := OKey(a.w, a.d, Inc32(db.district[dk].next));
            && end.Finished? && end.clock == Inc32(clock)
            && end.db.district == db.district
            && end.db.newOrder == db.newOrder - {k} && end.db.order == db.order - {k}
            && end.db.pending == db.pending[dk := k.o]
            && end.db.latest == db.latest[CKey(a.w, a.d, a.c) := k.o]
            && StockTaken(db.stock, end.db.stock, a.w, a.lines[..m], 0)
            && LinesEntered(db.orderLine, end.db.orderLine, k, a.lines[..m], db.item, 0)
            && end.db.warehouse == db.warehouse && end.db.customer == db.customer && end.db.history == db.history
            && end.db.item == db.item
  {
    hide Finish, StockTaken, LinesEntered, AllLocal, Inc32, Dec32;
    var dk := DKey(a.w, a.d);
    var row := Bumped(db.district[dk]);
    var next := HeaderOutcome(db, a, clock);
    var end := ItemsOutcome(next, a, row, 0, m, Inc32(clock));
    UndoOutcome(end, a, row, m, Inc32(clock));
    IncDec(db.district[dk].next);
    PutBack(db.district, dk, District(row.ytd, row.next));
    OrderGone(db.order, NewKey(a, row), Order(a.c, 0, |a.lines|, AllLocal(a), clock));
    assert db.newOrder + {NewKey(a, row)} - {NewKey(a, row)} == db.newOrder - {NewKey(a, row)};
  }

  lemma IncDec(x: nat)
    requires x < TWO32
    ensures Dec32(Inc32(x)) == x
  {
  }

  lemma PutBack(m: map<DKey, District>, k: DKey, row: District)
    requires k in m
    ensures m[k := row][k := m[k]] == m
  {
  }

  lemma OrderGone(m: map<OKey, Order>, k: OKey, row: Order)
    ensures m[k := row] - {k} == m - {k}
  {
  }

  // ----- delivery, one district

  /** The thread's counter after `i` more calls. */
  function Ticks(clock: nat, i: nat): nat
    decreases i
  {
    if i == 0 then clock else Ticks(Inc32(clock), i - 1)
  }

  /** The scanned lines from `i` on carry the next ticks as their delivery date; no other line has changed. */
  ghost predicate LinesDated(before: map<OLKey, OrderLine>, after: map<OLKey, OrderLine>, rows: seq<Row>, i: nat, clock: nat)
  {
    && (forall j :: i <= j < |rows| ==>
         rows[j].0 in after && after[rows[j].0] == rows[j].1.(delivered := Ticks(clock, j - i)))
    && (forall l :: (forall j :: i <= j < |rows| ==> rows[j].0 != l) ==>
         (l in before <==> l in after) && (l in before ==> before[l] == after[l]))
  }

  ghost predicate DistinctRows(rows: seq<Row>) { forall i, j :: 0 <= i < j < |rows| ==> rows[i].0 != rows[j].0 }

  lemma LineDated(before: map<OLKey, OrderLine>, after: map<OLKey, OrderLine>, rows: seq<Row>, i: nat, clock: nat)
    requires i < |rows| && DistinctRows(rows)
    requires LinesDated(before[rows[i].0 := rows[i].1.(delivered := clock)], after, rows, i + 1, Inc32(clock))
    ensures LinesDated(before, after, rows, i, clock)
  {
    hide Inc32;
    forall j | i <= j < |rows|
      ensures rows[j].0 in after && after[rows[j].0] == rows[j].1.(delivered := Ticks(clock, j - i))
    {
      if j == i {
        assert Ticks(clock, 0) == clock;
      } else {
        assert Ticks(clock, j - i) == Ticks(Inc32(clock), j - (i + 1));
      }
    }
  }

  lemma NoLines(lines: map<OLKey, OrderLine>, rows: seq<Row>, i: nat, clock: nat)
    requires i >= |rows|
    ensures LinesDated(lines, lines, rows, i, clock)
  {
  }

  lemma SumStep(rows: seq<Row>, i: nat)
    requires i < |rows|
    ensures RowsTotal(rows[i..]) == rows[i].1.amount + RowsTotal(rows[i + 1..])
  {
    assert rows[i..][1..] == rows[i + 1..];
  }

  lemma {:induction false} LinesOutcome(db: Db, a: DeliveryArgs, d: nat, o: nat, order: Order, rows: seq<Row>, i: nat,
                                        total: int, clock: nat) returns (lines: map<OLKey, OrderLine>)
    requires i <= |rows| && DistinctRows(rows)
    ensures Finish(Point(db, NextLine(a, d, o, order, rows, i, total), clock))
         == Finish(Point(db.(orderLine := lines),
                         Delivery(DelReadCustomer(a, d, o, order, total + RowsTotal(rows[i..]))), Ticks(clock, |rows| - i)))
    ensures LinesDated(db.orderLine, lines, rows, i, clock)
    decreases |rows| - i
  {
    hide Finish, LinesDated, DistinctRows, Inc32;
    if i == |rows| {
      lines := db.orderLine;
      NoLines(lines, rows, i, clock);
    } else {
      var line := rows[i].1.(delivered := clock);
      var next := db.(orderLine := db.orderLine[rows[i].0 := line]);
      Onward(Point(db, NextLine(a, d, o, order, rows, i, total), clock));
      lines := LinesOutcome(next, a, d, o, order, rows, i + 1, total + rows[i].1.amount, Inc32(clock));
      LineDated(db.orderLine, lines, rows, i, clock);
      SumStep(rows, i);
    }
  }

  lemma ScanIsDistinct(lines: map<OLKey, OrderLine>, start: OLKey, n: nat)
    ensures DistinctRows(Scan(lines, start, n))
  {
    ScanIsFirst(lines, start, n);
    hide Scan;
  }

  lemma CreditOutcome(db: Db, a: DeliveryArgs, d: nat, o: nat, order: Order, total: int, clock: nat)
    requires CKey(a.w, d, order.c) in db.customer
    ensures var ck := CKey(a.w, d, order.c);
            var c := db.customer[ck];
            Finish(Point(db, Delivery(DelReadCustomer(a, d, o, order, total)), clock))
            == Finish(Point(db.(customer := db.customer[ck
                 := Customer(c.balance + total, c.ytdPayment, c.paymentCnt, c.deliveryCnt + 1)]),
                            NextDistrict(a, d + 1), clock))
  {
    hide Finish;
    var x := Point(db, Delivery(DelReadCustomer(a, d, o, order, total)), clock);
    Onward(x);
    Onward(Step(x));
  }

  lemma TakeOutcome(db: Db, a: DeliveryArgs, d: nat, clock: nat)
    requires IsDistrict(d) && DKey(a.w, d) in db.pending
    ensures var k := OKey(a.w, d, db.pending[DKey(a.w, d)]);
            var start := Finish(Point(db, Delivery(DelReadPending(a, d)), clock));
            && (k !in db.newOrder ==> start == Finish(Point(db, NextDistrict(a, d + 1), clock)))
            && (k in db.newOrder && k !in db.order ==> start == Finished(db, clock))
            && (k in db.newOrder && k in db.order ==>
                 var v := db.order[k].(carrier := a.carrier);
                 start == Finish(Point(db.(newOrder := db.newOrder - {k}, order := db.order[k := v]),
                                       Delivery(DelScanLines(a, d, k.o, v)), clock)))
  {
    hide Finish;
    var x := Point(db, Delivery(DelReadPending(a, d)), clock);
    var k := OKey(a.w, d, db.pending[DKey(a.w, d)]);
    Onward(x);
    x := Step(x);
    Onward(x);
    x := Step(x);
    if k in db.newOrder {
      Onward(x);
      x := Step(x);
      if k in db.order {
        Onward(x);
        x := Step(x);
        Onward(x);
      } else {
        Done(x);
      }
    }
  }

  /** The tables after one district, whose newest order `k` was awaiting delivery. */
  ghost predicate Delivered(db: Db, end: Db, a: DeliveryArgs, k: OKey, clock: nat)
    requires k in db.order && CKey(k.w, k.d, db.order[k].c) in db.customer
  {
    var v := db.order[k];
    var ck := CKey(k.w, k.d, v.c);
    var c := db.customer[ck];
    var rows := Scan(db.orderLine, LineKey(k, 0), SCANNED);
    && end.newOrder == db.newOrder - {k}
    && end.order == db.order[k := Order(v.c, a.carrier, v.lines, v.allLocal, v.entry)]
    && LinesDated(db.orderLine, end.orderLine, rows, 0, clock)
    && end.customer == db.customer[ck :=
         Customer(c.balance + RowsTotal(rows), c.ytdPayment, c.paymentCnt, c.deliveryCnt + 1)]
    && end == db.(newOrder := end.newOrder, order := end.order, orderLine := end.orderLine, customer := end.customer)
  }

  /**
   A district whose newest order awaits delivery has that order, and only that, delivered:
   its carrier set, its first ten scanned lines dated and their sum credited. A district
   without one is skipped; a missing order row ends the whole transaction.
   */
  lemma DistrictOutcome(db: Db, a: DeliveryArgs, d: nat, clock: nat) returns (end: Db)
    requires IsDistrict(d) && DKey(a.w, d) in db.pending
    requires var k := OKey(a.w, d, db.pending[DKey(a.w, d)]);
             k in db.newOrder && k in db.order ==> CKey(a.w, d, db.order[k].c) in db.customer
    ensures var k := OKey(a.w, d, db.pending[DKey(a.w, d)]);
            var start := Finish(Point(db, Delivery(DelReadPending(a, d)), clock));
            && (k !in db.newOrder ==> start == Finish(Point(db, NextDistrict(a, d + 1), clock)))
            && (k in db.newOrder && k !in db.order ==> start == Finished(db, clock))
            && (k in db.newOrder && k in db.order ==>
                 var rows := Scan(db.orderLine, LineKey(k, 0), SCANNED);
                 && Delivered(db, end, a, k, clock)
                 && start == Finish(Point(end, NextDistrict(a, d + 1), Ticks(clock, |rows|))))
  {
    hide Finish, Scan, LinesDated, DistinctRows, RowsTotal, Ticks;
    var k := OKey(a.w, d, db.pending[DKey(a.w, d)]);
    TakeOutcome(db, a, d, clock);
    end := db;
    if k in db.newOrder && k in db.order {
      var v := db.order[k].(carrier := a.carrier);
      var taken := db.(newOrder := db.newOrder - {k}, order := db.order[k := v]);
      var rows := Scan(db.orderLine, LineKey(k, 0), SCANNED);
      Onward(Point(taken, Delivery(DelScanLines(a, d, k.o, v)), clock));
      ScanIsDistinct(db.orderLine, LineKey(k, 0), SCANNED);
      var lines := LinesOutcome(taken, a, d, k.o, v, rows, 0, 0, clock);
      assert rows[0..] == rows;
      CreditOutcome(taken.(orderLine := lines), a, d, k.o, v, RowsTotal(rows), Ticks(clock, |rows|));
      var ck := CKey(a.w, d, v.c);
      end := taken.(orderLine := lines, customer := db.customer[ck := Credited(db.customer[ck], RowsTotal(rows))]);
    }
  }
}
