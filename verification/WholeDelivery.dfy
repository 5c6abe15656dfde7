/**
 What a whole delivery does when nobody interrupts it: which orders of the ten districts it
 serves, and everything that it changes for them.
 */
module WholeDelivery {
  import opened Schema
  import opened OrderedScan
  import opened Engine
  import opened DeliveryScan
  import opened Outcomes

  // ----- a district before the delivery

  /** The newest order of district `d`, as its cache names it. */
  function NewestOf(db: Db, w: nat, d: nat): OKey
    requires DKey(w, d) in db.pending
  {
    OKey(w, d, db.pending[DKey(w, d)])
  }

  /** The newest order of district `d` has a new_order row. */
  predicate Awaits(db: Db, w: nat, d: nat) { DKey(w, d) in db.pending && NewestOf(db, w, d) in db.newOrder }

  /** The rows that delivery of district `d` scans. */
  function RowsOf(db: Db, w: nat, d: nat): seq<Row>
  {
    if Awaits(db, w, d) then Scan(db.orderLine, LineKey(NewestOf(db, w, d), 0), 10) else []
  }

  /** The rows scanned for districts `from` to `d - 1`. */
  function RowsBefore(db: Db, w: nat, from: nat, d: nat): nat
    decreases d - from
  {
    if from >= d then 0 else |RowsOf(db, w, from)| + RowsBefore(db, w, from + 1, d)
  }

  predicate IsScanned(db: Db, w: nat, d: nat, l: OLKey)
  {
    exists i :: 0 <= i < |RowsOf(db, w, d)| && RowsOf(db, w, d)[i].0 == l
  }

  /** An order awaiting delivery has its order row and its customer. */
  predicate IsPrepared(db: Db, w: nat, d: nat)
  {
    && DKey(w, d) in db.pending
    && var k := NewestOf(db, w, d);
       k in db.newOrder ==> k in db.order && CKey(w, d, db.order[k].c) in db.customer
  }

  /** An order awaiting delivery without an order row, at which the code gives up. */
  predicate IsMissing(db: Db, w: nat, d: nat) { Awaits(db, w, d) && NewestOf(db, w, d) !in db.order }

  // ----- the tables after districts `from` to `to_ - 1`

  predicate IsServed(db: Db, w: nat, from: nat, to_: nat, k: OKey)
  {
    k.w == w && from <= k.d < to_ && DKey(w, k.d) in db.pending && db.pending[DKey(w, k.d)] == k.o && k in db.newOrder
  }

  /** The served orders leave new_order and carry the carrier; nothing else changes there. */
  ghost predicate OrdersServed(db: Db, end: Db, w: nat, carrier: nat, from: nat, to_: nat)
  {
    && (forall k :: k in end.newOrder <==> k in db.newOrder && !IsServed(db, w, from, to_, k))
    && db.order.Keys == end.order.Keys
    && forall k :: k in db.order && k in end.order ==>
         var v := db.order[k];
         end.order[k] == if IsServed(db, w, from, to_, k) then Order(v.c, carrier, v.lines, v.allLocal, v.entry) else v
  }

  /** The customer of the served order of its district. */
  predicate IsCredited(db: Db, w: nat, from: nat, to_: nat, ck: CKey)
  {
    && ck.w == w && from <= ck.d < to_ && Awaits(db, w, ck.d)
    && var k := NewestOf(db, w, ck.d);
       k in db.order && db.order[k].c == ck.c
  }

  /** Each served customer is credited with the scanned amounts of its order, and no other changes. */
  ghost predicate CustomersServed(db: Db, end: Db, w: nat, from: nat, to_: nat)
  {
    && db.customer.Keys == end.customer.Keys
    && forall ck :: ck in db.customer && ck in end.customer ==>
         var c := db.customer[ck];
         end.customer[ck] ==
           if IsCredited(db, w, from, to_, ck)
           then Customer(c.balance + RowsTotal(RowsOf(db, w, ck.d)), c.ytdPayment, c.paymentCnt, c.deliveryCnt + 1)
           else c
  }

  /** The last of the districts to scan a line is `d`. */
  ghost predicate ScannedLast(db: Db, w: nat, d: nat, to_: nat, l: OLKey)
  {
    forall e :: d < e < to_ ==> !IsScanned(db, w, e, l)
  }

  ghost predicate NeverScanned(db: Db, w: nat, from: nat, to_: nat, l: OLKey)
  {
    forall e :: from <= e < to_ ==> !IsScanned(db, w, e, l)
  }

  /** Scanned lines are dated with the ticks of their last scan, and nothing else changes on lines. */
  ghost predicate LinesServed(db: Db, end: Db, w: nat, from: nat, to_: nat, clock: nat)
  {
    && LinesAlike(db.orderLine, end.orderLine)
    && (forall l :: l in db.orderLine && NeverScanned(db, w, from, to_, l) ==> db.orderLine[l] == end.orderLine[l])
    && (forall d, i :: from <= d < to_ && 0 <= i < |RowsOf(db, w, d)|
                       && ScannedLast(db, w, d, to_, RowsOf(db, w, d)[i].0) ==>
         DatedAt(end.orderLine, RowsOf(db, w, d)[i].0, Ticks(clock, RowsBefore(db, w, from, d) + i)))
  }

  predicate DatedAt(lines: map<OLKey, OrderLine>, l: OLKey, tick: nat) { l in lines && lines[l].delivered == tick }

  /** The same lines, up to their dates. */
  ghost predicate LinesAlike(before: map<OLKey, OrderLine>, after: map<OLKey, OrderLine>)
  {
    before.Keys == after.Keys && forall l :: l in before && l in after ==> SameLine(before[l], after[l])
  }

  ghost predicate Served(db: Db, end: Db, a: DeliveryArgs, from: nat, to_: nat, clock: nat)
  {
    && OrdersServed(db, end, a.w, a.carrier, from, to_)
    && CustomersServed(db, end, a.w, from, to_)
    && LinesServed(db, end, a.w, from, to_, clock)
    && end == db.(newOrder := end.newOrder, order := end.order, orderLine := end.orderLine, customer := end.customer)
  }

  // ----- scans do not see dates

  ghost predicate RowsAlike(a: seq<Row>, b: seq<Row>)
  {
    |a| == |b| && forall i :: 0 <= i < |a| ==> a[i].0 == b[i].0 && SameLine(a[i].1, b[i].1)
  }

  lemma {:induction false} FirstRowsAlike(before: map<OLKey, OrderLine>, after: map<OLKey, OrderLine>,
                                          keys: set<OLKey>, n: nat)
    requires LinesAlike(before, after) && keys <= before.Keys
    ensures RowsAlike(FirstRows(before, keys, n), FirstRows(after, keys, n))
    decreases n
  {
    hide IsLeast;
    if n > 0 && keys != {} {
      FirstRowsAlike(before, after, keys - {Least(keys)}, n - 1);
    }
  }

  lemma {:induction false} TotalAlike(a: seq<Row>, b: seq<Row>)
    requires RowsAlike(a, b)
    ensures RowsTotal(a) == RowsTotal(b)
  {
    if a != [] {
      TotalAlike(a[1..], b[1..]);
    }
  }

  lemma ScanAlike(before: map<OLKey, OrderLine>, after: map<OLKey, OrderLine>, start: OLKey, n: nat)
    requires LinesAlike(before, after)
    ensures RowsAlike(Scan(before, start, n), Scan(after, start, n))
  {
    assert Candidates(before, start) == Candidates(after, start);
    FirstRowsAlike(before, after, Candidates(before, start), n);
  }

  // ----- one district after the other

  /** District `d` looks the same as before districts below it were served. */
  ghost predicate Untouched(db: Db, mid: Db, w: nat, d: nat)
  {
    && (Awaits(db, w, d) <==> Awaits(mid, w, d))
    && (DKey(w, d) in db.pending <==> DKey(w, d) in mid.pending)
    && (DKey(w, d) in db.pending && DKey(w, d) in mid.pending ==>
         var k := NewestOf(db, w, d);
         && k == NewestOf(mid, w, d) && (k in db.order <==> k in mid.order)
         && (k in db.order && k in mid.order ==> db.order[k] == mid.order[k]))
    && RowsAlike(RowsOf(db, w, d), RowsOf(mid, w, d))
  }

  lemma DatedAlike(before: map<OLKey, OrderLine>, after: map<OLKey, OrderLine>, start: OLKey, n: nat, clock: nat)
    requires LinesDated(before, after, Scan(before, start, n), 0, clock)
    ensures LinesAlike(before, after)
  {
    hide Scan, Ticks;
    var rows := Scan(before, start, n);
    forall l | l in before || l in after ensures l in before && l in after && SameLine(before[l], after[l]) {
      if j :| 0 <= j < |rows| && rows[j].0 == l {
        assert after[rows[j].0] == rows[j].1.(delivered := Ticks(clock, j - 0));
      }
    }
  }

  lemma DeliveredUntouches(db: Db, mid: Db, a: DeliveryArgs, d: nat, clock: nat, e: nat)
    requires IsPrepared(db, a.w, d) && Awaits(db, a.w, d) && Delivered(db, mid, a, NewestOf(db, a.w, d), clock) && d != e
    ensures Untouched(db, mid, a.w, e) && LinesAlike(db.orderLine, mid.orderLine)
    ensures IsPrepared(db, a.w, e) ==> IsPrepared(mid, a.w, e)
    ensures IsMissing(db, a.w, e) ==> IsMissing(mid, a.w, e)
  {
    hide Scan, LinesDated, RowsTotal, LinesAlike, RowsAlike;
    DatedAlike(db.orderLine, mid.orderLine, LineKey(NewestOf(db, a.w, d), 0), 10, clock);
    if Awaits(db, a.w, e) {
      ScanAlike(db.orderLine, mid.orderLine, LineKey(NewestOf(db, a.w, e), 0), 10);
    } else {
      NoRowsAlike();
    }
  }

  lemma NoRowsAlike()
    ensures RowsAlike([], [])
  {
  }

  ghost predicate AllUntouched(db: Db, mid: Db, w: nat, from: nat, to_: nat)
  {
    forall e :: from <= e < to_ ==> Untouched(db, mid, w, e)
  }

  lemma OrdersAdd(db: Db, mid: Db, end: Db, a: DeliveryArgs, d: nat, m: nat, clock: nat)
    requires d < m && IsPrepared(db, a.w, d) && Awaits(db, a.w, d) && Delivered(db, mid, a, NewestOf(db, a.w, d), clock)
    requires OrdersServed(mid, end, a.w, a.carrier, d + 1, m)
    ensures OrdersServed(db, end, a.w, a.carrier, d, m)
  {
    hide Scan, LinesDated, RowsTotal;
  }

  lemma CustomersAdd(db: Db, mid: Db, end: Db, a: DeliveryArgs, d: nat, m: nat, clock: nat)
    requires d < m && IsPrepared(db, a.w, d) && Awaits(db, a.w, d) && Delivered(db, mid, a, NewestOf(db, a.w, d), clock)
    requires AllUntouched(db, mid, a.w, d + 1, m) && CustomersServed(mid, end, a.w, d + 1, m)
    ensures CustomersServed(db, end, a.w, d, m)
  {
    hide Scan, LinesDated, RowsTotal, RowsAlike;
    forall ck | ck in db.customer && ck in end.customer
      ensures var c := db.customer[ck];
              end.customer[ck] ==
                if IsCredited(db, a.w, d, m, ck)
                then Customer(c.balance + RowsTotal(RowsOf(db, a.w, ck.d)), c.ytdPayment, c.paymentCnt, c.deliveryCnt + 1)
                else c
    {
      if ck.w == a.w && d < ck.d < m {
        assert Untouched(db, mid, a.w, ck.d);
        TotalAlike(RowsOf(db, a.w, ck.d), RowsOf(mid, a.w, ck.d));
      }
    }
  }

  lemma ScannedAlike(db: Db, mid: Db, w: nat, e: nat, l: OLKey)
    requires Untouched(db, mid, w, e)
    ensures IsScanned(db, w, e, l) <==> IsScanned(mid, w, e, l)
  {
    hide RowsOf;
  }

  lemma {:induction false} BeforeAlike(db: Db, mid: Db, w: nat, from: nat, e: nat)
    requires AllUntouched(db, mid, w, from, e)
    ensures RowsBefore(db, w, from, e) == RowsBefore(mid, w, from, e)
    decreases e - from
  {
    hide RowsOf;
    if from < e {
      assert Untouched(db, mid, w, from);
      BeforeAlike(db, mid, w, from + 1, e);
    }
  }

  lemma NeverAlike(db: Db, mid: Db, w: nat, from: nat, m: nat, l: OLKey)
    requires AllUntouched(db, mid, w, from, m)
    ensures NeverScanned(db, w, from, m, l) <==> NeverScanned(mid, w, from, m, l)
  {
    hide Untouched, IsScanned;
    forall e | from <= e < m ensures IsScanned(db, w, e, l) <==> IsScanned(mid, w, e, l) {
      ScannedAlike(db, mid, w, e, l);
    }
  }

  lemma {:induction false} TicksAdd(clock: nat, i: nat, j: nat)
    ensures Ticks(Ticks(clock, i), j) == Ticks(clock, i + j)
    decreases i
  {
    if i > 0 {
      TicksAdd(Inc32(clock), i - 1, j);
    }
  }

  /** A line of the first district keeps its date unless a later one scans it. */
  lemma FirstDistrictDated(db: Db, mid: Db, end: Db, w: nat, d: nat, m: nat, clock: nat, clock': nat, i: nat)
    requires Awaits(db, w, d) && LinesDated(db.orderLine, mid.orderLine, RowsOf(db, w, d), 0, clock)
    requires AllUntouched(db, mid, w, d + 1, m) && LinesServed(mid, end, w, d + 1, m, clock')
    requires i < |RowsOf(db, w, d)| && ScannedLast(db, w, d, m, RowsOf(db, w, d)[i].0)
    ensures DatedAt(end.orderLine, RowsOf(db, w, d)[i].0, Ticks(clock, i))
  {
    hide Scan, Ticks, AllUntouched, RowsOf;
    var rows := RowsOf(db, w, d);
    var l := rows[i].0;
    NeverAlike(db, mid, w, d + 1, m, l);
    assert mid.orderLine[rows[i].0] == rows[i].1.(delivered := Ticks(clock, i - 0));
    assert NeverScanned(mid, w, d + 1, m, l);
  }

  lemma LaterDistrictDated(db: Db, mid: Db, end: Db, w: nat, d: nat, m: nat, clock: nat, e: nat, i: nat)
    requires AllUntouched(db, mid, w, d + 1, m)
    requires LinesServed(mid, end, w, d + 1, m, Ticks(clock, |RowsOf(db, w, d)|))
    requires d < e < m && i < |RowsOf(db, w, e)| && ScannedLast(db, w, e, m, RowsOf(db, w, e)[i].0)
    ensures DatedAt(end.orderLine, RowsOf(db, w, e)[i].0, Ticks(clock, RowsBefore(db, w, d, e) + i))
  {
    hide Scan, RowsOf, Ticks;
    assert Untouched(db, mid, w, e);
    var l := RowsOf(db, w, e)[i].0;
    NeverAlike(db, mid, w, e + 1, m, l);
    assert NeverScanned(db, w, e + 1, m, l);
    assert ScannedLast(mid, w, e, m, RowsOf(mid, w, e)[i].0);
    BeforeAlike(db, mid, w, d + 1, e);
    TicksAdd(clock, |RowsOf(db, w, d)|, RowsBefore(mid, w, d + 1, e) + i);
  }

  lemma LinesAdd(db: Db, mid: Db, end: Db, w: nat, d: nat, m: nat, clock: nat)
    requires d < m && Awaits(db, w, d) && LinesDated(db.orderLine, mid.orderLine, RowsOf(db, w, d), 0, clock)
    requires AllUntouched(db, mid, w, d + 1, m) && LinesAlike(db.orderLine, mid.orderLine)
    requires LinesServed(mid, end, w, d + 1, m, Ticks(clock, |RowsOf(db, w, d)|))
    ensures LinesServed(db, end, w, d, m, clock)
  {
    hide AllUntouched, RowsOf, Ticks, DatedAt, ScannedLast;
    forall l | l in db.orderLine && NeverScanned(db, w, d, m, l) ensures db.orderLine[l] == end.orderLine[l] {
      NeverAlike(db, mid, w, d + 1, m, l);
      assert !IsScanned(db, w, d, l);
    }
    forall e, i | d <= e < m && 0 <= i < |RowsOf(db, w, e)| && ScannedLast(db, w, e, m, RowsOf(db, w, e)[i].0)
      ensures DatedAt(end.orderLine, RowsOf(db, w, e)[i].0, Ticks(clock, RowsBefore(db, w, d, e) + i))
    {
      if e == d {
        FirstDistrictDated(db, mid, end, w, d, m, clock, Ticks(clock, |RowsOf(db, w, d)|), i);
      } else {
        LaterDistrictDated(db, mid, end, w, d, m, clock, e, i);
      }
    }
  }

  lemma ServedAdd(db: Db, mid: Db, end: Db, a: DeliveryArgs, d: nat, m: nat, clock: nat)
    requires d < m && IsPrepared(db, a.w, d) && Awaits(db, a.w, d) && Delivered(db, mid, a, NewestOf(db, a.w, d), clock)
    requires Served(mid, end, a, d + 1, m, Ticks(clock, |RowsOf(db, a.w, d)|))
    ensures Served(db, end, a, d, m, clock)
  {
    hide OrdersServed, CustomersServed, LinesServed, LinesDated, Scan, Ticks, RowsTotal, Untouched, LinesAlike;
    forall e | d + 1 <= e < m ensures Untouched(db, mid, a.w, e) {
      DeliveredUntouches(db, mid, a, d, clock, e);
    }
    DeliveredUntouches(db, mid, a, d, clock, d + 1);
    OrdersAdd(db, mid, end, a, d, m, clock);
    CustomersAdd(db, mid, end, a, d, m, clock);
    LinesAdd(db, mid, end, a.w, d, m, clock);
  }

  lemma RowsSkip(db: Db, end: Db, a: DeliveryArgs, d: nat, m: nat)
    requires d < m && !Awaits(db, a.w, d)
    requires OrdersServed(db, end, a.w, a.carrier, d + 1, m) && CustomersServed(db, end, a.w, d + 1, m)
    ensures OrdersServed(db, end, a.w, a.carrier, d, m) && CustomersServed(db, end, a.w, d, m)
  {
    hide Scan, RowsTotal;
  }

  lemma LinesSkip(db: Db, end: Db, w: nat, d: nat, m: nat, clock: nat)
    requires d < m && !Awaits(db, w, d) && LinesServed(db, end, w, d + 1, m, clock)
    ensures LinesServed(db, end, w, d, m, clock)
  {
    hide Ticks, LinesAlike, DatedAt, RowsOf, IsScanned, RowsBefore, ScannedLast;
    NothingToScan(db, w, d);
    forall e, i | d <= e < m && 0 <= i < |RowsOf(db, w, e)| && ScannedLast(db, w, e, m, RowsOf(db, w, e)[i].0)
      ensures DatedAt(end.orderLine, RowsOf(db, w, e)[i].0, Ticks(clock, RowsBefore(db, w, d, e) + i))
    {
      RowsBeforeStep(db, w, d, e);
    }
  }

  lemma NothingToScan(db: Db, w: nat, d: nat)
    requires !Awaits(db, w, d)
    ensures RowsOf(db, w, d) == [] && forall l :: !IsScanned(db, w, d, l)
  {
  }

  /** A district whose newest order does not await delivery is passed over. */
  lemma ServedSkip(db: Db, end: Db, a: DeliveryArgs, d: nat, m: nat, clock: nat)
    requires d < m && !Awaits(db, a.w, d) && Served(db, end, a, d + 1, m, clock)
    ensures Served(db, end, a, d, m, clock)
  {
    hide OrdersServed, CustomersServed, LinesServed, Awaits;
    RowsSkip(db, end, a, d, m);
    LinesSkip(db, end, a.w, d, m, clock);
  }

  lemma NoneServed(db: Db, a: DeliveryArgs, m: nat, clock: nat)
    ensures Served(db, db, a, m, m, clock)
  {
  }

  /** One district, delivered or passed over. */
  lemma DistrictServed(db: Db, a: DeliveryArgs, d: nat, clock: nat) returns (mid: Db)
    requires IsDistrict(d) && IsPrepared(db, a.w, d)
    ensures Finish(Point(db, NextDistrict(a, d), clock))
         == Finish(Point(mid, NextDistrict(a, d + 1), Ticks(clock, |RowsOf(db, a.w, d)|)))
    ensures if Awaits(db, a.w, d) then Delivered(db, mid, a, NewestOf(db, a.w, d), clock) else mid == db
  {
    hide Finish, Delivered, Scan, Ticks;
    mid := DistrictOutcome(db, a, d, clock);
    NoTicks(clock);
    if !Awaits(db, a.w, d) {
      mid := db;
    }
  }

  lemma NoTicks(clock: nat)
    ensures Ticks(clock, 0) == clock
  {
  }

  lemma GivesUp(db: Db, a: DeliveryArgs, d: nat, clock: nat)
    requires IsDistrict(d) && IsMissing(db, a.w, d)
    ensures Finish(Point(db, NextDistrict(a, d), clock)) == Finished(db, clock)
  {
    hide Finish, Delivered, Scan, Ticks;
    var end := DistrictOutcome(db, a, d, clock);
  }

  lemma RowsBeforeStep(db: Db, w: nat, d: nat, m: nat)
    requires d < m
    ensures RowsBefore(db, w, d, m) == |RowsOf(db, w, d)| + RowsBefore(db, w, d + 1, m)
  {
  }

  lemma StillPrepared(db: Db, mid: Db, a: DeliveryArgs, d: nat, m: nat, clock: nat)
    requires IsPrepared(db, a.w, d)
    requires if Awaits(db, a.w, d) then Delivered(db, mid, a, NewestOf(db, a.w, d), clock) else mid == db
    ensures forall e :: d < e && IsPrepared(db, a.w, e) ==> IsPrepared(mid, a.w, e)
    ensures forall e :: d < e && IsMissing(db, a.w, e) ==> IsMissing(mid, a.w, e)
    ensures RowsBefore(db, a.w, d + 1, m) == RowsBefore(mid, a.w, d + 1, m)
  {
    hide IsPrepared, IsMissing, Delivered, RowsOf, Untouched;
    if Awaits(db, a.w, d) {
      forall e | d < e
        ensures Untouched(db, mid, a.w, e)
        ensures IsPrepared(db, a.w, e) ==> IsPrepared(mid, a.w, e)
        ensures IsMissing(db, a.w, e) ==> IsMissing(mid, a.w, e)
      {
        DeliveredUntouches(db, mid, a, d, clock, e);
      }
      BeforeAlike(db, mid, a.w, d + 1, m);
    }
  }

  lemma {:induction false} ServedFrom(db: Db, a: DeliveryArgs, d: nat, m: nat, clock: nat) returns (end: Db)
    requires 1 <= d <= m <= 11 && (forall e :: d <= e < m ==> IsPrepared(db, a.w, e))
    requires m <= 10 ==> IsMissing(db, a.w, m)
    ensures Finish(Point(db, NextDistrict(a, d), clock)) == Finished(end, Ticks(clock, RowsBefore(db, a.w, d, m)))
    ensures Served(db, end, a, d, m, clock)
    decreases m - d
  {
    hide Finish, Served, Delivered, Ticks, IsMissing, IsPrepared, RowsOf;
    if d == m {
      end := db;
      NoneServed(db, a, m, clock);
      NoTicks(clock);
      if m == 11 {
        Done(Point(db, NextDistrict(a, d), clock));
      } else {
        GivesUp(db, a, d, clock);
      }
    } else {
      var mid := DistrictServed(db, a, d, clock);
      var clock' := Ticks(clock, |RowsOf(db, a.w, d)|);
      StillPrepared(db, mid, a, d, m, clock);
      end := ServedFrom(mid, a, d + 1, m, clock');
      RowsBeforeStep(db, a.w, d, m);
      TicksAdd(clock, |RowsOf(db, a.w, d)|, RowsBefore(db, a.w, d + 1, m));
      if Awaits(db, a.w, d) {
        ServedAdd(db, mid, end, a, d, m, clock);
      } else {
        NoRowsToTick(db, a.w, d, clock);
        ServedSkip(db, end, a, d, m, clock);
      }
    }
  }

  lemma NoRowsToTick(db: Db, w: nat, d: nat, clock: nat)
    requires !Awaits(db, w, d)
    ensures Ticks(clock, |RowsOf(db, w, d)|) == clock
  {
  }

  /**
   A whole delivery serves all ten districts, or those below the first `m` whose awaited order
   has no row: of each, it delivers the newest order if that awaits delivery, dates the lines
   scanned for it and credits its customer with their amounts, as they were at the start. All
   other rows stay as they were.
   */
  lemma DeliveryOutcome(db: Db, a: DeliveryArgs, m: nat, clock: nat) returns (end: Db)
    requires 1 <= m <= 11 && (forall d :: 1 <= d < m ==> IsPrepared(db, a.w, d))
    requires m <= 10 ==> IsMissing(db, a.w, m)
    ensures Finish(Point(db, Delivery(DelReadPending(a, 1)), clock))
         == Finished(end, Ticks(clock, RowsBefore(db, a.w, 1, m)))
    ensures Served(db, end, a, 1, m, clock)
  {
    hide Finish, Served;
    end := ServedFrom(db, a, 1, m, clock);
  }

  lemma ScansAbove(db: Db, w: nat, e: nat, l: OLKey)
    requires l.w == w && l.d < e
    ensures !IsScanned(db, w, e, l)
  {
    if Awaits(db, w, e) {
      ScanIsFirst(db.orderLine, LineKey(NewestOf(db, w, e), 0), 10);
      hide Scan;
      assert forall i :: 0 <= i < |RowsOf(db, w, e)| ==> RowsOf(db, w, e)[i] in RowsOf(db, w, e);
    }
  }

  /** Later districts scan later keys, so the scanned lines of a district's own order keep the dates of its scan. */
  lemma OwnLinesAreDated(db: Db, end: Db, a: DeliveryArgs, m: nat, clock: nat, d: nat, i: nat)
    requires Served(db, end, a, 1, m, clock) && 1 <= d < m && i < |RowsOf(db, a.w, d)|
    requires RowsOf(db, a.w, d)[i].0.w == a.w && RowsOf(db, a.w, d)[i].0.d == d
    ensures DatedAt(end.orderLine, RowsOf(db, a.w, d)[i].0, Ticks(clock, RowsBefore(db, a.w, 1, d) + i))
  {
    hide RowsOf, DatedAt, IsScanned, OrdersServed, CustomersServed;
    forall e | d < e < m ensures !IsScanned(db, a.w, e, RowsOf(db, a.w, d)[i].0) {
      ScansAbove(db, a.w, e, RowsOf(db, a.w, d)[i].0);
    }
  }
}
