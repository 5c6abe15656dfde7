/**
 What delivery's scan of ten rows sees: the first ten lines of the order, or all its
 lines and then lines that were loaded with amount 0.
 */
module DeliveryScan {
  import opened Schema
  import opened OrderedScan
  import opened Engine

  const LOADED_DELIVERED: nat := 2100  // loaded orders up to this id are delivered already
  const LEAST_LINES: nat := 5

  predicate IsWarehouse(warehouses: nat, w: nat) { 1 <= w <= warehouses }

  /**
   The whole line table: amounts are 0 for the orders loaded as delivered and positive
   for all others, and every district has the first lines of its order 1.
   */
  ghost predicate LineTable(warehouses: nat, lines: map<OLKey, OrderLine>)
  {
    && (forall l :: l in lines ==>
         && IsWarehouse(warehouses, l.w) && IsDistrict(l.d) && 1 <= l.o && 1 <= l.n
         && if l.o <= LOADED_DELIVERED then lines[l].amount == 0 else lines[l].amount >= 1)
    && (forall w, d, n :: IsWarehouse(warehouses, w) && IsDistrict(d) && 1 <= n <= LEAST_LINES ==>
         OLKey(w, d, 1, n) in lines)
  }

  /** `k` is the newest order of its district with lines, and they are numbered 1 to `n`. */
  ghost predicate NewestLines(lines: map<OLKey, OrderLine>, k: OKey, n: nat)
  {
    && LinesThere(lines, k, n)
    && forall l :: l in lines && l.w == k.w && l.d == k.d && l.o >= k.o ==> l.o == k.o && 1 <= l.n <= n
  }

  ghost predicate LinesThere(lines: map<OLKey, OrderLine>, k: OKey, n: nat)
  {
    forall i: nat :: 1 <= i <= n ==> LineKey(k, i) in lines
  }

  /** What delivery of an order with `n` lines credits to the customer. */
  function Credit(lines: map<OLKey, OrderLine>, k: OKey, n: nat): int { LineSum(lines, k, 1, Min(n, SCANNED)) }

  lemma {:induction false} LoadedSum(warehouses: nat, lines: map<OLKey, OrderLine>, k: OKey, from: nat, count: nat)
    requires LineTable(warehouses, lines) && k.o <= LOADED_DELIVERED
    ensures LineSum(lines, k, from, count) == 0
    decreases count
  {
    if count > 0 {
      LoadedSum(warehouses, lines, k, from + 1, count - 1);
    }
  }

  /** Whatever comes after the newest order of a district starts with the lines of an order 1. */
  lemma LaterStartsAtOne(warehouses: nat, lines: map<OLKey, OrderLine>, k: OKey, n: nat, g: OLKey)
    requires LineTable(warehouses, lines) && NewestLines(lines, k, n)
    requires IsLeast(LaterThan(Candidates(lines, LineKey(k, 0)), LineKey(k, n)), g)
    ensures StartsWith(LaterThan(Candidates(lines, LineKey(k, 0)), LineKey(k, n)), OKey(g.w, g.d, 1), 1, LEAST_LINES)
  {
  }

  lemma AfterNewest(warehouses: nat, lines: map<OLKey, OrderLine>, k: OKey, n: nat, rest: nat)
    requires LineTable(warehouses, lines) && NewestLines(lines, k, n) && rest <= LEAST_LINES
    ensures RowsTotal(FirstRows(lines, LaterThan(Candidates(lines, LineKey(k, 0)), LineKey(k, n)), rest)) == 0
  {
    var later := LaterThan(Candidates(lines, LineKey(k, 0)), LineKey(k, n));
    if later != {} {
      var g := Least(later);
      var one := OKey(g.w, g.d, 1);
      LaterStartsAtOne(warehouses, lines, k, n, g);
      FirstRowsTotal(lines, later, rest, one, 1, LEAST_LINES);
      LoadedSum(warehouses, lines, one, 1, rest);
    }
  }

  lemma NewestStarts(lines: map<OLKey, OrderLine>, k: OKey, n: nat)
    requires NewestLines(lines, k, n)
    ensures StartsWith(Candidates(lines, LineKey(k, 0)), k, 1, n)
  {
  }

  /** The scan starts with the order's first lines, and its total is the sum of their amounts. */
  lemma ScanOfNewest(warehouses: nat, lines: map<OLKey, OrderLine>, k: OKey, n: nat)
    requires LineTable(warehouses, lines) && NewestLines(lines, k, n) && n >= LEAST_LINES
    ensures var rows, m := Scan(lines, LineKey(k, 0), SCANNED), Min(n, SCANNED);
            && |rows| >= m && (forall i :: 0 <= i < m ==> rows[i].0 == LineKey(k, 1 + i))
            && RowsTotal(rows) == Credit(lines, k, n)
  {
    hide LineTable, NewestLines, StartsWith, FirstRows, LineSum;
    var keys := Candidates(lines, LineKey(k, 0));
    NewestStarts(lines, k, n);
    FirstRowsAreLines(lines, keys, SCANNED, k, 1, n);
    FirstRowsTotal(lines, keys, SCANNED, k, 1, n);
    AfterNewest(warehouses, lines, k, n, SCANNED - Min(n, SCANNED));
  }

  /** The scanned rows are the order's first lines by number, and then lines of orders 1. */
  ghost predicate RowsShape(rows: seq<Row>, k: OKey, n: nat)
  {
    && Min(n, SCANNED) <= |rows| <= SCANNED
    && forall i :: 0 <= i < |rows| ==>
         if i < Min(n, SCANNED) then rows[i].0 == LineKey(k, 1 + i) else rows[i].0.o == 1
  }

  lemma LaterRows(warehouses: nat, lines: map<OLKey, OrderLine>, k: OKey, n: nat, rest: nat)
    requires LineTable(warehouses, lines) && NewestLines(lines, k, n) && rest <= LEAST_LINES
    ensures var rows := FirstRows(lines, LaterThan(Candidates(lines, LineKey(k, 0)), LineKey(k, n)), rest);
            forall i :: 0 <= i < |rows| ==> rows[i].0.o == 1
  {
    hide FirstRows, LineTable, NewestLines, StartsWith;
    var later := LaterThan(Candidates(lines, LineKey(k, 0)), LineKey(k, n));
    if later != {} {
      var g := Least(later);
      var one := OKey(g.w, g.d, 1);
      LaterStartsAtOne(warehouses, lines, k, n, g);
      FirstRowsAreLines(lines, later, rest, one, 1, LEAST_LINES);
    }
  }

  lemma ScanShape(warehouses: nat, lines: map<OLKey, OrderLine>, k: OKey, n: nat)
    requires LineTable(warehouses, lines) && NewestLines(lines, k, n) && n >= LEAST_LINES
    ensures RowsShape(Scan(lines, LineKey(k, 0), SCANNED), k, n)
  {
    hide LineTable, NewestLines, StartsWith, FirstRows;
    var keys := Candidates(lines, LineKey(k, 0));
    var m := Min(n, SCANNED);
    NewestStarts(lines, k, n);
    FirstRowsSplit(lines, keys, SCANNED, k, 1, n);
    FirstRowsAreLines(lines, keys, SCANNED, k, 1, n);
    LaterRows(warehouses, lines, k, n, SCANNED - m);
    var rows, rest := Scan(lines, LineKey(k, 0), SCANNED), FirstRows(lines, LaterThan(keys, LineKey(k, n)), SCANNED - m);
    forall i | m <= i < |rows| ensures rows[i].0.o == 1 {
      assert rows[i] == rows[m..][i - m] == rest[i - m];
    }
  }

  lemma {:induction false} SumSplit(lines: map<OLKey, OrderLine>, k: OKey, from: nat, m: nat, n: nat)
    requires m <= n
    ensures LineSum(lines, k, from, n) == LineSum(lines, k, from, m) + LineSum(lines, k, from + m, n - m)
    decreases m
  {
    if m > 0 {
      SumSplit(lines, k, from + 1, m - 1, n - 1);
    }
  }

  lemma {:induction false} SumPositive(warehouses: nat, lines: map<OLKey, OrderLine>, k: OKey, from: nat, count: nat)
    requires LineTable(warehouses, lines) && k.o > LOADED_DELIVERED
    requires forall i: nat :: from <= i < from + count ==> LineKey(k, i) in lines
    ensures LineSum(lines, k, from, count) >= count
    decreases count
  {
    if count > 0 {
      SumPositive(warehouses, lines, k, from + 1, count - 1);
    }
  }

  /** The credit is the order's whole amount exactly when the order has at most ten lines. */
  lemma CreditIsWholeAmount(warehouses: nat, lines: map<OLKey, OrderLine>, k: OKey, n: nat)
    requires LineTable(warehouses, lines) && LinesThere(lines, k, n) && k.o > LOADED_DELIVERED
    ensures Credit(lines, k, n) == LineSum(lines, k, 1, n) <==> n <= SCANNED
  {
    if n > SCANNED {
      SumSplit(lines, k, 1, SCANNED, n);
      SumPositive(warehouses, lines, k, 1 + SCANNED, n - SCANNED);
    }
  }

  /** Two versions of an order line differ at most in the delivery date. */
  predicate SameLine(a: OrderLine, b: OrderLine) { a.(delivered := 0) == b.(delivered := 0) }

  ghost predicate LinesKept(before: map<OLKey, OrderLine>, after: map<OLKey, OrderLine>)
  {
    forall k :: k in before ==> k in after && SameLine(before[k], after[k])
  }

  /** Amounts never change, so the credit does not depend on when it is computed. */
  lemma {:induction false} SumKept(before: map<OLKey, OrderLine>, after: map<OLKey, OrderLine>, k: OKey,
                                   from: nat, count: nat)
    requires LinesKept(before, after)
    requires forall i: nat :: from <= i < from + count ==> LineKey(k, i) in before
    ensures LineSum(before, k, from, count) == LineSum(after, k, from, count)
    decreases count
  {
    if count > 0 {
      assert SameLine(before[LineKey(k, from)], after[LineKey(k, from)]);
      SumKept(before, after, k, from + 1, count - 1);
    }
  }

  lemma CreditKept(before: map<OLKey, OrderLine>, after: map<OLKey, OrderLine>, k: OKey, n: nat)
    requires LinesKept(before, after) && LinesThere(before, k, n)
    ensures LinesThere(after, k, n) && Credit(before, k, n) == Credit(after, k, n)
  {
    assert forall i: nat :: 1 <= i <= n ==> LineKey(k, i) in before;
    SumKept(before, after, k, 1, Min(n, SCANNED));
  }
}
