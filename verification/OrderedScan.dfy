/**
 The ordered-map contract of `scan`: the first `n` rows, in key order, whose key is
 not below the start key.
 */
module OrderedScan {
  import opened Schema

  type Row = (OLKey, OrderLine)

  predicate AtLeast(start: OLKey, k: OLKey) { start == k || OLLess(start, k) }

  predicate IsLeast(keys: set<OLKey>, k: OLKey)
  {
    k in keys && forall j :: j in keys && j != k ==> OLLess(k, j)
  }

  lemma {:induction false} LeastExists(keys: set<OLKey>)
    requires keys != {}
    ensures exists k :: IsLeast(keys, k)
    decreases |keys|
  {
    var k :| k in keys;
    var rest := keys - {k};
    if rest == {} {
      assert keys == {k};
      assert IsLeast(keys, k);
    } else {
      LeastExists(rest);
      var j :| IsLeast(rest, j);
      var least := if OLLess(k, j) then k else j;
      forall x | x in keys && x != least ensures OLLess(least, x) {
        assert x == k || x in rest;
      }
      assert IsLeast(keys, least);
    }
  }

  function Least(keys: set<OLKey>): (k: OLKey)
    requires keys != {}
    ensures IsLeast(keys, k)
  {
    LeastExists(keys);
    var k :| IsLeast(keys, k);
    k
  }

  function Candidates(lines: map<OLKey, OrderLine>, start: OLKey): set<OLKey>
  {
    set k | k in lines.Keys && AtLeast(start, k)
  }

  function FirstRows(lines: map<OLKey, OrderLine>, keys: set<OLKey>, n: nat): (rows: seq<Row>)
    requires keys <= lines.Keys
    ensures |rows| <= n
    ensures forall i :: 0 <= i < |rows| ==> rows[i].0 in keys && rows[i].1 == lines[rows[i].0]
  {
    if n == 0 || keys == {} then []
    else
      var k := Least(keys);
      [(k, lines[k])] + FirstRows(lines, keys - {k}, n - 1)
  }

  function Scan(lines: map<OLKey, OrderLine>, start: OLKey, n: nat): (rows: seq<Row>)
    ensures |rows| <= n
    ensures forall i :: 0 <= i < |rows| ==> rows[i].0 in lines && rows[i].1 == lines[rows[i].0]
  {
    FirstRows(lines, Candidates(lines, start), n)
  }

  ghost predicate Ascend(rows: seq<Row>)
  {
    forall i, j :: 0 <= i < j < |rows| ==> OLLess(rows[i].0, rows[j].0)
  }

  ghost predicate AllBefore(rows: seq<Row>, k: OLKey) { forall i :: 0 <= i < |rows| ==> OLLess(rows[i].0, k) }

  ghost predicate IsAmong(rows: seq<Row>, k: OLKey) { exists i :: 0 <= i < |rows| && rows[i].0 == k }

  /** `rows` ascend, and every key of `keys` is among them or comes after `n` of them. */
  ghost predicate AreFirst(rows: seq<Row>, keys: set<OLKey>, n: nat)
  {
    Ascend(rows) && forall k :: k in keys ==> IsAmong(rows, k) || (|rows| == n && AllBefore(rows, k))
  }

  lemma ConsAscend(row: Row, rows: seq<Row>, keys: set<OLKey>)
    requires IsLeast(keys, row.0) && Ascend(rows)
    requires forall i :: 0 <= i < |rows| ==> rows[i].0 in keys - {row.0}
    ensures Ascend([row] + rows)
  {
  }

  lemma ConsPlaces(row: Row, rows: seq<Row>, k: OLKey)
    ensures IsAmong([row] + rows, k) <==> k == row.0 || IsAmong(rows, k)
    ensures AllBefore([row] + rows, k) <==> OLLess(row.0, k) && AllBefore(rows, k)
  {
    var all := [row] + rows;
    assert all[0] == row && forall i :: 0 <= i < |rows| ==> all[i + 1] == rows[i];
  }

  lemma ConsIsFirst(row: Row, rows: seq<Row>, keys: set<OLKey>, n: nat)
    requires IsLeast(keys, row.0) && AreFirst(rows, keys - {row.0}, n)
    requires forall i :: 0 <= i < |rows| ==> rows[i].0 in keys - {row.0}
    ensures AreFirst([row] + rows, keys, n + 1)
  {
    hide Ascend, IsAmong, AllBefore, OLLess;
    ConsAscend(row, rows, keys);
    forall k | k in keys
      ensures IsAmong([row] + rows, k) || (|[row] + rows| == n + 1 && AllBefore([row] + rows, k))
    {
      ConsPlaces(row, rows, k);
    }
  }

  lemma NoneAreFirst(keys: set<OLKey>, n: nat)
    requires n == 0 || keys == {}
    ensures AreFirst([], keys, n)
  {
  }

  lemma LeastIn(keys: set<OLKey>, k: OLKey)
    requires IsLeast(keys, k)
    ensures k in keys
  {
  }

  lemma {:induction false} FirstRowsAreFirst(lines: map<OLKey, OrderLine>, keys: set<OLKey>, n: nat)
    requires keys <= lines.Keys
    ensures AreFirst(FirstRows(lines, keys, n), keys, n)
    decreases n
  {
    hide AreFirst, IsLeast;
    if n == 0 || keys == {} {
      NoneAreFirst(keys, n);
    } else {
      var k := Least(keys);
      LeastIn(keys, k);
      FirstRowsAreFirst(lines, keys - {k}, n - 1);
      ConsIsFirst((k, lines[k]), FirstRows(lines, keys - {k}, n - 1), keys, n - 1);
    }
  }

  /** A scan skips nothing: its rows ascend from `start`, and what it leaves out comes after `n` rows. */
  lemma ScanIsFirst(lines: map<OLKey, OrderLine>, start: OLKey, n: nat)
    ensures AreFirst(Scan(lines, start, n), Candidates(lines, start), n)
    ensures forall row :: row in Scan(lines, start, n) ==> AtLeast(start, row.0)
  {
    FirstRowsAreFirst(lines, Candidates(lines, start), n);
  }

  // ----- a scan that starts at an order's lines

  function LineKey(k: OKey, n: nat): OLKey { OLKey(k.w, k.d, k.o, n) }

  function RowsTotal(rows: seq<Row>): int { if rows == [] then 0 else rows[0].1.amount + RowsTotal(rows[1..]) }

  function AmountAt(lines: map<OLKey, OrderLine>, l: OLKey): int { if l in lines then lines[l].amount else 0 }

  /** The amounts of `count` lines of order `k`, from line `from` on. */
  function LineSum(lines: map<OLKey, OrderLine>, k: OKey, from: nat, count: nat): int
    decreases count
  {
    if count == 0 then 0 else AmountAt(lines, LineKey(k, from)) + LineSum(lines, k, from + 1, count - 1)
  }

  ghost function LaterThan(keys: set<OLKey>, l: OLKey): set<OLKey> { set j | j in keys && OLLess(l, j) }

  function Min(a: nat, b: nat): nat { if a <= b then a else b }

  /** `keys` are lines `from` to `last` of order `k`, and keys above them. */
  ghost predicate StartsWith(keys: set<OLKey>, k: OKey, from: nat, last: nat)
  {
    && (forall i: nat :: from <= i <= last ==> LineKey(k, i) in keys)
    && (forall l :: l in keys ==>
         (OKey(l.w, l.d, l.o) == k && from <= l.n <= last) || OLLess(LineKey(k, last), l))
  }

  lemma FirstRow(lines: map<OLKey, OrderLine>, keys: set<OLKey>, n: nat, l: OLKey)
    requires keys <= lines.Keys && n > 0
    requires IsLeast(keys, l)
    ensures FirstRows(lines, keys, n) == [(l, lines[l])] + FirstRows(lines, keys - {l}, n - 1)
  {
    assert Least(keys) == l;
  }

  lemma NextStartsWith(keys: set<OLKey>, k: OKey, from: nat, last: nat)
    requires from <= last && StartsWith(keys, k, from, last)
    ensures IsLeast(keys, LineKey(k, from))
    ensures StartsWith(keys - {LineKey(k, from)}, k, from + 1, last)
    ensures LaterThan(keys - {LineKey(k, from)}, LineKey(k, last)) == LaterThan(keys, LineKey(k, last))
  {
  }

  /** The first rows are the order's lines, by their numbers. */
  lemma {:induction false} FirstRowsAreLines(lines: map<OLKey, OrderLine>, keys: set<OLKey>, n: nat,
                             k: OKey, from: nat, last: nat)
    requires keys <= lines.Keys && from <= last + 1 && StartsWith(keys, k, from, last)
    ensures var rows, m := FirstRows(lines, keys, n), Min(n, last + 1 - from);
            |rows| >= m && forall i :: 0 <= i < m ==> rows[i].0 == LineKey(k, from + i)
    decreases last + 1 - from
  {
    hide FirstRows, IsLeast, StartsWith, LaterThan, OLLess;
    if from <= last && n > 0 {
      var l := LineKey(k, from);
      NextStartsWith(keys, k, from, last);
      FirstRow(lines, keys, n, l);
      FirstRowsAreLines(lines, keys - {l}, n - 1, k, from + 1, last);
      var rows, rest := FirstRows(lines, keys, n), FirstRows(lines, keys - {l}, n - 1);
      forall i | 0 <= i < Min(n, last + 1 - from) ensures rows[i].0 == LineKey(k, from + i) {
        assert i > 0 ==> rows[i] == rest[i - 1];
      }
    }
  }

  /** Behind the order's lines the scan goes on with what comes after them. */
  lemma {:induction false} FirstRowsSplit(lines: map<OLKey, OrderLine>, keys: set<OLKey>, n: nat,
                                          k: OKey, from: nat, last: nat)
    requires keys <= lines.Keys && from <= last + 1 && StartsWith(keys, k, from, last)
    ensures var rows, m := FirstRows(lines, keys, n), Min(n, last + 1 - from);
            |rows| >= m && rows[m..] == FirstRows(lines, LaterThan(keys, LineKey(k, last)), n - m)
    decreases last + 1 - from
  {
    hide FirstRows, IsLeast, StartsWith, LaterThan, OLLess;
    LaterThanIsPart(keys, LineKey(k, last));
    if from == last + 1 {
      AllLater(keys, k, from, last);
    } else if n == 0 {
      NoFirstRows(lines, keys);
      NoFirstRows(lines, LaterThan(keys, LineKey(k, last)));
    } else {
      var l := LineKey(k, from);
      NextStartsWith(keys, k, from, last);
      FirstRow(lines, keys, n, l);
      FirstRowsSplit(lines, keys - {l}, n - 1, k, from + 1, last);
      var rest := FirstRows(lines, keys - {l}, n - 1);
      assert forall m: nat :: m <= |rest| ==> ([(l, lines[l])] + rest)[m + 1..] == rest[m..];
    }
  }

  lemma NoFirstRows(lines: map<OLKey, OrderLine>, keys: set<OLKey>)
    requires keys <= lines.Keys
    ensures FirstRows(lines, keys, 0) == []
  {
  }

  lemma RowsTotalCons(row: Row, rows: seq<Row>)
    ensures RowsTotal([row] + rows) == row.1.amount + RowsTotal(rows)
  {
    assert ([row] + rows)[1..] == rows;
  }

  lemma LineSumStep(lines: map<OLKey, OrderLine>, k: OKey, from: nat, count: nat)
    ensures LineSum(lines, k, from, count)
         == if count == 0 then 0 else AmountAt(lines, LineKey(k, from)) + LineSum(lines, k, from + 1, count - 1)
  {
  }

  lemma NoRows(lines: map<OLKey, OrderLine>, keys: set<OLKey>)
    requires keys <= lines.Keys
    ensures RowsTotal(FirstRows(lines, keys, 0)) == 0
  {
  }

  lemma LaterThanIsPart(keys: set<OLKey>, l: OLKey)
    ensures LaterThan(keys, l) <= keys
  {
  }

  lemma AllLater(keys: set<OLKey>, k: OKey, from: nat, last: nat)
    requires from == last + 1 && StartsWith(keys, k, from, last)
    ensures LaterThan(keys, LineKey(k, last)) == keys
  {
  }

  /** The total of a scan is that of the order's lines and of the rows after them. */
  lemma {:induction false} FirstRowsTotal(lines: map<OLKey, OrderLine>, keys: set<OLKey>, n: nat,
                             k: OKey, from: nat, last: nat)
    requires keys <= lines.Keys && from <= last + 1 && StartsWith(keys, k, from, last)
    ensures var m := Min(n, last + 1 - from);
            RowsTotal(FirstRows(lines, keys, n))
            == LineSum(lines, k, from, m) + RowsTotal(FirstRows(lines, LaterThan(keys, LineKey(k, last)), n - m))
    decreases last + 1 - from
  {
    hide IsLeast, StartsWith, LaterThan, OLLess, FirstRows, RowsTotal, LineSum;
    LaterThanIsPart(keys, LineKey(k, last));
    LineSumStep(lines, k, from, Min(n, last + 1 - from));
    NoRows(lines, keys);
    NoRows(lines, LaterThan(keys, LineKey(k, last)));
    if from == last + 1 {
      AllLater(keys, k, from, last);
    } else if n > 0 {
      var l := LineKey(k, from);
      NextStartsWith(keys, k, from, last);
      FirstRow(lines, keys, n, l);
      FirstRowsTotal(lines, keys - {l}, n - 1, k, from + 1, last);
      RowsTotalCons((l, lines[l]), FirstRows(lines, keys - {l}, n - 1));
    }
  }
}
