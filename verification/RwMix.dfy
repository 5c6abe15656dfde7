/**
 The cursors of one rw_mix worker over its query keys. The worker's live keys are always
 the cyclic window of half the keys that starts at the delete cursor.
 */
module RwMix {
  import opened Common

  datatype Step = Get | Update | InsertRemove | Scan

  /** `j` positions after `start`, cyclically. */
  function At(start: nat, j: nat, n: nat): nat
    requires n > 0
  {
    (start + j) % n
  }

  /** The cursor after `i`, back at 0 after `n` positions. */
  function NextOf(i: nat, n: nat): nat { if i + 1 == n then 0 else i + 1 }

  /** Position `i` is among the `h` positions from `start` on. */
  predicate InWindow(i: nat, start: nat, h: nat, n: nat)
    requires n > 0
  {
    if start + h <= n then start <= i < start + h else start <= i < n || i < start + h - n
  }

  lemma WrapOnce(x: nat, n: nat)
    requires 0 < n && x < 2 * n
    ensures x % n == if x < n then x else x - n
  {
    var q := x / n;
    assert x == q * n + x % n;
    assert q >= 2 ==> q * n >= 2 * n;
  }

  lemma AddTurns(a: nat, k: nat, n: nat)
    requires n > 0
    ensures (a + k * n) % n == a % n
  {
    assert a + k * n == (a / n + k) * n + a % n;
    Remainder(a / n + k, a % n, n);
  }

  lemma Remainder(q: nat, r: nat, n: nat)
    requires r < n
    ensures (q * n + r) % n == r
  {
    var x := q * n + r;
    assert x == x / n * n + x % n;
    TimesKeepsOrder(x / n + 1, q, n);
    TimesKeepsOrder(q + 1, x / n, n);
  }

  lemma TimesKeepsOrder(a: nat, b: nat, n: nat)
    ensures a <= b ==> a * n <= b * n
  {
  }

  /** Whatever the cursor, its position is in the window if and only if it is in the lower half, modulo the size. */
  lemma AtInWindowExactly(start: nat, q: nat, h: nat, n: nat)
    requires start < n && h <= n
    ensures At(start, q, n) < n
    ensures InWindow(At(start, q, n), start, h, n) <==> q % n < h
  {
    var j := q % n;
    assert start + q == (start + j) + q / n * n;
    AddTurns(start + j, q / n, n);
    WrapOnce(start + j, n);
  }

  lemma AtIsInWindow(start: nat, j: nat, h: nat, n: nat)
    requires start < n && j < h <= n
    ensures At(start, j, n) < n && InWindow(At(start, j, n), start, h, n)
    ensures At(start, j, n) == if start + j < n then start + j else start + j - n
  {
    WrapOnce(start + j, n);
  }

  /**
   The existing keys are the window of half the keys exactly when there are as many of
   them as of the others, or one fewer.
   */
  lemma StartsAsWindow(exist: nat, nonExist: nat, n: nat, h: nat)
    requires exist > 0 && n == exist + nonExist && h == n / 2
    ensures (forall i: nat :: i < n ==> (i < exist <==> InWindow(i, 0, h, n)))
       <==> exist == nonExist || exist + 1 == nonExist
  {
    if exist < h {
      assert InWindow(exist, 0, h, n);
    } else if exist > h {
      assert !InWindow(h, 0, h, n);
    }
  }

  /** A worker's cursors; `half` between the insert and the remove of a pair. */
  datatype Cursors = Cursors(queryI: nat, updateI: nat, insertI: nat, deleteI: nat, half: bool)

  /**
   Of the worker's keys, the table holds exactly the window, and the inserted one in the
   middle of a pair; the insert cursor follows the window.
   */
  ghost predicate Windowed<K, V>(keys: seq<K>, table: map<K, V>, c: Cursors)
  {
    var n := |keys|;
    && n >= 2 && Distinct(keys)
    && c.deleteI < n && c.updateI < n / 2
    && c.insertI == (if c.deleteI + n / 2 < n then c.deleteI + n / 2 else c.deleteI + n / 2 - n)
    && forall i :: 0 <= i < n ==>
         (keys[i] in table <==> InWindow(i, c.deleteI, n / 2, n) || (c.half && i == c.insertI))
  }

  /** Keys of others and their values are as before, values are old or `v`, and the size stays. */
  ghost predicate OthersStay<K, V>(keys: seq<K>, before: map<K, V>, after: map<K, V>, v: V)
  {
    && |after| == |before|
    && (forall k :: k in after ==> after[k] == v || (k in before && after[k] == before[k]))
    && (forall k :: k in before && k !in keys ==> k in after && before[k] == after[k])
    && (forall k :: k in after && k !in keys ==> k in before)
  }

  lemma OthersStayOn<K, V>(keys: seq<K>, a: map<K, V>, b: map<K, V>, c: map<K, V>, v: V)
    requires OthersStay(keys, a, b, v) && OthersStay(keys, b, c, v)
    ensures OthersStay(keys, a, c, v)
  {
  }

  lemma NothingMoves<K, V>(keys: seq<K>, table: map<K, V>, v: V)
    ensures OthersStay(keys, table, table, v)
  {
  }

  lemma HasKeys<K, V>(keys: seq<K>, table: map<K, V>, c: Cursors)
    requires Windowed(keys, table, c)
    ensures |keys| >= 2 && CursorsFit(c, |keys|)
  {
  }

  class Worker<K(==), V> {
    const queryKeys: seq<K>
    var queryI: nat
    var updateI: nat
    var insertI: nat
    var deleteI: nat
    var table: map<K, V>  // the shared table, with other workers' keys

    ghost predicate Valid()
      reads this
    {
      Windowed(queryKeys, table, Cursors(queryI, updateI, insertI, deleteI, false))
    }

    /**
     `existKeys` are in the table, `nonExistKeys` are not. The state is valid only if the
     existing keys are as many as the lower half of all.
     */
    constructor (existKeys: seq<K>, nonExistKeys: seq<K>, loaded: map<K, V>)
      requires Distinct(existKeys + nonExistKeys) && existKeys != []
      requires |existKeys| == |nonExistKeys| || |existKeys| + 1 == |nonExistKeys|
      requires forall k :: k in existKeys ==> k in loaded
      requires forall k :: k in nonExistKeys ==> k !in loaded
      ensures Valid() && queryKeys == existKeys + nonExistKeys && table == loaded && deleteI == 0
    {
      queryKeys := existKeys + nonExistKeys;
      queryI, updateI, deleteI := 0, 0, 0;
      insertI := (|existKeys| + |nonExistKeys|) / 2;
      table := loaded;
    }

    /** A read finds its key if and only if the read cursor is in the lower half, modulo the size. */
    method Get() returns (found: bool)
      requires Valid()
      modifies this`queryI
      ensures Valid() && found == (old(queryI) % |queryKeys| < |queryKeys| / 2)
      ensures queryI == NextOf(old(queryI), |queryKeys| / 2)
    {
      AtInWindowExactly(deleteI, queryI, |queryKeys| / 2, |queryKeys|);
      found := queryKeys[(queryI + deleteI) % |queryKeys|] in table;
      queryI := queryI + 1;
      if queryI == |queryKeys| / 2 {
        queryI := 0;
      }
    }

    /** A scan starts at the key of the read cursor, which must be one of the keys, and moves it through all of them. */
    method Scan() returns (inRange: bool)
      requires Valid()
      modifies this`queryI
      ensures Valid() && inRange == (old(queryI) < |queryKeys|)
      ensures queryI == if inRange then NextOf(old(queryI), |queryKeys|) else old(queryI)
    {
      inRange := queryI < |queryKeys|;
      if inRange {
        queryI := queryI + 1;
        if queryI == |queryKeys| {
          queryI := 0;
        }
      }
    }

    /** An in-place update finds its key, so the keys stay the same. */
    method Update(v: V)
      requires Valid()
      modifies this`updateI, this`table
      ensures Valid() && table.Keys == old(table).Keys && OthersStay(queryKeys, old(table), table, v)
      ensures table == old(table)[queryKeys[At(deleteI, old(updateI), |queryKeys|)] := v]
      ensures updateI == NextOf(old(updateI), |queryKeys| / 2)
    {
      AtIsInWindow(deleteI, updateI, |queryKeys| / 2, |queryKeys|);
      var k := queryKeys[(updateI + deleteI) % |queryKeys|];
      table := table[k := v];
      assert |table.Keys| == |old(table).Keys|;
      updateI := updateI + 1;
      if updateI == |queryKeys| / 2 {
        updateI := 0;
      }
    }

    /** The insert is of a new key, the removal of a present one, and the table keeps its size. */
    method InsertRemove(v: V) returns (inserted: bool, removed: bool)
      requires Valid()
      modifies this`insertI, this`deleteI, this`table
      ensures Valid() && inserted && removed && |table| == |old(table)|
      ensures deleteI == NextOf(old(deleteI), |queryKeys|)
      ensures table == old(table)[queryKeys[old(insertI)] := v] - {queryKeys[old(deleteI)]}
      ensures OthersStay(queryKeys, old(table), table, v)
    {
      var added, gone := queryKeys[insertI], queryKeys[deleteI];
      inserted := added !in table;
      table := table[added := v];
      removed := gone in table;
      assert |table| == |old(table)| + 1;
      assert (table - {gone}).Keys == table.Keys - {gone};
      table := table - {gone};
      insertI, deleteI := insertI + 1, deleteI + 1;
      if insertI == |queryKeys| {
        insertI := 0;
      }
      if deleteI == |queryKeys| {
        deleteI := 0;
      }
    }

    /**
     Any run of reads, updates, insert-remove pairs and scans, up to the first scan that is out
     of range: what each step finds depends on the read cursor alone. The size stays.
     */
    method Run(steps: seq<Step>, v: V) returns (fine: seq<bool>)
      requires Valid()
      modifies this
      ensures Valid() && OthersStay(queryKeys, old(table), table, v) && |fine| <= |steps|
      ensures forall i :: 0 <= i < |fine| ==>
                fine[i] == IsFine(steps[i], CursorAt(old(queryI), |queryKeys|, steps, i), |queryKeys|)
      ensures |fine| < |steps| <==>
                exists i :: 0 <= i < |steps|
                         && IsOutside(steps[i], CursorAt(old(queryI), |queryKeys|, steps, i), |queryKeys|)
    {
      hide Windowed, CursorAt, IsFine, IsOutside, OthersStay;
      fine := [];
      CursorStarts(queryI, |queryKeys|, steps);
      NothingMoves(queryKeys, table, v);
      for i := 0 to |steps|
        invariant Valid() && |fine| == i && OthersStay(queryKeys, old(table), table, v)
        invariant queryI == CursorAt(old(queryI), |queryKeys|, steps, i)
        invariant forall j :: 0 <= j < i ==>
                    && fine[j] == IsFine(steps[j], CursorAt(old(queryI), |queryKeys|, steps, j), |queryKeys|)
                    && !IsOutside(steps[j], CursorAt(old(queryI), |queryKeys|, steps, j), |queryKeys|)
      {
        CursorMoves(old(queryI), |queryKeys|, steps, i);
        HasKeys(queryKeys, table, Cursors(queryI, updateI, insertI, deleteI, false));
        FineSteps(steps[i], queryI, |queryKeys|);
        match steps[i]
        case Get =>
          var found := Get();
          fine := fine + [found];
        case Scan =>
          var inRange := Scan();
          if !inRange {
            return;
          }
          fine := fine + [true];
        case Update =>
          ghost var before := table;
          Update(v);
          OthersStayOn(queryKeys, old(table), before, table, v);
          fine := fine + [true];
        case InsertRemove =>
          ghost var before := table;
          var inserted, removed := InsertRemove(v);
          OthersStayOn(queryKeys, old(table), before, table, v);
          fine := fine + [inserted && removed];
      }
    }
  }

  // ----- the read cursor of a run

  function NextCursor(step: Step, q: nat, n: nat): nat
  {
    match step
    case Get => NextOf(q, n / 2)
    case Scan => NextOf(q, n)
    case _ => q
  }

  /** The read cursor before step `i`. */
  function CursorAt(q: nat, n: nat, steps: seq<Step>, i: nat): nat
    requires i <= |steps|
  {
    if i == 0 then q else NextCursor(steps[i - 1], CursorAt(q, n, steps, i - 1), n)
  }

  /** A read hits in the lower half, modulo the size; a scan needs a cursor within the keys. */
  predicate IsFine(step: Step, q: nat, n: nat)
  {
    match step
    case Get => n > 0 && q % n < n / 2
    case Scan => q < n
    case _ => true
  }

  /** A scan whose cursor has left the keys. */
  predicate IsOutside(step: Step, q: nat, n: nat) { step.Scan? && n <= q }

  lemma CursorStarts(q: nat, n: nat, steps: seq<Step>)
    ensures CursorAt(q, n, steps, 0) == q
  {
  }

  lemma CursorMoves(q: nat, n: nat, steps: seq<Step>, i: nat)
    requires i < |steps|
    ensures CursorAt(q, n, steps, i + 1) == NextCursor(steps[i], CursorAt(q, n, steps, i), n)
  {
  }

  lemma FineSteps(step: Step, q: nat, n: nat)
    requires n > 0
    ensures step.Get? ==> (IsFine(step, q, n) <==> q % n < n / 2)
    ensures step.Scan? ==> (IsFine(step, q, n) <==> q < n)
    ensures step.Update? || step.InsertRemove? ==> IsFine(step, q, n)
    ensures IsOutside(step, q, n) <==> step.Scan? && !IsFine(step, q, n)
  {
  }

  lemma LeavesByReadOnly(step: Step, q: nat, n: nat)
    requires n >= 2
    ensures NextCursor(step, q, n) >= n <==> q >= n || (step.Get? && q == n - 1)
  {
  }

  /** The cursor leaves the keys exactly by a read at the last of them, and never comes back. */
  lemma {:induction false} LeavesExactly(q: nat, n: nat, steps: seq<Step>, i: nat)
    requires n >= 2 && q < n && i <= |steps|
    ensures CursorAt(q, n, steps, i) >= n
       <==> exists j: nat :: j < i && steps[j].Get? && CursorAt(q, n, steps, j) == n - 1
  {
    hide CursorAt, NextCursor;
    if i > 0 {
      CursorMoves(q, n, steps, i - 1);
      LeavesExactly(q, n, steps, i - 1);
      LeavesByReadOnly(steps[i - 1], CursorAt(q, n, steps, i - 1), n);
    } else {
      CursorStarts(q, n, steps);
    }
  }

  /** A scan of a run is out of range if and only if a read at the last key came before it. */
  lemma ScanOutOfRangeExactly(q: nat, n: nat, steps: seq<Step>, i: nat)
    requires n >= 2 && q < n && i < |steps| && steps[i].Scan?
    ensures !IsFine(steps[i], CursorAt(q, n, steps, i), n)
       <==> exists j: nat :: j < i && steps[j].Get? && CursorAt(q, n, steps, j) == n - 1
  {
    LeavesExactly(q, n, steps, i);
  }

  /** Without scans the cursor stays in the lower half, so everything hits. */
  lemma {:induction false} FineWithoutScans(q: nat, n: nat, steps: seq<Step>, i: nat)
    requires n >= 2 && q < n / 2 && i < |steps| && forall s :: s in steps ==> !s.Scan?
    ensures CursorAt(q, n, steps, i) < n / 2 && IsFine(steps[i], CursorAt(q, n, steps, i), n)
  {
    hide CursorAt, IsFine;
    CursorStarts(q, n, steps);
    if i > 0 {
      CursorMoves(q, n, steps, i - 1);
      FineWithoutScans(q, n, steps, i - 1);
    }
    WrapOnce(CursorAt(q, n, steps, i), n);
    FineSteps(steps[i], CursorAt(q, n, steps, i), n);
  }

  /** A scan that leaves the cursor just past the lower half makes the next read miss. */
  lemma ScanMakesReadMiss(n: nat)
    requires n >= 4
    ensures var steps := [Scan, Get];
            IsFine(steps[0], CursorAt(n / 2 - 1, n, steps, 0), n) && !IsFine(steps[1], CursorAt(n / 2 - 1, n, steps, 1), n)
  {
    var steps := [Scan, Get];
    assert CursorAt(n / 2 - 1, n, steps, 1) == NextCursor(steps[0], CursorAt(n / 2 - 1, n, steps, 0), n);
    WrapOnce(n / 2, n);
  }

  // ----- several workers on one table, one access at a time

  datatype Access = Read | Overwrite | ScanFrom | Insert | Remove

  /** One worker's turn: the insert and the remove of a pair are two accesses. */
  datatype Turn = Turn(worker: nat, access: Access)

  function CursorsAfter(c: Cursors, access: Access, n: nat): Cursors
  {
    match access
    case Read => c.(queryI := NextOf(c.queryI, n / 2))
    case Overwrite => c.(updateI := NextOf(c.updateI, n / 2))
    case ScanFrom => c.(queryI := NextOf(c.queryI, n))
    case Insert => c.(half := true)
    case Remove => c.(insertI := NextOf(c.insertI, n), deleteI := NextOf(c.deleteI, n), half := false)
  }

  predicate CursorsFit(c: Cursors, n: nat) { n > 0 && c.insertI < n && c.deleteI < n }

  function TableAfter<K, V>(keys: seq<K>, table: map<K, V>, c: Cursors, access: Access, v: V): map<K, V>
    requires CursorsFit(c, |keys|)
  {
    match access
    case Read => table
    case Overwrite => table[keys[At(c.deleteI, c.updateI, |keys|)] := v]
    case ScanFrom => table
    case Insert => table[keys[c.insertI] := v]
    case Remove => table - {keys[c.deleteI]}
  }

  /** Reads, overwrites and removals find their key, inserts do not, and a scan's first key exists. */
  predicate Succeeds<K, V>(keys: seq<K>, table: map<K, V>, c: Cursors, access: Access)
    requires CursorsFit(c, |keys|)
  {
    match access
    case Read => keys[At(c.deleteI, c.queryI, |keys|)] in table
    case Overwrite => keys[At(c.deleteI, c.updateI, |keys|)] in table
    case ScanFrom => c.queryI < |keys|
    case Insert => keys[c.insertI] !in table
    case Remove => keys[c.deleteI] in table
  }

  /** What an access needs of the read cursor. */
  predicate CursorIsFine(c: Cursors, access: Access, n: nat)
  {
    (access.Read? ==> IsFine(Get, c.queryI, n)) && (access.ScanFrom? ==> IsFine(Scan, c.queryI, n))
  }

  lemma AccessKeepsWindow<K, V>(keys: seq<K>, table: map<K, V>, c: Cursors, access: Access, v: V)
    requires Windowed(keys, table, c) && (c.half <==> access.Remove?)
    ensures CursorsFit(c, |keys|) && (Succeeds(keys, table, c, access) <==> CursorIsFine(c, access, |keys|))
    ensures Windowed(keys, TableAfter(keys, table, c, access, v), CursorsAfter(c, access, |keys|))
  {
    hide At;
    AtInWindowExactly(c.deleteI, c.queryI, |keys| / 2, |keys|);
    AtIsInWindow(c.deleteI, c.updateI, |keys| / 2, |keys|);
    if access.Remove? {
      RemoveKeepsWindow(keys, table, c);
    }
  }

  /** The remove completes the pair and moves the window on by one. */
  lemma RemoveKeepsWindow<K, V>(keys: seq<K>, table: map<K, V>, c: Cursors)
    requires Windowed(keys, table, c) && c.half
    ensures keys[c.deleteI] in table
    ensures Windowed(keys, table - {keys[c.deleteI]},
                     Cursors(c.queryI, c.updateI, NextOf(c.insertI, |keys|), NextOf(c.deleteI, |keys|), false))
  {
  }

  /** Keys of different workers have nothing in common. */
  ghost predicate Apart<K>(keys: seq<seq<K>>)
  {
    forall i, j :: 0 <= i < |keys| && 0 <= j < |keys| && i != j ==> forall k :: k in keys[i] ==> k !in keys[j]
  }

  ghost predicate AllWindowed<K, V>(keys: seq<seq<K>>, table: map<K, V>, cs: seq<Cursors>)
  {
    |keys| == |cs| && forall i :: 0 <= i < |cs| ==> Windowed(keys[i], table, cs[i])
  }

  /** A worker's access changes the presence of its own keys only. */
  lemma OnlyOwnKeys<K, V>(keys: seq<K>, table: map<K, V>, c: Cursors, access: Access, v: V, k: K)
    requires CursorsFit(c, |keys|) && k !in keys
    ensures k in TableAfter(keys, table, c, access, v) <==> k in table
  {
  }

  lemma OthersKeepWindow<K, V>(keys: seq<K>, before: map<K, V>, after: map<K, V>, c: Cursors)
    requires Windowed(keys, before, c) && forall k :: k in keys ==> (k in before <==> k in after)
    ensures Windowed(keys, after, c)
  {
  }

  /** A worker may take a turn: it removes exactly in the middle of a pair. */
  predicate CanTurn<K>(keys: seq<seq<K>>, cs: seq<Cursors>, t: Turn)
  {
    && t.worker < |cs| == |keys| && (cs[t.worker].half <==> t.access.Remove?)
    && CursorsFit(cs[t.worker], |keys[t.worker]|)
  }

  function TurnTable<K, V>(keys: seq<seq<K>>, table: map<K, V>, cs: seq<Cursors>, t: Turn, v: V): map<K, V>
    requires CanTurn(keys, cs, t)
  {
    TableAfter(keys[t.worker], table, cs[t.worker], t.access, v)
  }

  function TurnCursors<K>(keys: seq<seq<K>>, cs: seq<Cursors>, t: Turn): seq<Cursors>
    requires CanTurn(keys, cs, t)
  {
    cs[t.worker := CursorsAfter(cs[t.worker], t.access, |keys[t.worker]|)]
  }

  predicate IsRun<K>(keys: seq<seq<K>>, cs: seq<Cursors>, turns: seq<Turn>)
    decreases |turns|
  {
    turns == [] || (CanTurn(keys, cs, turns[0]) && IsRun(keys, TurnCursors(keys, cs, turns[0]), turns[1..]))
  }

  /** The table and the cursors after the run. */
  function Final<K, V>(keys: seq<seq<K>>, table: map<K, V>, cs: seq<Cursors>, turns: seq<Turn>, v: V)
    : (map<K, V>, seq<Cursors>)
    requires IsRun(keys, cs, turns)
    decreases |turns|
  {
    if turns == [] then (table, cs)
    else Final(keys, TurnTable(keys, table, cs, turns[0], v), TurnCursors(keys, cs, turns[0]), turns[1..], v)
  }

  predicate AllSucceed<K, V>(keys: seq<seq<K>>, table: map<K, V>, cs: seq<Cursors>, turns: seq<Turn>, v: V)
    requires IsRun(keys, cs, turns)
    decreases |turns|
  {
    turns == [] ||
    (var w := turns[0].worker;
     && Succeeds(keys[w], table, cs[w], turns[0].access)
     && AllSucceed(keys, TurnTable(keys, table, cs, turns[0], v), TurnCursors(keys, cs, turns[0]), turns[1..], v))
  }

  /** Each worker's read cursor is where its reads and scans need it. */
  predicate AllFine<K>(keys: seq<seq<K>>, cs: seq<Cursors>, turns: seq<Turn>)
    requires IsRun(keys, cs, turns)
    decreases |turns|
  {
    turns == [] ||
    (var w := turns[0].worker;
     CursorIsFine(cs[w], turns[0].access, |keys[w]|) && AllFine(keys, TurnCursors(keys, cs, turns[0]), turns[1..]))
  }

  /** Whoever is not in the middle of a pair may do anything but remove; otherwise the remove comes next. */
  lemma WindowedCanTurn<K, V>(keys: seq<seq<K>>, table: map<K, V>, cs: seq<Cursors>, t: Turn)
    requires AllWindowed(keys, table, cs)
    ensures CanTurn(keys, cs, t) <==> t.worker < |cs| && (cs[t.worker].half <==> t.access.Remove?)
  {
    if t.worker < |cs| {
      assert Windowed(keys[t.worker], table, cs[t.worker]);
    }
  }

  lemma TurnKeepsWindows<K, V>(keys: seq<seq<K>>, table: map<K, V>, cs: seq<Cursors>, t: Turn, v: V)
    requires Apart(keys) && AllWindowed(keys, table, cs) && CanTurn(keys, cs, t)
    ensures Succeeds(keys[t.worker], table, cs[t.worker], t.access)
       <==> CursorIsFine(cs[t.worker], t.access, |keys[t.worker]|)
    ensures AllWindowed(keys, TurnTable(keys, table, cs, t, v), TurnCursors(keys, cs, t))
  {
    hide TableAfter, CursorsAfter, Succeeds, Windowed, CursorIsFine;
    var i := t.worker;
    AccessKeepsWindow(keys[i], table, cs[i], t.access, v);
    forall j | 0 <= j < |cs| && j != i ensures Windowed(keys[j], TurnTable(keys, table, cs, t, v), cs[j]) {
      forall k | k in keys[j] ensures k in table <==> k in TurnTable(keys, table, cs, t, v) {
        OnlyOwnKeys(keys[i], table, cs[i], t.access, v, k);
      }
      OthersKeepWindow(keys[j], table, TurnTable(keys, table, cs, t, v), cs[j]);
    }
  }

  /**
   Any interleaving of the workers' single accesses on the one table: every worker's live keys
   are its window, whatever the others do in between, and all accesses succeed if and only if
   the read cursors are fine, which depends on each worker's own reads and scans alone.
   */
  lemma {:induction false} InterleavingKeepsWindows<K, V>(keys: seq<seq<K>>, table: map<K, V>, cs: seq<Cursors>,
                                                         turns: seq<Turn>, v: V)
    requires Apart(keys) && AllWindowed(keys, table, cs) && IsRun(keys, cs, turns)
    ensures AllSucceed(keys, table, cs, turns, v) <==> AllFine(keys, cs, turns)
    ensures var (table', cs') := Final(keys, table, cs, turns, v); AllWindowed(keys, table', cs')
    decreases |turns|
  {
    if turns != [] {
      hide AllWindowed, Apart, CursorsAfter, TableAfter, Succeeds, CursorIsFine;
      var t := turns[0];
      TurnKeepsWindows(keys, table, cs, t, v);
      InterleavingKeepsWindows(keys, TurnTable(keys, table, cs, t, v), TurnCursors(keys, cs, t), turns[1..], v);
    }
  }

  /** The turn stores a value under key `k`. */
  predicate Writes<K(==)>(keys: seq<seq<K>>, cs: seq<Cursors>, t: Turn, k: K)
    requires CanTurn(keys, cs, t)
  {
    var own, c := keys[t.worker], cs[t.worker];
    || (t.access.Overwrite? && own[(c.updateI + c.deleteI) % |own|] == k)
    || (t.access.Insert? && own[c.insertI] == k)
  }

  predicate IsWritten<K(==)>(keys: seq<seq<K>>, cs: seq<Cursors>, turns: seq<Turn>, k: K)
    requires IsRun(keys, cs, turns)
    decreases |turns|
  {
    turns != [] &&
    (Writes(keys, cs, turns[0], k) || IsWritten(keys, TurnCursors(keys, cs, turns[0]), turns[1..], k))
  }

  /** After any interleaving, the keys that are there hold the run's value if it wrote them, and else what they held. */
  lemma {:induction false} FinalValues<K, V>(keys: seq<seq<K>>, table: map<K, V>, cs: seq<Cursors>, turns: seq<Turn>,
                                            v: V, k: K)
    requires IsRun(keys, cs, turns)
    ensures var table' := Final(keys, table, cs, turns, v).0;
            k in table' ==> if IsWritten(keys, cs, turns, k) then table'[k] == v else k in table && table'[k] == table[k]
    decreases |turns|
  {
    if turns != [] {
      FinalValues(keys, TurnTable(keys, table, cs, turns[0], v), TurnCursors(keys, cs, turns[0]), turns[1..], v, k);
    }
  }

  /** Without scans every access of every interleaving succeeds. */
  lemma {:induction false} InterleavingSucceeds<K>(keys: seq<seq<K>>, cs: seq<Cursors>, turns: seq<Turn>)
    requires IsRun(keys, cs, turns) && forall t :: t in turns ==> !t.access.ScanFrom?
    requires |keys| == |cs| && forall i :: 0 <= i < |cs| ==> cs[i].queryI < |keys[i]| / 2
    ensures AllFine(keys, cs, turns)
    decreases |turns|
  {
    if turns != [] {
      assert turns[0] in turns;
      WrapOnce(cs[turns[0].worker].queryI, |keys[turns[0].worker]|);
      InterleavingSucceeds(keys, TurnCursors(keys, cs, turns[0]), turns[1..]);
    }
  }
}
