/**
 The sorted array buffer: binary search and shifting insertion and removal agree with a
 finite map exactly as long as a new key finds the array not full.
 */
module BufferKv {
  import opened Common

  predicate Increasing(ks: seq<int>) { forall i, j :: 0 <= i < j < |ks| ==> ks[i] < ks[j] }

  /** `pos` splits the keys into those below `k` and the rest. */
  predicate IsLowerBound(ks: seq<int>, k: int, pos: nat)
  {
    pos <= |ks| && (forall i :: 0 <= i < pos ==> ks[i] < k) && forall i :: pos <= i < |ks| ==> ks[i] >= k
  }

  /** The map that pairs keys and values stand for. */
  ghost function AsMap<V>(ks: seq<int>, vs: seq<V>): map<int, V>
    requires |ks| == |vs|
  {
    if ks == [] then map[] else map[ks[0] := vs[0]] + AsMap(ks[1..], vs[1..])
  }

  function InsertAt<T>(s: seq<T>, pos: nat, x: T): seq<T>
    requires pos <= |s|
  {
    s[..pos] + [x] + s[pos..]
  }

  function RemoveAt<T>(s: seq<T>, pos: nat): seq<T>
    requires pos < |s|
  {
    s[..pos] + s[pos + 1..]
  }

  lemma LowerBoundFinds(ks: seq<int>, k: int, pos: nat)
    requires Increasing(ks) && IsLowerBound(ks, k, pos)
    ensures k in ks <==> pos < |ks| && ks[pos] == k
  {
  }

  lemma {:induction false} AsMapKeys<V>(ks: seq<int>, vs: seq<V>)
    requires |ks| == |vs|
    ensures forall k :: k in AsMap(ks, vs) <==> k in ks
  {
    if ks != [] {
      AsMapKeys(ks[1..], vs[1..]);
      assert ks == [ks[0]] + ks[1..];
    }
  }

  lemma AsMapCons<V>(k: int, v: V, ks: seq<int>, vs: seq<V>)
    requires |ks| == |vs|
    ensures AsMap([k] + ks, [v] + vs) == map[k := v] + AsMap(ks, vs)
  {
    assert ([k] + ks)[1..] == ks && ([v] + vs)[1..] == vs;
  }

  lemma AsMapNil<V>()
    ensures AsMap<V>([], []) == map[]
  {
  }

  lemma {:induction false} AsMapConcat<V>(a: seq<int>, va: seq<V>, b: seq<int>, vb: seq<V>)
    requires |a| == |va| && |b| == |vb|
    ensures AsMap(a + b, va + vb) == AsMap(a, va) + AsMap(b, vb)
  {
    hide AsMap;
    if a == [] {
      assert a + b == b && va + vb == vb && va == [];
      AsMapNil<V>();
    } else {
      var k, v, ks, vs := a[0], va[0], a[1..], va[1..];
      AsMapConcat(ks, vs, b, vb);
      AsMapCons(k, v, ks, vs);
      AsMapCons(k, v, ks + b, vs + vb);
      assert a == [k] + ks && va == [v] + vs;
      assert a + b == [k] + (ks + b) && va + vb == [v] + (vs + vb);
    }
  }

  lemma AsMapOne<V>(k: int, v: V)
    ensures AsMap([k], [v]) == map[k := v]
  {
  }

  /** One pair in the middle. */
  lemma AsMapAround<V>(a: seq<int>, va: seq<V>, k: int, v: V, b: seq<int>, vb: seq<V>)
    requires |a| == |va| && |b| == |vb| && k !in a && k !in b
    ensures AsMap(a + [k] + b, va + [v] + vb) == AsMap(a + b, va + vb)[k := v]
    ensures AsMap(a + b, va + vb) == AsMap(a + [k] + b, va + [v] + vb) - {k}
  {
    hide AsMap;
    AsMapConcat(a + [k], va + [v], b, vb);
    AsMapConcat(a, va, [k], [v]);
    AsMapConcat(a, va, b, vb);
    AsMapOne(k, v);
    AsMapKeys(a, va);
    AsMapKeys(b, vb);
  }

  lemma IncreasingParts(ks: seq<int>, pos: nat)
    requires Increasing(ks) && pos < |ks|
    ensures ks[pos] !in ks[..pos] && ks[pos] !in ks[pos + 1..] && Increasing(RemoveAt(ks, pos))
    ensures ks == ks[..pos] + [ks[pos]] + ks[pos + 1..]
  {
  }

  lemma InsertKeepsMap<V>(ks: seq<int>, vs: seq<V>, pos: nat, k: int, v: V)
    requires |ks| == |vs| && Increasing(ks) && IsLowerBound(ks, k, pos) && k !in ks
    ensures Increasing(InsertAt(ks, pos, k))
    ensures AsMap(InsertAt(ks, pos, k), InsertAt(vs, pos, v)) == AsMap(ks, vs)[k := v]
  {
    InsertIncreasing(ks, pos, k);
    hide Increasing, IsLowerBound;
    assert ks[..pos] + ks[pos..] == ks && vs[..pos] + vs[pos..] == vs;
    AsMapAround(ks[..pos], vs[..pos], k, v, ks[pos..], vs[pos..]);
  }

  lemma InsertIncreasing(ks: seq<int>, pos: nat, k: int)
    requires Increasing(ks) && IsLowerBound(ks, k, pos) && k !in ks
    ensures Increasing(InsertAt(ks, pos, k))
  {
    assert forall i :: pos <= i < |ks| ==> ks[i] != k;
  }

  lemma RemoveKeepsMap<V>(ks: seq<int>, vs: seq<V>, pos: nat)
    requires |ks| == |vs| && Increasing(ks) && pos < |ks|
    ensures Increasing(RemoveAt(ks, pos))
    ensures AsMap(RemoveAt(ks, pos), RemoveAt(vs, pos)) == AsMap(ks, vs) - {ks[pos]}
    ensures ks[pos] in AsMap(ks, vs)
  {
    hide Increasing, AsMap;
    IncreasingParts(ks, pos);
    assert vs == vs[..pos] + [vs[pos]] + vs[pos + 1..];
    AsMapAround(ks[..pos], vs[..pos], ks[pos], vs[pos], ks[pos + 1..], vs[pos + 1..]);
  }

  lemma UpdateKeepsMap<V>(ks: seq<int>, vs: seq<V>, pos: nat, v: V)
    requires |ks| == |vs| && Increasing(ks) && pos < |ks|
    ensures AsMap(ks, vs[pos := v]) == AsMap(ks, vs)[ks[pos] := v]
    ensures ks[pos] in AsMap(ks, vs) && AsMap(ks, vs)[ks[pos]] == vs[pos]
  {
    hide Increasing, AsMap;
    IncreasingParts(ks, pos);
    assert vs == vs[..pos] + [vs[pos]] + vs[pos + 1..];
    assert vs[pos := v] == vs[..pos] + [v] + vs[pos + 1..];
    AsMapAround(ks[..pos], vs[..pos], ks[pos], vs[pos], ks[pos + 1..], vs[pos + 1..]);
    AsMapAround(ks[..pos], vs[..pos], ks[pos], v, ks[pos + 1..], vs[pos + 1..]);
  }

  lemma {:induction false} AsMapSize<V>(ks: seq<int>, vs: seq<V>)
    requires |ks| == |vs| && Increasing(ks)
    ensures |AsMap(ks, vs)| == |ks|
    decreases |ks|
  {
    if ks != [] {
      RemoveKeepsMap(ks, vs, 0);
      assert RemoveAt(ks, 0) == ks[1..] && RemoveAt(vs, 0) == vs[1..];
      AsMapSize(ks[1..], vs[1..]);
    } else {
      assert AsMap(ks, vs) == map[];
    }
  }

  /** memmove of `n - pos` elements one place up, and the new element in the gap. */
  method PutInto<T>(a: array<T>, pos: nat, n: nat, x: T)
    requires pos <= n < a.Length
    modifies a
    ensures a[..n + 1] == InsertAt(old(a[..n]), pos, x)
  {
    var i := n;
    while i > pos
      invariant pos <= i <= n
      invariant forall j :: 0 <= j <= i ==> a[j] == old(a[j])
      invariant forall j :: i < j <= n ==> a[j] == old(a[j - 1])
    {
      a[i] := a[i - 1];
      i := i - 1;
    }
    a[pos] := x;
  }

  /** memmove of the elements after `pos` one place down. */
  method MoveDown<T>(a: array<T>, pos: nat, n: nat)
    requires pos < n <= a.Length
    modifies a
    ensures a[..n - 1] == RemoveAt(old(a[..n]), pos)
  {
    for i := pos to n - 1
      invariant forall j :: 0 <= j < pos ==> a[j] == old(a[j])
      invariant forall j :: pos <= j < i ==> a[j] == old(a[j + 1])
      invariant forall j :: i <= j < n ==> a[j] == old(a[j])
    {
      a[i] := a[i + 1];
    }
  }

  class Buffer<V(0)> {
    var recordN: nat
    var keys: array<int>
    var vals: array<V>

    ghost predicate Valid()
      reads this, keys
    {
      recordN <= keys.Length == vals.Length && Increasing(keys[..recordN])
    }

    ghost function Contents(): map<int, V>
      requires Valid()
      reads this, keys, vals
    {
      AsMap(keys[..recordN], vals[..recordN])
    }

    constructor (initKeys: seq<int>, initVals: seq<V>, capacity: nat)
      requires |initKeys| == |initVals| && Increasing(initKeys)
      ensures Valid() && fresh(keys) && fresh(vals) && keys as object != vals
      ensures Contents() == AsMap(initKeys, initVals)
      ensures keys.Length == if capacity < |initKeys| then |initKeys| else capacity
    {
      var capacityN := if capacity < |initKeys| then |initKeys| else capacity;
      recordN := |initKeys|;
      var ks := new int[capacityN];
      var vs := new V[capacityN];
      for i := 0 to |initKeys|
        invariant ks[..i] == initKeys[..i] && vs[..i] == initVals[..i]
      {
        ks[i] := initKeys[i];
        vs[i] := initVals[i];
      }
      keys, vals := ks, vs;
      new;
      assert keys[..recordN] == initKeys && vals[..recordN] == initVals;
    }

    method BinarySearch(k: int) returns (match_: bool, pos: nat)
      requires Valid()
      ensures IsLowerBound(keys[..recordN], k, pos)
      ensures match_ == (pos < recordN && keys[pos] == k) == (k in Contents())
    {
      var begin, end, mid := 0, recordN, recordN / 2;
      while end > begin
        invariant 0 <= begin <= end <= recordN && mid == (begin + end) / 2
        invariant forall i :: 0 <= i < begin ==> keys[i] < k
        invariant forall i :: end <= i < recordN ==> keys[i] >= k
      {
        if keys[mid] < k {
          begin := mid + 1;
        } else {
          end := mid;
        }
        mid := (begin + end) / 2;
      }
      pos := mid;
      match_ := pos < recordN && keys[pos] == k;
      LowerBoundFinds(keys[..recordN], k, pos);
      AsMapKeys(keys[..recordN], vals[..recordN]);
    }

    /** On a match it is the position that binary search finds; otherwise the end. */
    method LinearSearch(k: int) returns (match_: bool, pos: nat)
      requires Valid()
      ensures match_ == (k in Contents())
      ensures if match_ then pos < recordN && keys[pos] == k && IsLowerBound(keys[..recordN], k, pos) else pos == recordN
    {
      AsMapKeys(keys[..recordN], vals[..recordN]);
      for i := 0 to recordN
        invariant forall j :: 0 <= j < i ==> keys[j] != k
      {
        if k == keys[i] {
          assert keys[..recordN][i] == k;
          return true, i;
        }
      }
      return false, recordN;
    }

    method Get(k: int) returns (v: Option<V>)
      requires Valid()
      ensures v == if k in Contents() then Some(Contents()[k]) else None
    {
      var found, pos := BinarySearch(k);
      if found {
        UpdateKeepsMap(keys[..recordN], vals[..recordN], pos, vals[pos]);
      }
      v := if found then Some(vals[pos]) else None;
    }

    /** Puts a new key at its place. */
    method InsertNew(k: int, v: V, pos: nat)
      requires Valid() && keys as object != vals && recordN < keys.Length
      requires IsLowerBound(keys[..recordN], k, pos) && k !in Contents()
      modifies this`recordN, keys, vals
      ensures Valid() && Contents() == old(Contents())[k := v] && recordN == old(recordN) + 1
    {
      ghost var ks, vs := keys[..recordN], vals[..recordN];
      AsMapKeys(ks, vs);
      InsertKeepsMap(ks, vs, pos, k, v);
      PutInto(keys, pos, recordN, k);
      PutInto(vals, pos, recordN, v);
      recordN := recordN + 1;
    }

    /**
     The branch for a new key and a full array: arrays of a quarter of the capacity are
     allocated, and `recordN + 1` elements copied into them. `overrun` says that they do not
     fit, which is always so; the buffer is not followed beyond that point.
     */
    method Grow(pos: nat) returns (overrun: bool)
      requires Valid() && recordN == keys.Length && pos <= recordN
      ensures overrun
    {
      var newCapacity := keys.Length / 4;
      overrun := pos > newCapacity || recordN + 1 > newCapacity;
    }

    /** Updates the map, unless the key is new and the array full. */
    method Insert(k: int, v: V) returns (overrun: bool)
      requires Valid() && keys as object != vals
      modifies this`recordN, keys, vals
      ensures Valid() && overrun == (k !in old(Contents()) && old(recordN) == keys.Length)
      ensures Contents() == if overrun then old(Contents()) else old(Contents())[k := v]
    {
      var found, pos := BinarySearch(k);
      overrun := false;
      if found {
        UpdateKeepsMap(keys[..recordN], vals[..recordN], pos, v);
        ghost var vs := vals[..recordN];
        vals[pos] := v;
        assert vals[..recordN] == vs[pos := v];
      } else if recordN == keys.Length {
        overrun := Grow(pos);
      } else {
        InsertNew(k, v, pos);
      }
    }

    method InsertIfNotExist(k: int, v: V) returns (inserted: bool, overrun: bool)
      requires Valid() && keys as object != vals
      modifies this`recordN, keys, vals
      ensures Valid() && inserted == (k !in old(Contents()) && !overrun)
      ensures overrun == (k !in old(Contents()) && old(recordN) == keys.Length)
      ensures Contents() == if inserted then old(Contents())[k := v] else old(Contents())
    {
      var found, pos := BinarySearch(k);
      overrun := false;
      if !found {
        if recordN == keys.Length {
          overrun := Grow(pos);
        } else {
          InsertNew(k, v, pos);
        }
      }
      inserted := !found && !overrun;
    }

    method Remove(k: int) returns (removed: bool)
      requires Valid() && keys as object != vals
      modifies this`recordN, keys, vals
      ensures Valid() && removed == (k in old(Contents())) && Contents() == old(Contents()) - {k}
    {
      var found, pos := BinarySearch(k);
      if found {
        ghost var ks, vs := keys[..recordN], vals[..recordN];
        RemoveKeepsMap(ks, vs, pos);
        MoveDown(keys, pos, recordN);
        MoveDown(vals, pos, recordN);
        recordN := recordN - 1;
        assert keys[..recordN] == RemoveAt(ks, pos) && vals[..recordN] == RemoveAt(vs, pos);
      }
      removed := found;
    }

    /** All keys, in increasing order. */
    method ScanKeys(result: seq<int>) returns (appended: seq<int>)
      requires Valid()
      ensures appended == result + keys[..recordN] && Increasing(keys[..recordN])
      ensures forall k :: k in keys[..recordN] <==> k in Contents()
    {
      AsMapKeys(keys[..recordN], vals[..recordN]);
      appended := result;
      for i := 0 to recordN
        invariant appended == result + keys[..i]
      {
        appended := appended + [keys[i]];
      }
    }
  }

  // ----- any sequence of operations

  datatype Op<V> = Get(k: int) | Put(k: int, v: V) | PutNew(k: int, v: V) | Del(k: int)

  datatype Answer<V> = Value(value: Option<V>) | Done(flag: bool)

  function MapStep<V>(m: map<int, V>, op: Op<V>): map<int, V>
  {
    match op
    case Get(_) => m
    case Put(k, v) => m[k := v]
    case PutNew(k, v) => if k in m then m else m[k := v]
    case Del(k) => m - {k}
  }

  function MapAnswer<V>(m: map<int, V>, op: Op<V>): Answer<V>
  {
    match op
    case Get(k) => Value(if k in m then Some(m[k]) else None)
    case Put(_, _) => Done(true)
    case PutNew(k, _) => Done(k !in m)
    case Del(k) => Done(k in m)
  }

  function MapRun<V>(m: map<int, V>, ops: seq<Op<V>>): (map<int, V>, seq<Answer<V>>)
    decreases |ops|
  {
    if ops == [] then (m, [])
    else
      var (m', answers) := MapRun(MapStep(m, ops[0]), ops[1..]);
      (m', [MapAnswer(m, ops[0])] + answers)
  }

  /** Every insertion of a new key finds fewer keys than the capacity. */
  predicate HasRoom<V>(m: map<int, V>, ops: seq<Op<V>>, capacity: nat)
    decreases |ops|
  {
    ops == [] ||
    (((ops[0].Put? || ops[0].PutNew?) && ops[0].k !in m ==> |m| < capacity)
     && HasRoom(MapStep(m, ops[0]), ops[1..], capacity))
  }

  lemma RunStep<V>(m: map<int, V>, ops: seq<Op<V>>, i: nat, capacity: nat)
    requires i < |ops|
    ensures MapRun(m, ops[i..]) == (MapRun(MapStep(m, ops[i]), ops[i + 1..]).0,
                                    [MapAnswer(m, ops[i])] + MapRun(MapStep(m, ops[i]), ops[i + 1..]).1)
    ensures HasRoom(m, ops[i..], capacity) <==>
              ((ops[i].Put? || ops[i].PutNew?) && ops[i].k !in m ==> |m| < capacity)
              && HasRoom(MapStep(m, ops[i]), ops[i + 1..], capacity)
  {
    assert ops[i..][1..] == ops[i + 1..];
  }

  lemma RunNil<V>(m: map<int, V>, ops: seq<Op<V>>, capacity: nat)
    ensures MapRun(m, ops[|ops|..]) == (m, []) && HasRoom(m, ops[|ops|..], capacity)
  {
  }

  method Apply<V(0)>(b: Buffer<V>, op: Op<V>) returns (answer: Answer<V>, overrun: bool)
    requires b.Valid() && b.keys as object != b.vals
    modifies b`recordN, b.keys, b.vals
    ensures b.Valid()
    ensures overrun == ((op.Put? || op.PutNew?) && op.k !in old(b.Contents()) && |old(b.Contents())| == b.keys.Length)
    ensures !overrun ==> b.Contents() == MapStep(old(b.Contents()), op) && answer == MapAnswer(old(b.Contents()), op)
    ensures overrun ==> b.Contents() == old(b.Contents())
    ensures |old(b.Contents())| <= b.keys.Length
  {
    AsMapSize(b.keys[..b.recordN], b.vals[..b.recordN]);
    overrun := false;
    match op
    case Get(k) =>
      var v := b.Get(k);
      answer := Value(v);
    case Put(k, v) =>
      overrun := b.Insert(k, v);
      answer := Done(true);
    case PutNew(k, v) =>
      var inserted;
      inserted, overrun := b.InsertIfNotExist(k, v);
      answer := Done(inserted);
    case Del(k) =>
      var removed := b.Remove(k);
      answer := Done(removed);
  }

  /**
   The buffer answers any sequence of operations as the map does, and ends up holding it, if
   and only if every new key finds room; it stops where one does not.
   */
  method RunOps<V(0)>(b: Buffer<V>, ops: seq<Op<V>>) returns (answers: seq<Answer<V>>, overrun: bool)
    requires b.Valid() && b.keys as object != b.vals
    modifies b`recordN, b.keys, b.vals
    ensures b.Valid() && overrun == !HasRoom(old(b.Contents()), ops, b.keys.Length)
    ensures !overrun ==> (b.Contents(), answers) == MapRun(old(b.Contents()), ops)
  {
    hide MapRun, HasRoom, AsMap, MapStep, MapAnswer;
    answers, overrun := [], false;
    assert ops[0..] == ops;
    assert answers + MapRun(b.Contents(), ops).1 == MapRun(b.Contents(), ops).1;
    for i := 0 to |ops|
      invariant b.Valid() && !overrun
      invariant HasRoom(b.Contents(), ops[i..], b.keys.Length) == HasRoom(old(b.Contents()), ops, b.keys.Length)
      invariant MapRun(old(b.Contents()), ops)
             == (MapRun(b.Contents(), ops[i..]).0, answers + MapRun(b.Contents(), ops[i..]).1)
    {
      ghost var m := b.Contents();
      RunStep(m, ops, i, b.keys.Length);
      var answer;
      answer, overrun := Apply(b, ops[i]);
      if overrun {
        return;
      }
      assert answers + ([answer] + MapRun(MapStep(m, ops[i]), ops[i + 1..]).1)
          == answers + [answer] + MapRun(MapStep(m, ops[i]), ops[i + 1..]).1;
      answers := answers + [answer];
    }
    RunNil(b.Contents(), ops, b.keys.Length);
    assert answers + [] == answers;
  }
}
