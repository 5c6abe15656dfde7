/**
 Packed keys as bytes. Each key is a packed little-endian record whose fields come least
 significant first; as a 64-bit number, and byte-reversed under memcmp, it is ordered like
 its fields read from the most significant one.
 */
module KeyBytes {
  import opened Schema

  type Bytes = s: seq<nat> | forall b :: b in s ==> b < 256

  /** An unsigned field of `width` bytes. */
  datatype Field = Field(value: nat, width: nat)

  function Pow256(n: nat): nat
    ensures Pow256(n) > 0
  {
    if n == 0 then 1 else 256 * Pow256(n - 1)
  }

  /** The field as it lies in memory, lowest byte first; a value too wide is cut off. */
  function FieldBytes(value: nat, width: nat): (s: Bytes)
    ensures |s| == width
  {
    if width == 0 then [] else [value % 256] + FieldBytes(value / 256, width - 1)
  }

  /** The packed record, first field at the lowest address. */
  function Pack(fields: seq<Field>): Bytes
  {
    if fields == [] then [] else FieldBytes(fields[0].value, fields[0].width) + Pack(fields[1..])
  }

  /** The number a little-endian machine reads at the record's address. */
  function Load(s: Bytes): nat { if s == [] then 0 else s[0] + 256 * Load(s[1..]) }

  predicate Fits(f: Field) { f.value < Pow256(f.width) }

  predicate AllFit(fields: seq<Field>) { forall f :: f in fields ==> Fits(f) }

  predicate SameShape(a: seq<Field>, b: seq<Field>)
  {
    |a| == |b| && forall i :: 0 <= i < |a| ==> a[i].width == b[i].width
  }

  /** Element by element from the front: memcmp's order on bytes, and `smaller`'s on fields. */
  predicate LexLess(a: seq<nat>, b: seq<nat>)
    requires |a| == |b|
  {
    a != [] && (a[0] < b[0] || (a[0] == b[0] && LexLess(a[1..], b[1..])))
  }

  /** to_model_key: the fields from the most significant one, which lies last in memory. */
  function ModelKey(fields: seq<Field>): (k: seq<nat>)
    ensures |k| == |fields|
  {
    if fields == [] then [] else ModelKey(fields[1..]) + [fields[0].value]
  }

  /** The comparison loop of `H_key::smaller`. */
  method Smaller(k1: seq<nat>, k2: seq<nat>) returns (less: bool)
    requires |k1| == |k2|
    ensures less == LexLess(k1, k2)
  {
    for i := 0 to |k1|
      invariant LexLess(k1, k2) == LexLess(k1[i..], k2[i..])
    {
      if k1[i] > k2[i] {
        return false;
      }
      if k1[i] < k2[i] {
        return true;
      }
      assert k1[i..][1..] == k1[i + 1..] && k2[i..][1..] == k2[i + 1..];
    }
    return false;
  }

  function Reversed(s: Bytes): (r: Bytes)
    ensures |r| == |s|
  {
    if s == [] then [] else Reversed(s[1..]) + [s[0]]
  }

  /** to_str_key: the byte-reversing loop. */
  method ToStrKey(key: Bytes) returns (reverse: Bytes)
    ensures reverse == Reversed(key)
  {
    reverse := [];
    for i := 0 to |key|
      invariant reverse == Reversed(key[|key| - i..])
    {
      assert key[|key| - i - 1..][1..] == key[|key| - i..];
      reverse := reverse + [key[|key| - i - 1]];
    }
    assert key[0..] == key;
  }

  // ----- reading back

  lemma {:induction false} LoadField(value: nat, width: nat)
    requires value < Pow256(width)
    ensures Load(FieldBytes(value, width)) == value
  {
    if width > 0 {
      LoadField(value / 256, width - 1);
      assert FieldBytes(value, width)[1..] == FieldBytes(value / 256, width - 1);
    }
  }

  lemma {:induction false} LoadAppend(a: Bytes, b: Bytes)
    ensures Load(a + b) == Load(a) + Pow256(|a|) * Load(b)
  {
    if a == [] {
      assert a + b == b;
    } else {
      assert (a + b)[1..] == a[1..] + b;
      LoadAppend(a[1..], b);
      Horner(a[0], Load(a[1..]), Pow256(|a| - 1), Load(b));
    }
  }

  lemma Horner(d: nat, x: nat, p: nat, y: nat)
    ensures d + 256 * (x + p * y) == d + 256 * x + (256 * p) * y
  {
  }

  lemma LoadPack(fields: seq<Field>)
    requires fields != [] && Fits(fields[0])
    ensures Load(Pack(fields)) == fields[0].value + Pow256(fields[0].width) * Load(Pack(fields[1..]))
  {
    LoadField(fields[0].value, fields[0].width);
    LoadAppend(FieldBytes(fields[0].value, fields[0].width), Pack(fields[1..]));
  }

  // ----- the order of numbers is the order of fields

  lemma Digits(a: nat, x: nat, b: nat, y: nat, p: nat)
    requires a < p && b < p
    ensures a + p * x < b + p * y <==> x < y || (x == y && a < b)
    ensures a + p * x == b + p * y <==> x == y && a == b
  {
    assert x < y ==> p * (x + 1) <= p * y;
    assert y < x ==> p * (y + 1) <= p * x;
  }

  lemma {:induction false} LexAppend(a: seq<nat>, b: seq<nat>, x: seq<nat>, y: seq<nat>)
    requires |a| == |b| && |x| == |y|
    ensures LexLess(a + x, b + y) <==> LexLess(a, b) || (a == b && LexLess(x, y))
  {
    if a == [] {
      assert a + x == x && b + y == y;
    } else {
      assert (a + x)[1..] == a[1..] + x && (b + y)[1..] == b[1..] + y;
      LexAppend(a[1..], b[1..], x, y);
      assert a == [a[0]] + a[1..] && b == [b[0]] + b[1..];
    }
  }

  lemma AppendOne(a: seq<nat>, b: seq<nat>, x: nat, y: nat)
    requires |a| == |b|
    ensures LexLess(a + [x], b + [y]) <==> LexLess(a, b) || (a == b && x < y)
    ensures a + [x] == b + [y] <==> a == b && x == y
  {
    LexAppend(a, b, [x], [y]);
    assert a == (a + [x])[..|a|] && b == (b + [y])[..|b|];
  }

  /** For packed keys of one shape, numbers compare like fields and are equal only for equal fields. */
  lemma {:induction false} NumberOrder(a: seq<Field>, b: seq<Field>)
    requires SameShape(a, b) && AllFit(a) && AllFit(b)
    ensures Load(Pack(a)) < Load(Pack(b)) <==> LexLess(ModelKey(a), ModelKey(b))
    ensures Load(Pack(a)) == Load(Pack(b)) <==> ModelKey(a) == ModelKey(b)
  {
    if a != [] {
      NumberOrder(a[1..], b[1..]);
      LoadPack(a);
      LoadPack(b);
      Digits(a[0].value, Load(Pack(a[1..])), b[0].value, Load(Pack(b[1..])), Pow256(a[0].width));
      AppendOne(ModelKey(a[1..]), ModelKey(b[1..]), a[0].value, b[0].value);
    }
  }

  // ----- the order of reversed bytes is the order of numbers

  lemma {:induction false} ReversedOrder(a: Bytes, b: Bytes)
    requires |a| == |b|
    ensures LexLess(Reversed(a), Reversed(b)) <==> Load(a) < Load(b)
    ensures Reversed(a) == Reversed(b) <==> Load(a) == Load(b)
    ensures a == b <==> Load(a) == Load(b)
  {
    if a != [] {
      ReversedOrder(a[1..], b[1..]);
      AppendOne(Reversed(a[1..]), Reversed(b[1..]), a[0], b[0]);
      Digits(a[0], Load(a[1..]), b[0], Load(b[1..]), 256);
      assert a == [a[0]] + a[1..] && b == [b[0]] + b[1..];
    }
  }

  lemma {:induction false} ReversedAppend(a: Bytes, b: Bytes)
    ensures Reversed(a + b) == Reversed(b) + Reversed(a)
  {
    if a == [] {
      assert a + b == b;
    } else {
      assert (a + b)[1..] == a[1..] + b;
      ReversedAppend(a[1..], b);
    }
  }

  /** to_normal_key undoes to_str_key. */
  lemma {:induction false} ReversedTwice(s: Bytes)
    ensures Reversed(Reversed(s)) == s
  {
    if s != [] {
      ReversedAppend(Reversed(s[1..]), [s[0]]);
      ReversedTwice(s[1..]);
      assert Reversed([s[0]]) == [s[0]];
    }
  }

  lemma {:induction false} SameLength(a: seq<Field>, b: seq<Field>)
    requires SameShape(a, b)
    ensures |Pack(a)| == |Pack(b)|
  {
    if a != [] {
      SameLength(a[1..], b[1..]);
    }
  }

  /** A packed key: numbers, fields and memcmp on the reversed bytes all give the same order. */
  lemma KeyOrder(a: seq<Field>, b: seq<Field>)
    requires SameShape(a, b) && AllFit(a) && AllFit(b)
    ensures |Pack(a)| == |Pack(b)|
    ensures LexLess(Reversed(Pack(a)), Reversed(Pack(b))) <==> LexLess(ModelKey(a), ModelKey(b))
    ensures Load(Pack(a)) < Load(Pack(b)) <==> LexLess(ModelKey(a), ModelKey(b))
    ensures Pack(a) == Pack(b) <==> ModelKey(a) == ModelKey(b)
  {
    SameLength(a, b);
    NumberOrder(a, b);
    ReversedOrder(Pack(a), Pack(b));
  }

  // ----- the keys of the tables

  function D8(n: nat): Field { Field(n, 1) }

  function D16(n: nat): Field { Field(n, 2) }

  function D32(n: nat): Field { Field(n, 4) }

  function Zeros(n: nat): Field { Field(0, n) }  // the `dummy` bytes

  function CustomerFields(k: CKey): seq<Field> { [Zeros(3), D16(k.c), D8(k.d), D16(k.w)] }

  function OrderFields(k: OKey): seq<Field> { [Zeros(1), D32(k.o), D8(k.d), D16(k.w)] }

  function LineFields(k: OLKey): seq<Field> { [D8(k.n), D32(k.o), D8(k.d), D16(k.w)] }

  function DistrictFields(k: DKey): seq<Field> { [Zeros(4), Zeros(1), D8(k.d), D16(k.w)] }

  function StockFields(k: SKey): seq<Field> { [Zeros(1), Zeros(1), D32(k.i), D16(k.w)] }

  function HistoryFields(k: HKey): seq<Field>
  {
    [D16(k.c), D8(k.cd), D16(k.cw), D32(k.date), D8(k.d), D16(k.w)]
  }

  lemma Widths()
    ensures Pow256(1) == 0x100 && Pow256(2) == 0x1_0000 && Pow256(4) == TWO32
  {
    assert Pow256(3) == 0x100_0000;
  }

  lemma FourModel(f: seq<Field>)
    requires |f| == 4
    ensures ModelKey(f) == [f[3].value, f[2].value, f[1].value, f[0].value]
    ensures |Pack(f)| == f[0].width + f[1].width + f[2].width + f[3].width
  {
    assert f[1..][1..] == f[2..] && f[2..][1..] == f[3..] && f[3..][1..] == [];
    assert ModelKey(f[3..]) == [f[3].value];
    assert ModelKey(f[2..]) == [f[3].value, f[2].value];
    assert |Pack(f[3..])| == f[3].width;
    assert |Pack(f[2..])| == f[2].width + f[3].width;
  }

  predicate FitsLine(k: OLKey) { k.n < 0x100 && k.o < TWO32 && k.d < 0x100 && k.w < 0x1_0000 }

  /** `OL_key`: ordered by warehouse, district, order and line number, as scans need. */
  lemma LineKeyOrder(a: OLKey, b: OLKey)
    requires FitsLine(a) && FitsLine(b)
    ensures |Pack(LineFields(a))| == |Pack(LineFields(b))| == 8
    ensures Load(Pack(LineFields(a))) < Load(Pack(LineFields(b))) <==> OLLess(a, b)
    ensures LexLess(Reversed(Pack(LineFields(a))), Reversed(Pack(LineFields(b)))) <==> OLLess(a, b)
    ensures Pack(LineFields(a)) == Pack(LineFields(b)) <==> a == b
  {
    Widths();
    KeyOrder(LineFields(a), LineFields(b));
    FourModel(LineFields(a));
    FourModel(LineFields(b));
    FourLess([a.w, a.d, a.o, a.n], [b.w, b.d, b.o, b.n]);
  }

  lemma FourLess(x: seq<nat>, y: seq<nat>)
    requires |x| == |y| == 4
    ensures LexLess(x, y) <==>
              x[0] < y[0] || (x[0] == y[0] && (x[1] < y[1] || (x[1] == y[1] &&
              (x[2] < y[2] || (x[2] == y[2] && x[3] < y[3])))))
  {
    assert x[1..][1..] == x[2..] && y[1..][1..] == y[2..] && x[2..][1..] == x[3..] && y[2..][1..] == y[3..];
    assert x[3..] == [x[3]] && y[3..] == [y[3]];
    assert LexLess(x[3..], y[3..]) <==> x[3] < y[3];
    assert LexLess(x[2..], y[2..]) <==> x[2] < y[2] || (x[2] == y[2] && x[3] < y[3]);
  }

  predicate FitsOrder(k: OKey) { k.o < TWO32 && k.d < 0x100 && k.w < 0x1_0000 }

  /** `O_key` and `NO_key`. */
  lemma OrderKeyOrder(a: OKey, b: OKey)
    requires FitsOrder(a) && FitsOrder(b)
    ensures |Pack(OrderFields(a))| == |Pack(OrderFields(b))| == 8
    ensures Load(Pack(OrderFields(a))) < Load(Pack(OrderFields(b)))
       <==> a.w < b.w || (a.w == b.w && (a.d < b.d || (a.d == b.d && a.o < b.o)))
    ensures LexLess(Reversed(Pack(OrderFields(a))), Reversed(Pack(OrderFields(b))))
       <==> Load(Pack(OrderFields(a))) < Load(Pack(OrderFields(b)))
    ensures Pack(OrderFields(a)) == Pack(OrderFields(b)) <==> a == b
  {
    Widths();
    KeyOrder(OrderFields(a), OrderFields(b));
    FourModel(OrderFields(a));
    FourModel(OrderFields(b));
    FourLess([a.w, a.d, a.o, 0], [b.w, b.d, b.o, 0]);
  }

  predicate FitsCustomer(k: CKey) { k.c < 0x1_0000 && k.d < 0x100 && k.w < 0x1_0000 }

  lemma CustomerKeyOrder(a: CKey, b: CKey)
    requires FitsCustomer(a) && FitsCustomer(b)
    ensures |Pack(CustomerFields(a))| == |Pack(CustomerFields(b))| == 8
    ensures Load(Pack(CustomerFields(a))) < Load(Pack(CustomerFields(b)))
       <==> a.w < b.w || (a.w == b.w && (a.d < b.d || (a.d == b.d && a.c < b.c)))
    ensures LexLess(Reversed(Pack(CustomerFields(a))), Reversed(Pack(CustomerFields(b))))
       <==> Load(Pack(CustomerFields(a))) < Load(Pack(CustomerFields(b)))
    ensures Pack(CustomerFields(a)) == Pack(CustomerFields(b)) <==> a == b
  {
    Widths();
    assert 0 < Pow256(3);
    KeyOrder(CustomerFields(a), CustomerFields(b));
    FourModel(CustomerFields(a));
    FourModel(CustomerFields(b));
    FourLess([a.w, a.d, a.c, 0], [b.w, b.d, b.c, 0]);
  }

  lemma DistrictKeyOrder(a: DKey, b: DKey)
    requires a.d < 0x100 && a.w < 0x1_0000 && b.d < 0x100 && b.w < 0x1_0000
    ensures |Pack(DistrictFields(a))| == |Pack(DistrictFields(b))| == 8
    ensures Load(Pack(DistrictFields(a))) < Load(Pack(DistrictFields(b))) <==> a.w < b.w || (a.w == b.w && a.d < b.d)
    ensures LexLess(Reversed(Pack(DistrictFields(a))), Reversed(Pack(DistrictFields(b))))
       <==> Load(Pack(DistrictFields(a))) < Load(Pack(DistrictFields(b)))
    ensures Pack(DistrictFields(a)) == Pack(DistrictFields(b)) <==> a == b
  {
    Widths();
    KeyOrder(DistrictFields(a), DistrictFields(b));
    FourModel(DistrictFields(a));
    FourModel(DistrictFields(b));
    FourLess([a.w, a.d, 0, 0], [b.w, b.d, 0, 0]);
  }

  lemma StockKeyOrder(a: SKey, b: SKey)
    requires a.i < TWO32 && a.w < 0x1_0000 && b.i < TWO32 && b.w < 0x1_0000
    ensures |Pack(StockFields(a))| == |Pack(StockFields(b))| == 8
    ensures Load(Pack(StockFields(a))) < Load(Pack(StockFields(b))) <==> a.w < b.w || (a.w == b.w && a.i < b.i)
    ensures LexLess(Reversed(Pack(StockFields(a))), Reversed(Pack(StockFields(b))))
       <==> Load(Pack(StockFields(a))) < Load(Pack(StockFields(b)))
    ensures Pack(StockFields(a)) == Pack(StockFields(b)) <==> a == b
  {
    Widths();
    KeyOrder(StockFields(a), StockFields(b));
    FourModel(StockFields(a));
    FourModel(StockFields(b));
    FourLess([a.w, a.i, 0, 0], [b.w, b.i, 0, 0]);
  }

  predicate FitsHistory(k: HKey)
  {
    k.c < 0x1_0000 && k.cd < 0x100 && k.cw < 0x1_0000 && k.date < TWO32 && k.d < 0x100 && k.w < 0x1_0000
  }

  function HistoryModel(k: HKey): seq<nat> { [k.w, k.d, k.date, k.cw, k.cd, k.c] }

  /** The 12-byte `H_key`: `smaller` on the fields is memcmp on the reversed bytes. */
  lemma HistoryKeyOrder(a: HKey, b: HKey)
    requires FitsHistory(a) && FitsHistory(b)
    ensures |Pack(HistoryFields(a))| == |Pack(HistoryFields(b))| == 12
    ensures LexLess(HistoryModel(a), HistoryModel(b))
       <==> LexLess(Reversed(Pack(HistoryFields(a))), Reversed(Pack(HistoryFields(b))))
    ensures Pack(HistoryFields(a)) == Pack(HistoryFields(b)) <==> a == b
  {
    Widths();
    KeyOrder(HistoryFields(a), HistoryFields(b));
    HistoryModelKey(a);
    HistoryModelKey(b);
    assert HistoryModel(a) == HistoryModel(b) <==> a == b;
  }

  lemma HistoryModelKey(k: HKey)
    ensures ModelKey(HistoryFields(k)) == HistoryModel(k) && |Pack(HistoryFields(k))| == 12
  {
    var f := HistoryFields(k);
    FourModel(f[2..]);
    assert f[1..][1..] == f[2..];
    assert ModelKey(f[1..]) == ModelKey(f[2..]) + [k.cd];
  }
}
