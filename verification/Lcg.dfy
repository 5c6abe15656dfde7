/**
 The 48-bit linear congruential generator behind `fast_random`: its step has full period,
 so from any seed every seed is reached.
 */
module Lcg {
  import opened Common
  const MULTIPLIER: nat := 0x5DEECE66D
  const INCREMENT: nat := 0xB
  const M48: nat := 0x1_0000_0000_0000
  const M64: nat := 0x1_0000_0000_0000_0000

  /** The generator's step on its 48-bit state. */
  function Next(x: nat): nat { (x * MULTIPLIER + INCREMENT) % M48 }

  /** As computed: a product and a sum that wrap at 64 bits, then a mask of the low 48 bits. */
  function WrappedNext(x: nat): nat { ((x * MULTIPLIER) % M64 + INCREMENT) % M64 % M48 }

  lemma WrapsAreHarmless(x: nat)
    ensures WrappedNext(x) == Next(x) < M48
  {
    var q := x * MULTIPLIER / M64;
    var p := ((x * MULTIPLIER) % M64 + INCREMENT) / M64;
    assert x * MULTIPLIER + INCREMENT == WrappedNext64(x) + (q + p) * 0x1_0000 * M48;
    AddMultiple(WrappedNext64(x), (q + p) * 0x1_0000, M48);
  }

  function WrappedNext64(x: nat): nat { ((x * MULTIPLIER) % M64 + INCREMENT) % M64 }

  function Iterate(n: nat, x: nat): nat { if n == 0 then x else Iterate(n - 1, Next(x)) }

  lemma {:induction false} IterateAdd(n: nat, m: nat, x: nat)
    ensures Iterate(n + m, x) == Iterate(n, Iterate(m, x))
    decreases m
  {
    if m > 0 {
      IterateAdd(n, m - 1, Next(x));
    }
  }

  // ----- remainders

  lemma AddMultiple(a: int, q: int, p: nat)
    requires p > 0
    ensures (a + q * p) % p == a % p
  {
    var d := a / p;
    assert a + q * p == (d + q) * p + a % p;
    Quotient(a + q * p, d + q, a % p, p);
  }

  /** The remainder is what is left over any multiple, if it is in range. */
  lemma Quotient(a: int, q: int, r: int, p: nat)
    requires p > 0 && a == q * p + r && 0 <= r < p
    ensures a % p == r
  {
    var e := a / p - q;
    assert e * p == r - a % p by {
      assert a == (a / p) * p + a % p;
    }
    SmallMultiple(e, p);
  }

  lemma SmallMultiple(e: int, p: int)
    requires p > 0
    ensures -p < e * p < p ==> e == 0
  {
    assert e >= 1 ==> e * p >= p;
    assert e <= -1 ==> e * p <= -1 * p;
  }

  /** A remainder modulo a multiple of `p` keeps the remainder modulo `p`. */
  lemma RemainderDown(y: nat, d: nat, p: nat)
    requires p > 0 && d > 0
    ensures d * p > 0 && y % (d * p) % p == y % p
  {
    var m := d * p;
    var e := y / m;
    assert y == y % m + e * m;
    assert e * m == (e * d) * p;
    AddMultiple(y % m, e * d, p);
  }

  /** Remainders agree if and only if the difference is a multiple. */
  lemma SameRemainder(a: int, b: int, p: nat) returns (q: int)
    requires p > 0 && a % p == b % p
    ensures a == b + q * p
  {
    q := a / p - b / p;
    assert q * p == (a / p) * p - (b / p) * p;
  }

  lemma {:induction false} Pow2Divides(j: nat, k: nat) returns (q: nat)
    requires j <= k
    ensures Pow2(k) == q * Pow2(j)
    decreases k
  {
    if j == k {
      q := 1;
    } else {
      q := Pow2Divides(j, k - 1);
      q := 2 * q;
    }
  }

  lemma Pow2Is48()
    ensures Pow2(48) == M48
  {
    assert Pow2(8) == 0x100;
    assert Pow2(16) == 0x1_0000;
    assert Pow2(24) == 0x100_0000;
    assert Pow2(32) == 0x1_0000_0000;
    assert Pow2(40) == 0x100_0000_0000;
  }

  // ----- 2^k steps at once are one affine step

  function Mul(k: nat): nat { if k == 0 then MULTIPLIER else Mul(k - 1) * Mul(k - 1) }

  function Inc(k: nat): nat { if k == 0 then INCREMENT else Mul(k - 1) * Inc(k - 1) + Inc(k - 1) }

  lemma AffineTwice(a: nat, c: nat, x: nat, p: nat)
    requires p > 0
    ensures (a * ((a * x + c) % p) + c) % p == (a * a * x + (a * c + c)) % p
  {
    var y := a * x + c;
    var q := y / p;
    assert y == q * p + y % p;
    assert a * (y % p) + c == a * a * x + (a * c + c) + (-(a * q)) * p by {
      assert a * y == a * (q * p) + a * (y % p);
      assert a * (q * p) == (a * q) * p;
      assert a * y == a * a * x + a * c;
    }
    AddMultiple(a * a * x + (a * c + c), -(a * q), p);
  }

  lemma {:induction false} IteratePow2(k: nat, x: nat)
    ensures Iterate(Pow2(k), x) == (Mul(k) * x + Inc(k)) % M48
  {
    if k == 0 {
      assert Iterate(1, x) == Iterate(0, Next(x));
    } else {
      var n := Pow2(k - 1);
      IterateAdd(n, n, x);
      IteratePow2(k - 1, x);
      IteratePow2(k - 1, Iterate(n, x));
      AffineTwice(Mul(k - 1), Inc(k - 1), x, M48);
    }
  }

  /** The multiplier of 2^k steps is 1 modulo 2^(k+2). */
  lemma {:induction false} MulIsOne(k: nat) returns (m: nat)
    ensures Mul(k) == 1 + 4 * Pow2(k) * m
  {
    if k == 0 {
      m := MULTIPLIER / 4;
    } else {
      var h := MulIsOne(k - 1);
      var p := Pow2(k - 1);
      m := h + 2 * p * h * h;
      Square(p, h);
    }
  }

  lemma Square(p: nat, h: nat)
    ensures (1 + 4 * p * h) * (1 + 4 * p * h) == 1 + 4 * (2 * p) * (h + 2 * p * h * h)
  {
  }

  /** The increment of 2^k steps is an odd multiple of 2^k. */
  lemma {:induction false} IncIsOdd(k: nat) returns (o: nat)
    ensures Inc(k) == Pow2(k) * (2 * o + 1)
  {
    if k == 0 {
      o := INCREMENT / 2;
    } else {
      var j := IncIsOdd(k - 1);
      var h := MulIsOne(k - 1);
      var p := Pow2(k - 1);
      o := j + p * h * (2 * j + 1);
      OddProduct(p, h, j);
    }
  }

  lemma OddProduct(p: nat, h: nat, j: nat)
    ensures (1 + 4 * p * h) * (p * (2 * j + 1)) + p * (2 * j + 1)
         == 2 * p * (2 * (j + p * h * (2 * j + 1)) + 1)
  {
  }

  // ----- the full period

  lemma AffineAlgebra(a: nat, c: nat, p: nat, m: nat, o: nat, x: nat) returns (q: int)
    requires a == 1 + 4 * p * m && c == p * (2 * o + 1)
    ensures a * x + c == x + p + q * (2 * p)
  {
    q := 2 * m * x + o;
    assert a * x == x + 4 * p * m * x;
  }

  /** 2^k steps add 2^k modulo 2^(k+1): they flip bit k and keep the bits below. */
  lemma FlipsBit(k: nat, x: nat)
    requires k < 48
    ensures Iterate(Pow2(k), x) % Pow2(k + 1) == (x + Pow2(k)) % Pow2(k + 1)
  {
    var p := Pow2(k);
    var m := MulIsOne(k);
    var o := IncIsOdd(k);
    var y := Mul(k) * x + Inc(k);
    IteratePow2(k, x);
    hide Mul, Inc, Iterate;
    var q := AffineAlgebra(Mul(k), Inc(k), p, m, o, x);
    AddMultiple(x + p, q, 2 * p);
    Pow2Is48();
    var d := Pow2Divides(k + 1, 48);
    RemainderDown(y, d, 2 * p);
  }

  lemma EvenQuotient(a: int, b: int, h: int, p: nat)
    requires p > 0 && a == b + (2 * h) * p
    ensures a % (2 * p) == b % (2 * p)
  {
    AddMultiple(b, h, 2 * p);
  }

  /** Numbers that agree modulo `p` and not modulo `2p` differ by an odd multiple of `p`. */
  lemma OtherHalf(a: int, b: int, p: nat)
    requires p > 0 && a % p == b % p && a % (2 * p) != b % (2 * p)
    ensures (a + p) % (2 * p) == b % (2 * p)
  {
    var q := SameRemainder(a, b, p);
    if q % 2 == 0 {
      EvenQuotient(a, b, q / 2, p);
    } else {
      EvenQuotient(a + p, b, (q + 1) / 2, p);
    }
  }

  lemma Pow2Twice(k: nat)
    requires k > 0
    ensures Pow2(k) == 2 * Pow2(k - 1)
  {
  }

  /** With the low k - 1 bits right, at most 2^(k-1) more steps set bit k - 1 as well. */
  lemma SetNextBit(k: nat, n: nat, x: nat, y: nat) returns (n': nat)
    requires 0 < k <= 48 && n < Pow2(k - 1)
    requires Iterate(n, x) % Pow2(k - 1) == y % Pow2(k - 1)
    ensures n' < Pow2(k) && Iterate(n', x) % Pow2(k) == y % Pow2(k)
  {
    hide Iterate, Pow2;
    var p, z := Pow2(k - 1), Iterate(n, x);
    Pow2Twice(k);
    if z % (2 * p) == y % (2 * p) {
      n' := n;
    } else {
      IterateAdd(p, n, x);
      FlipsBit(k - 1, z);
      OtherHalf(z, y, p);
      n' := p + n;
    }
  }

  /** Within 2^k steps the low k bits take any value. */
  lemma {:induction false} ReachesLowBits(k: nat, x: nat, y: nat) returns (n: nat)
    requires k <= 48
    ensures n < Pow2(k) && Iterate(n, x) % Pow2(k) == y % Pow2(k)
  {
    if k == 0 {
      n := 0;
    } else {
      n := ReachesLowBits(k - 1, x, y);
      n := SetNextBit(k, n, x, y);
    }
  }

  /** From every seed every seed is reached within 2^48 steps. */
  lemma FullPeriod(x: nat, y: nat) returns (n: nat)
    requires x < M48 && y < M48
    ensures n < M48 && Iterate(n, x) == y
  {
    Pow2Is48();
    n := ReachesLowBits(48, x, y);
    IterateBound(n, x);
  }

  lemma {:induction false} IterateBound(n: nat, x: nat)
    requires x < M48
    ensures Iterate(n, x) < M48
  {
    if n > 0 {
      IterateBound(n - 1, Next(x));
    }
  }

  lemma HalfRemainder(a: int, b: int, p: nat)
    requires p > 0 && a % (2 * p) == b % (2 * p)
    ensures a % p == b % p
  {
    var q := SameRemainder(a, b, 2 * p);
    assert a == b + (2 * q) * p;
    AddMultiple(b, 2 * q, p);
  }

  lemma NeverSame(x: int, p: nat)
    requires p > 0
    ensures x % (2 * p) != (x + p) % (2 * p)
  {
    var r, d := x % (2 * p), x / (2 * p);
    if r < p {
      Quotient(x + p, d, r + p, 2 * p);
    } else {
      Quotient(x + p, d + 1, r - p, 2 * p);
    }
  }

  /** Adding `p` once more to a number that is `b`, or `b + p`, modulo `2p`. */
  lemma FlipBack(a: int, b: nat, odd: bool, p: nat)
    requires p > 0 && a % (2 * p) == Flipped(b, odd, p) % (2 * p)
    ensures (a + p) % (2 * p) == Flipped(b, !odd, p) % (2 * p)
  {
    AddHalf(a, Flipped(b, odd, p), p);
    AddMultiple(b, 1, 2 * p);
  }

  /** Adding `p` to two numbers that agree modulo `2p`. */
  lemma AddHalf(a: int, b: int, p: nat)
    requires p > 0 && a % (2 * p) == b % (2 * p)
    ensures (a + p) % (2 * p) == (b + p) % (2 * p)
  {
    var e := SameRemainder(a, b, 2 * p);
    AddMultiple(b + p, e, 2 * p);
  }

  function Times(q: nat, p: nat): nat { if q == 0 then 0 else p + Times(q - 1, p) }

  lemma {:induction false} TimesIsProduct(q: nat, p: nat)
    ensures Times(q, p) == q * p
  {
    if q > 0 {
      TimesIsProduct(q - 1, p);
    }
  }

  function Flipped(x: nat, odd: bool, p: nat): nat { if odd then x + p else x }

  lemma FlipOnce(k: nat, n: nat, x: nat, odd: bool)
    requires k < 48 && Iterate(n, x) % Pow2(k + 1) == Flipped(x, odd, Pow2(k)) % Pow2(k + 1)
    ensures Iterate(Pow2(k) + n, x) % Pow2(k + 1) == Flipped(x, !odd, Pow2(k)) % Pow2(k + 1)
  {
    assert Pow2(k + 1) == 2 * Pow2(k);
    hide Iterate, Pow2;
    IterateAdd(Pow2(k), n, x);
    FlipsBit(k, Iterate(n, x));
    FlipBack(Iterate(n, x), x, odd, Pow2(k));
  }

  /** An even number of flips restores bit k. */
  lemma {:induction false} FlipsRepeatedly(k: nat, q: nat, x: nat)
    requires k < 48
    ensures Iterate(Times(q, Pow2(k)), x) % Pow2(k + 1) == Flipped(x, q % 2 == 1, Pow2(k)) % Pow2(k + 1)
  {
    hide Iterate, Pow2, Flipped;
    if q > 0 {
      FlipsRepeatedly(k, q - 1, x);
      FlipOnce(k, Times(q - 1, Pow2(k)), x, (q - 1) % 2 == 1);
      assert (q % 2 == 1) == !((q - 1) % 2 == 1);
    } else {
      FlipsNone(k, x);
    }
  }

  lemma FlipsNone(k: nat, x: nat)
    ensures Iterate(0, x) == Flipped(x, false, Pow2(k))
  {
  }

  lemma {:induction false} TimesHalf(q: nat, p: nat)
    requires q % 2 == 0
    ensures Times(q, p) == Times(q / 2, 2 * p)
  {
    if q > 0 {
      TimesHalf(q - 2, p);
    }
  }

  lemma MustBeEven(k: nat, q: nat, x: nat)
    requires k < 48 && Iterate(Times(q, Pow2(k)), x) % Pow2(k + 1) == x % Pow2(k + 1)
    ensures q % 2 == 0
  {
    FlipsRepeatedly(k, q, x);
    hide Iterate, Times;
    NeverSame(x, Pow2(k));
  }

  /** Returning to the seed takes a multiple of 2^k steps, even just for the low k bits. */
  lemma {:induction false} ReturnIsMultiple(k: nat, n: nat, x: nat) returns (q: nat)
    requires k <= 48 && Iterate(n, x) % Pow2(k) == x % Pow2(k)
    ensures n == Times(q, Pow2(k))
  {
    if k == 0 {
      q := n;
      TimesIsProduct(n, 1);
    } else {
      HalfRemainder(Iterate(n, x), x, Pow2(k - 1));
      q := ReturnIsMultiple(k - 1, n, x);
      hide Iterate, Times;
      MustBeEven(k - 1, q, x);
      TimesHalf(q, Pow2(k - 1));
      q := q / 2;
    }
  }

  /** The period is exactly 2^48: it is the first return to the seed. */
  lemma PeriodIsExact(x: nat, n: nat)
    requires x < M48 && n > 0
    ensures Iterate(n, x) == x <==> n % M48 == 0
  {
    Pow2Is48();
    if Iterate(n, x) == x {
      var q := ReturnIsMultiple(48, n, x);
      TimesIsProduct(q, M48);
      Quotient(n, q, 0, M48);
    }
    if n % M48 == 0 {
      FullTurns(n / M48, x);
    }
  }

  lemma {:induction false} FullTurns(q: nat, x: nat)
    requires x < M48
    ensures Iterate(q * M48, x) == x
  {
    if q > 0 {
      FullTurns(q - 1, x);
      FullTurn(x);
      IterateAdd(M48, (q - 1) * M48, x);
      assert M48 + (q - 1) * M48 == q * M48;
    }
  }

  lemma TurnKeepsLowBits(k: nat, x: nat)
    ensures (Mul(k) * x + Inc(k)) % Pow2(k) == x % Pow2(k)
  {
    hide Mul, Inc, Pow2;
    var m := MulIsOne(k);
    var o := IncIsOdd(k);
    var q := AffineAlgebra(Mul(k), Inc(k), Pow2(k), m, o, x);
    Turn(Mul(k) * x + Inc(k), x, q, Pow2(k));
  }

  lemma Turn(y: int, x: int, q: int, p: nat)
    requires p > 0 && y == x + p + q * (2 * p)
    ensures y % p == x % p
  {
    assert y == x + (1 + 2 * q) * p;
    AddMultiple(x, 1 + 2 * q, p);
  }

  lemma FullTurn(x: nat)
    requires x < M48
    ensures Iterate(M48, x) == x
  {
    hide Mul, Inc, Iterate;
    IteratePow2(48, x);
    TurnKeepsLowBits(48, x);
    Pow2Is48();
  }

  // ----- how far away a seed is

  ghost predicate IsFirst(n: nat, x: nat, y: nat)
  {
    Iterate(n, x) == y && forall m: nat :: m < n ==> Iterate(m, x) != y
  }

  lemma {:induction false} FirstUpTo(n: nat, x: nat, y: nat) returns (m: nat)
    requires Iterate(n, x) == y
    ensures m <= n && IsFirst(m, x, y)
  {
    if m' :| 0 <= m' < n && Iterate(m', x) == y {
      m := FirstUpTo(m', x, y);
    } else {
      m := n;
    }
  }

  lemma FirstExists(x: nat, y: nat)
    requires x < M48 && y < M48
    ensures exists n :: IsFirst(n, x, y)
  {
    var n := FullPeriod(x, y);
    var m := FirstUpTo(n, x, y);
  }

  /** The number of steps from seed `x` until seed `y` first appears. */
  ghost function StepsTo(x: nat, y: nat): nat
    requires x < M48 && y < M48
  {
    FirstExists(x, y);
    var n :| IsFirst(n, x, y);
    n
  }

  lemma StepsToDecreases(x: nat, y: nat)
    requires x < M48 && y < M48 && x != y
    ensures StepsTo(Next(x), y) < StepsTo(x, y)
  {
    var n := StepsTo(x, y);
    assert Iterate(n - 1, Next(x)) == y;
  }
}
