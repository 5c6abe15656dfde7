/** The benchmark's random numbers and the per-thread counter that stands in for the time. */
module FastRandom {
  import opened Common
  import opened Schema
  import Lcg

  /** Bitwise or and exclusive or of unsigned numbers. */
  function BitOr(a: nat, b: nat): (r: nat)
    ensures a <= r && b <= r && r <= a + b
  {
    if a == 0 && b == 0 then 0
    else 2 * BitOr(a / 2, b / 2) + if a % 2 == 1 || b % 2 == 1 then 1 else 0
  }

  function BitXor(a: nat, b: nat): nat
  {
    if a == 0 && b == 0 then 0 else 2 * BitXor(a / 2, b / 2) + if a % 2 != b % 2 then 1 else 0
  }

  /** Bit `i` of a number. */
  predicate Bit(x: nat, i: nat) { if i == 0 then x % 2 == 1 else Bit(x / 2, i - 1) }

  lemma {:induction false} BitOfZero(i: nat)
    ensures !Bit(0, i)
  {
    if i > 0 {
      BitOfZero(i - 1);
    }
  }

  lemma {:induction false} BitOfOr(a: nat, b: nat, i: nat)
    ensures Bit(BitOr(a, b), i) <==> Bit(a, i) || Bit(b, i)
  {
    if a == 0 && b == 0 {
      BitOfZero(i);
    } else if i > 0 {
      BitOfOr(a / 2, b / 2, i - 1);
    }
  }

  lemma {:induction false} BitOfXor(a: nat, b: nat, i: nat)
    ensures Bit(BitXor(a, b), i) <==> Bit(a, i) != Bit(b, i)
  {
    if a == 0 && b == 0 {
      BitOfZero(i);
    } else if i > 0 {
      BitOfXor(a / 2, b / 2, i - 1);
    }
  }

  lemma {:induction false} XorTwice(a: nat, b: nat)
    ensures BitXor(BitXor(a, b), b) == a
  {
    if a != 0 || b != 0 {
      XorTwice(a / 2, b / 2);
    }
  }

  lemma {:induction false} XorBound(a: nat, b: nat, k: nat)
    requires a < Pow2(k) && b < Pow2(k)
    ensures BitXor(a, b) < Pow2(k)
  {
    if k > 0 {
      XorBound(a / 2, b / 2, k - 1);
    }
  }

  /** Scrambling maps different 48-bit seeds to different first states. */
  lemma SeedsStayDifferent(a: nat, b: nat)
    requires a < Lcg.M48 && b < Lcg.M48
    ensures BitXor(a, Lcg.MULTIPLIER) % Lcg.M48 == BitXor(b, Lcg.MULTIPLIER) % Lcg.M48 ==> a == b
  {
    hide BitXor, Pow2;
    Lcg.Pow2Is48();
    XorBound(a, Lcg.MULTIPLIER, 48);
    XorBound(b, Lcg.MULTIPLIER, 48);
    XorTwice(a, Lcg.MULTIPLIER);
    XorTwice(b, Lcg.MULTIPLIER);
  }

  const INT_MAX: nat := 0x7FFF_FFFF

  /** `r` is congruent to `x`, counted from `min` and modulo the size of `min .. max`. */
  predicate IsResidue(r: int, x: int, min: int, max: int)
  {
    min <= r <= max && (x - (r - min)) % (max - min + 1) == 0
  }

  lemma ResidueOf(x: nat, min: int, max: int)
    requires min <= max
    ensures IsResidue(min + x % (max - min + 1), x, min, max)
  {
    var n := max - min + 1;
    assert x - x % n == x / n * n + 0;
    Lcg.Quotient(x - x % n, x / n, 0, n);
  }

  /** The number in `min .. max` that the next state of the generator stands for: its upper 32 bits, reduced. */
  function Pick(seed: nat, min: int, max: int): (r: int)
    requires min <= max
    ensures IsResidue(r, Lcg.Next(seed) / 0x1_0000, min, max)
  {
    ResidueOf(Lcg.Next(seed) / 0x1_0000, min, max);
    min + Lcg.Next(seed) / 0x1_0000 % (max - min + 1)
  }

  lemma IterateNext(n: nat, x: nat)
    ensures Lcg.Iterate(n + 1, x) == Lcg.Next(Lcg.Iterate(n, x)) && Lcg.Iterate(0, x) == x
  {
    Lcg.IterateAdd(1, n, x);
    assert Lcg.Iterate(1, Lcg.Iterate(n, x)) == Lcg.Iterate(0, Lcg.Next(Lcg.Iterate(n, x)));
  }

  lemma IterateFirst(n: nat, x: nat)
    ensures Lcg.Iterate(n + 1, x) == Lcg.Iterate(n, Lcg.Next(x))
  {
  }

  lemma PickOf(seed: nat, min: int, max: int, v: int)
    requires min <= v <= max && Lcg.Next(seed) == (v - min) * 0x1_0000
    ensures Pick(seed, min, max) == v
  {
    hide Lcg.Next;
    assert Lcg.Next(seed) / 0x1_0000 == v - min;
    Lcg.Quotient(v - min, 0, v - min, max - min + 1);
  }

  /** Every number of a range is drawn by some state. */
  lemma EveryNumberIsDrawn(min: int, max: int, v: int) returns (seed: nat)
    requires min <= v <= max && max - min < TWO32
    ensures seed < Lcg.M48 && Pick(seed, min, max) == v
  {
    hide Lcg.Next, Pick, Lcg.Iterate;
    var goal := (v - min) * 0x1_0000;
    Lcg.WrapsAreHarmless(0);
    var n := Lcg.FullPeriod(Lcg.Next(0), goal);
    IterateFirst(n, 0);
    IterateNext(n, 0);
    seed := Lcg.Iterate(n, 0);
    Lcg.IterateBound(n, 0);
    PickOf(seed, min, max, v);
  }

  /** The skewed number that the next two states stand for. */
  function NonUniform(seed: nat, a: nat, c: nat, min: nat, max: nat): (r: int)
    requires min <= max
    ensures IsResidue(r, BitOr(Pick(seed, 0, a), Pick(Lcg.Next(seed), min, max)) + c, min, max)
  {
    ResidueOf(BitOr(Pick(seed, 0, a), Pick(Lcg.Next(seed), min, max)) + c, min, max);
    (BitOr(Pick(seed, 0, a), Pick(Lcg.Next(seed), min, max)) + c) % (max - min + 1) + min
  }

  /** A seed that stands for a warehouse other than `w`. */
  function SeedOfOther(w: nat): (seed: nat)
    ensures seed < Lcg.M48
  {
    if w == 1 then 0x1_0000 else 0
  }

  lemma OtherIsPicked(seed: nat, warehouses: nat, w: nat)
    requires warehouses >= 2 && Lcg.Next(seed) == SeedOfOther(w)
    ensures Pick(seed, 1, warehouses) != w
  {
    hide Lcg.Next;
    assert 0 % warehouses == 0 && 1 % warehouses == 1;
  }

  /** `other` is the first of the draws from `seed` on that is not `w`; it leaves the generator at `after`. */
  ghost predicate IsFirstOther(seed: nat, other: nat, after: nat, warehouses: nat, w: nat, retries: nat)
    requires warehouses >= 1
  {
    && other != w && other == Pick(Lcg.Iterate(retries, seed), 1, warehouses) && after == Lcg.Iterate(retries + 1, seed)
    && forall m: nat :: m < retries ==> Pick(Lcg.Iterate(m, seed), 1, warehouses) == w
  }

  class Generator {
    var seed: nat

    predicate Valid() reads this { seed < Lcg.M48 }

    constructor (start: nat)
      ensures Valid() && seed == BitXor(start, Lcg.MULTIPLIER) % Lcg.M48
    {
      seed := BitXor(start, Lcg.MULTIPLIER) % Lcg.M48;
    }

    method NextU32() returns (r: nat)
      requires Valid()
      modifies this
      ensures Valid() && seed == Lcg.Next(old(seed)) && r == seed / 0x1_0000 < TWO32
    {
      Lcg.WrapsAreHarmless(seed);
      seed := Lcg.WrappedNext(seed);
      r := seed / 0x1_0000;
    }

    method RandomNumber(min: int, max: int) returns (r: int)
      requires Valid() && 0 <= min <= max <= INT_MAX
      modifies this
      ensures Valid() && seed == Lcg.Next(old(seed)) && r == Pick(old(seed), min, max)
    {
      var range := max - min + 1;
      var draw := NextU32();
      r := min + draw % range;
    }

    /** The sum before the remainder stays within an int. */
    method NonUniformRandom(a: nat, c: nat, min: nat, max: nat) returns (r: int)
      requires Valid() && min <= max && a + c + max <= INT_MAX
      modifies this
      ensures Valid() && min <= r <= max
      ensures r == NonUniform(old(seed), a, c, min, max) && seed == Lcg.Next(Lcg.Next(old(seed)))
    {
      var x := RandomNumber(0, a);
      var y := RandomNumber(min, max);
      assert BitOr(x, y) + c <= INT_MAX;
      r := (BitOr(x, y) + c) % (max - min + 1) + min;
    }

    method GetCustomerId() returns (c: nat)
      requires Valid()
      modifies this
      ensures Valid() && IsCustomer(c) && c == NonUniform(old(seed), 1023, 259, 1, CUSTOMERS)
      ensures seed == Lcg.Next(Lcg.Next(old(seed)))
    {
      hide NonUniform, Lcg.Next;
      c := NonUniformRandom(1023, 259, 1, CUSTOMERS);
    }

    method GetItemId(uniform: bool) returns (i: nat)
      requires Valid()
      modifies this
      ensures Valid() && IsItem(i)
      ensures i == if uniform then Pick(old(seed), 1, ITEMS) else NonUniform(old(seed), 8191, 7911, 1, ITEMS)
      ensures seed == if uniform then Lcg.Next(old(seed)) else Lcg.Next(Lcg.Next(old(seed)))
    {
      hide NonUniform, Pick, Lcg.Next;
      if uniform {
        i := RandomNumber(1, ITEMS);
      } else {
        i := NonUniformRandom(8191, 7911, 1, ITEMS);
      }
    }

    /**
     Draws until the warehouse is another one. The loop ends because the generator reaches
     every seed, also one that stands for another warehouse.
     */
    method OtherWarehouse(warehouses: nat, w: nat) returns (other: nat, ghost retries: nat)
      requires Valid() && 2 <= warehouses <= INT_MAX
      modifies this
      ensures Valid() && 1 <= other <= warehouses && other != w
      ensures IsFirstOther(old(seed), other, seed, warehouses, w, retries)
    {
      hide Pick, Lcg.Next, Lcg.StepsTo, Lcg.Iterate, SeedOfOther;
      ghost var goal := SeedOfOther(w);
      ghost var before := seed;
      retries := 0;
      IterateNext(0, seed);
      other := RandomNumber(1, warehouses);
      while other == w
        invariant Valid() && 1 <= other <= warehouses
        invariant before == Lcg.Iterate(retries, old(seed)) && seed == Lcg.Iterate(retries + 1, old(seed))
        invariant seed == Lcg.Next(before) && other == Pick(before, 1, warehouses)
        invariant forall m: nat :: m < retries ==> Pick(Lcg.Iterate(m, old(seed)), 1, warehouses) == w
        decreases Lcg.StepsTo(seed, goal)
      {
        if seed == goal {
          OtherIsPicked(before, warehouses, w);
        }
        Lcg.StepsToDecreases(seed, goal);
        before := seed;
        retries := retries + 1;
        IterateNext(retries, old(seed));
        other := RandomNumber(1, warehouses);
      }
    }
  }

  /** GetCurrentTimeMillis: each thread counts from 3001. */
  class ThreadClock {
    var next: nat

    constructor ()
      ensures next == 3001
    {
      next := 3001;
    }

    method GetCurrentTimeMillis() returns (now: nat)
      modifies this
      ensures now == old(next) && next == Inc32(old(next)) == (old(next) + 1) % 0x1_0000_0000
    {
      now := next;
      next := Inc32(next);
    }
  }
}
