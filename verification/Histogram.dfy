/**
 The access histogram with exponential buckets, its two thresholds and the classifier.
 What the thresholds promise is stated about the recorded access counts themselves.
 */
module Histogram {
  import opened Common

  const BUCKETS: nat := 16
  const TWO16: nat := 0x1_0000
  const COUNT_MAX: nat := 65534  // the count 65535 wraps to 0 in get_idx

  datatype Hotness = Hot | Warm | Cold

  lemma {:induction false} Pow2Monotone(j: nat, k: nat)
    requires j <= k
    ensures Pow2(j) <= Pow2(k)
    decreases k
  {
    if j < k {
      Pow2Monotone(j, k - 1);
    }
  }

  lemma Pow2Bounds()
    ensures Pow2(15) == 0x8000 && Pow2(16) == TWO16
  {
    assert Pow2(4) == 0x10;
    assert Pow2(8) == 0x100;
    assert Pow2(12) == 0x1000;
  }

  // ----- buckets

  predicate IsLog(n: nat, k: nat) { Pow2(k) <= n < Pow2(k + 1) }

  lemma LogIsUnique(n: nat, j: nat, k: nat)
    requires IsLog(n, j) && IsLog(n, k)
    ensures j == k
  {
    if j < k {
      Pow2Monotone(j + 1, k);
    } else if k < j {
      Pow2Monotone(k + 1, j);
    }
  }

  function Log(n: nat): (k: nat)
    requires n > 0
    ensures IsLog(n, k)
  {
    if n == 1 then 0 else Log(n / 2) + 1
  }

  /** `get_idx`: shifts `num + 1` right until it is 0, counting, to at most 15. */
  method GetIdx(num: nat) returns (cnt: nat)
    requires num < TWO16
    ensures cnt == if num <= COUNT_MAX then Log(num + 1) else 0
    ensures cnt < BUCKETS
  {
    hide Shifted, IsLog, Log;
    var n := (num + 1) % TWO16;
    ghost var start := n;
    cnt := 0;
    ShiftedStart(start);
    while true
      invariant cnt < 15 && start < TWO16
      invariant if start > 0 then n > 0 && Shifted(start, n, cnt) else n == 0 && cnt == 0
      decreases 15 - cnt
    {
      if start > 0 {
        HalveStep(start, n, cnt);
      }
      n := n / 2;
      if n != 0 {
        cnt := cnt + 1;
      } else {
        return;
      }
      if cnt == 15 {
        break;
      }
    }
    LastBucket(start, n);
  }

  /** `n` is `start` shifted right by `cnt`. */
  ghost predicate Shifted(start: nat, n: nat, cnt: nat) { n * Pow2(cnt) <= start < (n + 1) * Pow2(cnt) }

  lemma ShiftedStart(start: nat)
    ensures Shifted(start, start, 0)
  {
  }

  lemma LastBucket(start: nat, n: nat)
    requires 0 < n && Shifted(start, n, 15) && start < TWO16
    ensures start > 0 && Log(start) == 15
  {
    Pow2Bounds();
    assert n * Pow2(15) >= Pow2(15);
    LogIsUnique(start, 15, Log(start));
  }

  lemma HalveStep(start: nat, n: nat, cnt: nat)
    requires start > 0 && n > 0 && Shifted(start, n, cnt)
    ensures Shifted(start, n / 2, cnt + 1)
    ensures n / 2 == 0 ==> Log(start) == cnt
  {
    var p, h := Pow2(cnt), n / 2;
    assert (2 * h) * p <= n * p;
    assert (n + 1) * p <= (2 * h + 2) * p;
    assert h * (2 * p) == (2 * h) * p;
    assert (h + 1) * (2 * p) == (2 * h + 2) * p;
    if h == 0 {
      LogIsUnique(start, cnt, Log(start));
    }
  }

  /** The bucket that `update` counts an access count in. */
  function Bucket(c: nat): (j: nat)
    requires c < TWO16
    ensures j < BUCKETS
  {
    if c <= 1 || c > COUNT_MAX then 0 else assert Log(c + 1) < BUCKETS by { BucketBound(c); } Log(c + 1)
  }

  lemma BucketBound(c: nat)
    requires c <= COUNT_MAX
    ensures Log(c + 1) < BUCKETS
  {
    Pow2Bounds();
    if Log(c + 1) >= BUCKETS {
      Pow2Monotone(BUCKETS, Log(c + 1));
    }
  }

  // ----- what a histogram says about the counts it was built from

  predicate Recordable(counts: seq<nat>) { forall i :: 0 <= i < |counts| ==> counts[i] <= COUNT_MAX }

  function InBucket(c: nat, j: nat): nat { if c <= COUNT_MAX && Bucket(c) == j then 1 else 0 }

  /** How many of `counts` are in bucket `j`. */
  function Tally(counts: seq<nat>, j: nat): nat
  {
    if counts == [] then 0 else Tally(counts[1..], j) + InBucket(counts[0], j)
  }

  predicate IsTally(h: seq<nat>, counts: seq<nat>)
  {
    |h| == BUCKETS && forall j :: 0 <= j < BUCKETS ==> h[j] == Tally(counts, j)
  }

  function Suffix(h: seq<nat>, j: nat): nat
    decreases |h| - j
  {
    if j < |h| then h[j] + Suffix(h, j + 1) else 0
  }

  function From(counts: seq<nat>, j: nat): nat
  {
    if counts == [] then 0
    else From(counts[1..], j) + if counts[0] <= COUNT_MAX && Bucket(counts[0]) >= j then 1 else 0
  }

  /** The sum of the buckets from `j` on is the number of counts in them. */
  lemma {:induction false} SuffixCounts(h: seq<nat>, counts: seq<nat>, j: nat)
    requires IsTally(h, counts) && j <= BUCKETS
    ensures Suffix(h, j) == From(counts, j)
    decreases BUCKETS - j
  {
    if j < BUCKETS {
      SuffixCounts(h, counts, j + 1);
      FromSplit(counts, j);
    } else {
      FromNone(counts, j);
    }
  }

  lemma {:induction false} FromSplit(counts: seq<nat>, j: nat)
    ensures From(counts, j) == Tally(counts, j) + From(counts, j + 1)
  {
    if counts != [] {
      FromSplit(counts[1..], j);
    }
  }

  lemma {:induction false} FromNone(counts: seq<nat>, j: nat)
    requires j >= BUCKETS
    ensures From(counts, j) == 0
  {
    if counts != [] {
      FromNone(counts[1..], j);
    }
  }

  lemma {:induction false} FromAll(counts: seq<nat>)
    requires Recordable(counts)
    ensures From(counts, 0) == |counts|
  {
    if counts != [] {
      FromAll(counts[1..]);
    }
  }

  lemma {:induction false} TallyAppend(counts: seq<nat>, c: nat, j: nat)
    ensures Tally(counts + [c], j) == Tally(counts, j) + InBucket(c, j)
  {
    if counts != [] {
      assert (counts + [c])[1..] == counts[1..] + [c];
      TallyAppend(counts[1..], c, j);
    }
  }

  // ----- thresholds and classes

  function Classify(c: nat, hot: nat, cold: nat): Hotness
  {
    if c > hot then Hot else if c < cold then Cold else Warm
  }

  function HotCount(counts: seq<nat>, hot: nat): nat
  {
    if counts == [] then 0 else HotCount(counts[1..], hot) + if counts[0] > hot then 1 else 0
  }

  function AtLeast(counts: seq<nat>, bound: nat): nat
  {
    if counts == [] then 0 else AtLeast(counts[1..], bound) + if counts[0] >= bound then 1 else 0
  }

  /** The highest bucket from which on there are more than `bound` nodes; -1 if there is none. */
  predicate IsScan(h: seq<nat>, bound: nat, idx: int)
  {
    && -1 <= idx < BUCKETS
    && (idx >= 0 ==> Suffix(h, idx) > bound)
    && NoneAbove(h, bound, idx)
  }

  predicate NoneAbove(h: seq<nat>, bound: nat, idx: int)
    requires -1 <= idx
  {
    forall j :: idx < j < BUCKETS ==> Suffix(h, j) <= bound
  }

  lemma NothingAboveLast(h: seq<nat>)
    requires |h| == BUCKETS
    ensures Suffix(h, BUCKETS) == 0 && forall bound :: NoneAbove(h, bound, 15)
  {
  }

  lemma NoneAboveNext(h: seq<nat>, bound: nat, idx: nat)
    requires |h| == BUCKETS && idx < BUCKETS && NoneAbove(h, bound, idx)
    ensures Suffix(h, idx) == h[idx] + Suffix(h, idx + 1)
    ensures Suffix(h, idx) <= bound ==> NoneAbove(h, bound, idx - 1)
    ensures Suffix(h, idx) > bound ==> IsScan(h, bound, idx)
  {
  }

  function HotBound(total: nat): nat { 5 * total / 100 }

  function ColdBound(total: nat): nat { 80 * total / 100 }

  function HotThreshold(idx: int): nat
    requires -1 <= idx < BUCKETS
  {
    if idx == 15 then Pow2(15) else Pow2(idx + 1)
  }

  function ColdThreshold(idx: int): nat
    requires -1 <= idx < BUCKETS
  {
    if idx == -1 then Pow2(0) else Pow2(idx)
  }

  lemma BucketFloor(c: nat, j: nat)
    requires c <= COUNT_MAX
    ensures Bucket(c) >= j ==> c + 1 >= Pow2(j)
    ensures c > 1 && c + 1 >= Pow2(j) ==> Bucket(c) >= j
  {
    if Bucket(c) >= j {
      Pow2Monotone(j, Bucket(c));
    } else {
      Pow2Monotone(Bucket(c) + 1, j);
    }
  }

  lemma {:induction false} HotAreHigh(counts: seq<nat>, j: nat)
    requires Recordable(counts) && j <= 15
    ensures HotCount(counts, Pow2(j)) <= From(counts, j)
  {
    if counts != [] {
      BucketFloor(counts[0], j);
      HotAreHigh(counts[1..], j);
    }
  }

  lemma {:induction false} HighAreLarge(counts: seq<nat>, j: nat)
    requires Recordable(counts)
    ensures AtLeast(counts, Pow2(j) - 1) >= From(counts, j)
  {
    if counts != [] {
      BucketFloor(counts[0], j);
      HighAreLarge(counts[1..], j);
    }
  }

  /** If the last bucket is within 5%, at most 5% of the recorded counts are hot. */
  lemma HotWithinBound(h: seq<nat>, counts: seq<nat>, bound: nat, idx: int)
    requires Recordable(counts) && IsTally(h, counts) && IsScan(h, bound, idx) && h[15] <= bound
    ensures HotCount(counts, HotThreshold(idx)) <= bound
  {
    assert Suffix(h, 15) == h[15] + Suffix(h, 16);
    assert Suffix(h, idx + 1) <= bound;
    SuffixCounts(h, counts, idx + 1);
    HotAreHigh(counts, idx + 1);
  }

  // The condition on the last bucket is needed: other counts with the same histogram break the bound.

  function Repeat(c: nat, n: nat): seq<nat> { if n == 0 then [] else [c] + Repeat(c, n - 1) }

  /** One count for each bucket. */
  ghost predicate Representatives(reps: seq<nat>)
  {
    |reps| == BUCKETS && forall j :: 0 <= j < BUCKETS ==> reps[j] <= COUNT_MAX && Bucket(reps[j]) == j
  }

  /** A count of bucket `j`; for the last bucket the largest one. */
  function HighCount(j: nat): (c: nat)
    requires j < BUCKETS
    ensures c <= COUNT_MAX && Bucket(c) == j
  {
    Pow2Bounds();
    if j == 0 then 0
    else if j == 15 then assert IsLog(65535, 15); LogIsUnique(65535, 15, Log(65535)); COUNT_MAX
    else
      Pow2Monotone(j + 1, 15);
      Pow2Monotone(1, j);
      assert IsLog(Pow2(j) + 1, j);
      LogIsUnique(Pow2(j) + 1, j, Log(Pow2(j) + 1));
      Pow2(j)
  }

  /** The smallest count of bucket `j`. */
  function LowCount(j: nat): (c: nat)
    requires j < BUCKETS
    ensures c <= COUNT_MAX && Bucket(c) == j
  {
    Pow2Bounds();
    if j == 0 then 0
    else if j == 1 then assert IsLog(3, 1); LogIsUnique(3, 1, Log(3)); 2
    else
      Pow2Monotone(j, 15);
      Pow2Monotone(2, j);
      assert IsLog(Pow2(j), j);
      LogIsUnique(Pow2(j), j, Log(Pow2(j)));
      Pow2(j) - 1
  }

  lemma LowIsBelow(j: nat, idx: nat)
    requires j < BUCKETS && j <= idx && idx != 1
    ensures LowCount(j) < Pow2(idx)
  {
    Pow2Monotone(j, idx);
    if j == 1 {
      Pow2Monotone(2, idx);
    }
  }

  /** Counts whose histogram is `h`, all of a bucket alike. */
  function Worst(h: seq<nat>, reps: seq<nat>, j: nat): seq<nat>
    requires |h| == |reps| == BUCKETS
    decreases BUCKETS - j
  {
    if j >= BUCKETS then [] else Repeat(reps[j], h[j]) + Worst(h, reps, j + 1)
  }

  lemma {:induction false} RepeatTally(c: nat, n: nat, j: nat, hot: nat)
    requires c <= COUNT_MAX
    ensures Recordable(Repeat(c, n))
    ensures Tally(Repeat(c, n), j) == if Bucket(c) == j then n else 0
    ensures HotCount(Repeat(c, n), hot) == if c > hot then n else 0
    ensures AtLeast(Repeat(c, n), hot) == if c >= hot then n else 0
  {
    if n > 0 {
      RepeatTally(c, n - 1, j, hot);
      assert Repeat(c, n)[1..] == Repeat(c, n - 1);
    }
  }

  lemma {:induction false} TallyConcat(a: seq<nat>, b: seq<nat>, j: nat, hot: nat)
    ensures Tally(a + b, j) == Tally(a, j) + Tally(b, j)
    ensures HotCount(a + b, hot) == HotCount(a, hot) + HotCount(b, hot)
    ensures AtLeast(a + b, hot) == AtLeast(a, hot) + AtLeast(b, hot)
  {
    if a == [] {
      assert a + b == b;
    } else {
      assert (a + b)[1..] == a[1..] + b;
      TallyConcat(a[1..], b, j, hot);
    }
  }

  lemma NoCounts(j: nat, hot: nat)
    ensures Tally([], j) == HotCount([], hot) == AtLeast([], hot) == 0
  {
  }

  /** The tally of such counts, and how many are hot if those of the last bucket are. */
  lemma {:induction false} WorstTally(h: seq<nat>, reps: seq<nat>, i: nat, j: nat, bound: nat)
    requires |h| == BUCKETS && Representatives(reps) && i <= BUCKETS && j < BUCKETS
    ensures Recordable(Worst(h, reps, i))
    ensures Tally(Worst(h, reps, i), j) == if j >= i then h[j] else 0
    ensures i < BUCKETS && reps[15] > bound ==> HotCount(Worst(h, reps, i), bound) >= h[15]
    decreases BUCKETS - i
  {
    hide Tally, HotCount, AtLeast, Bucket, Pow2, Repeat;
    if i == BUCKETS {
      NoCounts(j, bound);
    } else {
      RepeatTally(reps[i], h[i], j, bound);
      TallyConcat(Repeat(reps[i], h[i]), Worst(h, reps, i + 1), j, bound);
      WorstTally(h, reps, i + 1, j, bound);
    }
  }

  lemma {:induction false} WorstAtLeast(h: seq<nat>, reps: seq<nat>, i: nat, idx: nat, bound: nat)
    requires |h| == BUCKETS && Representatives(reps) && i <= BUCKETS && idx < BUCKETS
    requires forall l :: 0 <= l <= idx ==> reps[l] < bound
    ensures AtLeast(Worst(h, reps, i), bound) <= Suffix(h, if i > idx then i else idx + 1)
    decreases BUCKETS - i
  {
    hide Tally, HotCount, AtLeast, Bucket, Pow2, Repeat;
    if i == BUCKETS {
      NoCounts(0, bound);
    } else {
      RepeatTally(reps[i], h[i], 0, bound);
      TallyConcat(Repeat(reps[i], h[i]), Worst(h, reps, i + 1), 0, bound);
      WorstAtLeast(h, reps, i + 1, idx, bound);
    }
  }

  lemma WorstIsTally(h: seq<nat>, reps: seq<nat>)
    requires |h| == BUCKETS && Representatives(reps)
    ensures Recordable(Worst(h, reps, 0)) && IsTally(h, Worst(h, reps, 0))
  {
    hide Tally, Bucket, Worst;
    WorstTally(h, reps, 0, 0, 0);
    forall j | 0 <= j < BUCKETS ensures h[j] == Tally(Worst(h, reps, 0), j) {
      WorstTally(h, reps, 0, j, 0);
    }
  }

  /** The 5% bound holds for all counts with this histogram if and only if it holds for its last bucket. */
  lemma HotBoundIsExact(h: seq<nat>, bound: nat, idx: int)
    requires |h| == BUCKETS && IsScan(h, bound, idx)
    ensures (forall counts :: Recordable(counts) && IsTally(h, counts) ==> HotCount(counts, HotThreshold(idx)) <= bound)
       <==> h[15] <= bound
  {
    if h[15] <= bound {
      forall counts | Recordable(counts) && IsTally(h, counts) ensures HotCount(counts, HotThreshold(idx)) <= bound {
        HotWithinBound(h, counts, bound, idx);
      }
    } else {
      NothingAboveLast(h);
      assert Suffix(h, 15) == h[15] + Suffix(h, 16);
      var reps := seq(BUCKETS, j requires 0 <= j < BUCKETS => HighCount(j));
      Pow2Bounds();
      WorstIsTally(h, reps);
      WorstTally(h, reps, 0, 15, Pow2(15));
    }
  }

  /** The threshold is tight: halving it (less one) would exceed 5%. */
  lemma HotIsTight(h: seq<nat>, counts: seq<nat>, idx: int)
    requires Recordable(counts) && counts != [] && IsTally(h, counts)
    requires IsScan(h, HotBound(|counts|), idx) && idx < 15
    ensures idx >= 0 && HotThreshold(idx) / 2 == Pow2(idx)
    ensures AtLeast(counts, HotThreshold(idx) / 2 - 1) > HotBound(|counts|)
    ensures 20 * AtLeast(counts, HotThreshold(idx) / 2 - 1) > |counts|
  {
    SuffixCounts(h, counts, 0);
    FromAll(counts);
    if idx >= 0 {
      SuffixCounts(h, counts, idx);
      HighAreLarge(counts, idx);
    }
  }

  /** Fewer than 20% of the recorded counts are below the cold threshold less one. */
  lemma ColdWithinBound(h: seq<nat>, counts: seq<nat>, idx: int)
    requires Recordable(counts) && counts != [] && IsTally(h, counts) && IsScan(h, ColdBound(|counts|), idx)
    ensures |counts| - AtLeast(counts, ColdThreshold(idx) - 1) < |counts| - ColdBound(|counts|)
    ensures 5 * (|counts| - AtLeast(counts, ColdThreshold(idx) - 1)) < |counts|
  {
    SuffixCounts(h, counts, 0);
    FromAll(counts);
    if idx >= 0 {
      SuffixCounts(h, counts, idx);
      HighAreLarge(counts, idx);
    }
  }

  lemma {:induction false} LargeAreHigh(counts: seq<nat>, j: nat)
    requires Recordable(counts) && j >= 1
    ensures AtLeast(counts, Pow2(j)) <= From(counts, j)
  {
    if counts != [] {
      BucketFloor(counts[0], j);
      LargeAreHigh(counts[1..], j);
    }
  }

  /** The cold threshold is tight: at least 20% of the recorded counts are below twice the threshold. */
  lemma ColdIsTight(h: seq<nat>, counts: seq<nat>, idx: int)
    requires Recordable(counts) && counts != [] && IsTally(h, counts) && IsScan(h, ColdBound(|counts|), idx)
    ensures idx >= 0 && 5 * (|counts| - AtLeast(counts, 2 * ColdThreshold(idx))) >= |counts|
  {
    SuffixCounts(h, counts, 0);
    FromAll(counts);
    if idx < 15 {
      assert Suffix(h, idx + 1) <= ColdBound(|counts|);
    } else {
      NothingAboveLast(h);
    }
    if idx >= 0 {
      SuffixCounts(h, counts, idx + 1);
      LargeAreHigh(counts, idx + 1);
    }
  }

  lemma {:induction false} HighAreTwo(counts: seq<nat>)
    ensures AtLeast(counts, Pow2(1)) >= From(counts, 1)
  {
    assert Pow2(1) == 2;
    if counts != [] {
      HighAreTwo(counts[1..]);
    }
  }

  /**
   That more than 80% are not classified cold holds for all counts with this histogram if and
   only if the scan stops at bucket 1: in any other bucket all counts may be the smallest one,
   which is below the threshold.
   */
  lemma ColdBoundIsExact(h: seq<nat>, bound: nat, idx: nat)
    requires |h| == BUCKETS && IsScan(h, bound, idx)
    ensures (forall counts :: Recordable(counts) && IsTally(h, counts) ==> AtLeast(counts, ColdThreshold(idx)) > bound)
       <==> idx == 1
  {
    hide Tally, AtLeast, Bucket, Pow2, Worst, LowCount;
    if idx == 1 {
      forall counts | Recordable(counts) && IsTally(h, counts) ensures AtLeast(counts, ColdThreshold(idx)) > bound {
        SuffixCounts(h, counts, 1);
        HighAreTwo(counts);
      }
    } else {
      NothingAboveLast(h);
      var reps := seq(BUCKETS, j requires 0 <= j < BUCKETS => LowCount(j));
      WorstIsTally(h, reps);
      forall l | 0 <= l <= idx ensures reps[l] < Pow2(idx) {
        LowIsBelow(l, idx);
      }
      WorstAtLeast(h, reps, 0, idx, Pow2(idx));
    }
  }

  /** The scan for the larger bound stops no higher, so cold is at most hot. */
  lemma ColdAtMostHot(h: seq<nat>, low: nat, high: nat, hotIdx: int, coldIdx: int)
    requires IsScan(h, low, hotIdx) && IsScan(h, high, coldIdx) && low <= high
    ensures ColdThreshold(coldIdx) <= HotThreshold(hotIdx)
  {
    assert coldIdx <= hotIdx;
    if coldIdx >= 0 && hotIdx < 15 {
      Pow2Monotone(coldIdx, hotIdx + 1);
    } else {
      Pow2Monotone(0, hotIdx + 1);
      Pow2Monotone(if coldIdx >= 0 then coldIdx else 0, 15);
    }
  }

  function Rank(t: Hotness): nat { match t case Cold => 0 case Warm => 1 case Hot => 2 }

  /** More accesses never mean a colder class. */
  lemma ClassifyMonotone(c: nat, c': nat, hot: nat, cold: nat)
    requires c <= c'
    ensures Rank(Classify(c, hot, cold)) <= Rank(Classify(c', hot, cold))
  {
  }

  /** Halving counts and thresholds makes no count hot that was not, and none cold that was not. */
  lemma CoolingKeepsClasses(c: nat, hot: nat, cold: nat)
    requires cold <= hot
    ensures cold / 2 <= hot / 2
    ensures Classify(c / 2, hot / 2, cold / 2) == Hot ==> Classify(c, hot, cold) == Hot
    ensures Classify(c / 2, hot / 2, cold / 2) == Cold ==> Classify(c, hot, cold) == Cold
  {
  }

  // ----- the class

  class SidleHistogram {
    var histogram: seq<nat>
    var nextHistogram: seq<nat>
    var hotThreshold: nat
    var coldThreshold: nat
    var totalNumber: nat
    ghost var round: seq<nat>    // the counts that `histogram` was built from
    ghost var pending: seq<nat>  // the counts recorded since

    ghost predicate Valid()
      reads this
    {
      && |histogram| == BUCKETS && |nextHistogram| == BUCKETS
      && (Recordable(pending) ==> IsTally(nextHistogram, pending))
    }

    /** The histogram holds the tally of the last round; cooling ends this. */
    ghost predicate Current()
      reads this
    {
      Recordable(round) ==> IsTally(histogram, round)
    }

    constructor ()
      ensures Valid() && Current() && round == [] && pending == [] && totalNumber == 0
      ensures hotThreshold == 64 && coldThreshold == 80
    {
      histogram := seq(BUCKETS, _ => 0);
      nextHistogram := seq(BUCKETS, _ => 0);
      hotThreshold, coldThreshold, totalNumber := 64, 80, 0;
      round, pending := [], [];
    }

    method Update(accessCount: nat) returns (t: Hotness)
      requires Valid() && accessCount < TWO16
      modifies this`nextHistogram, this`pending
      ensures Valid() && pending == old(pending) + [accessCount]
      ensures t == Hot <==> accessCount > hotThreshold
      ensures t == Cold <==> accessCount <= hotThreshold && accessCount < coldThreshold
      ensures t == Classify(accessCount, hotThreshold, coldThreshold)
      ensures nextHistogram
           == old(nextHistogram)[Bucket(accessCount) := old(nextHistogram)[Bucket(accessCount)] + 1]
    {
      if accessCount <= 1 {
        nextHistogram := nextHistogram[0 := nextHistogram[0] + 1];
      } else {
        var idx := GetIdx(accessCount);
        nextHistogram := nextHistogram[idx := nextHistogram[idx] + 1];
      }
      pending := pending + [accessCount];
      if Recordable(pending) {
        assert forall i :: 0 <= i < |old(pending)| ==> old(pending)[i] == pending[i];
        assert pending[|pending| - 1] == accessCount;
        forall j | 0 <= j < BUCKETS ensures nextHistogram[j] == Tally(pending, j) {
          TallyAppend(old(pending), accessCount, j);
        }
      }
      if accessCount > hotThreshold {
        return Hot;
      }
      if accessCount < coldThreshold {
        return Cold;
      }
      return Warm;
    }

    method Refresh(total: nat)
      requires Valid()
      modifies this`histogram, this`nextHistogram, this`totalNumber, this`round, this`pending
      ensures Valid() && Current() && totalNumber == total
      ensures histogram == old(nextHistogram) && round == old(pending)
      ensures pending == [] && forall j :: 0 <= j < BUCKETS ==> nextHistogram[j] == 0
    {
      totalNumber := total;
      histogram := nextHistogram;
      nextHistogram := seq(|histogram|, _ => 0);
      round, pending := pending, [];
    }

    /** Both scans in one pass from the last bucket down; it stops when the second is done. */
    method AdjustThreshold() returns (ghost hotIdx: int, ghost coldIdx: int)
      requires Valid()
      modifies this`hotThreshold, this`coldThreshold
      ensures totalNumber == 0 ==> hotThreshold == old(hotThreshold) && coldThreshold == old(coldThreshold)
      ensures totalNumber > 0 ==>
                && IsScan(histogram, HotBound(totalNumber), hotIdx) && hotThreshold == HotThreshold(hotIdx)
                && IsScan(histogram, ColdBound(totalNumber), coldIdx) && coldThreshold == ColdThreshold(coldIdx)
                && coldThreshold <= hotThreshold <= 0x8000
      ensures totalNumber > 0 && hotIdx == 15 ==> hotThreshold == 0x8000
    {
      hide Recordable, IsTally, Suffix, NoneAbove, Pow2;
      hotIdx, coldIdx := -1, -1;
      if totalNumber == 0 {
        return;
      }
      var activeCount := 0;
      var activeLowerBound := 5 * totalNumber / 100;
      var inactiveUpperBound := 80 * totalNumber / 100;
      var hot, cold := -1, -1;
      var index := 15;
      NothingAboveLast(histogram);
      while index >= 0
        invariant -1 <= index <= 15 && -1 <= hot <= 15 && cold == -1
        invariant activeCount == Suffix(histogram, index + 1)
        invariant hot == -1 ==> NoneAbove(histogram, activeLowerBound, index)
        invariant hot != -1 ==> index < hot && IsScan(histogram, activeLowerBound, hot)
        invariant NoneAbove(histogram, inactiveUpperBound, index)
      {
        NoneAboveNext(histogram, inactiveUpperBound, index);
        if hot == -1 {
          NoneAboveNext(histogram, activeLowerBound, index);
        }
        if activeCount + histogram[index] > activeLowerBound && hot == -1 {
          hot := index;
        }
        if activeCount + histogram[index] > inactiveUpperBound && cold == -1 {
          cold := index;
          break;
        }
        activeCount := activeCount + histogram[index];
        index := index - 1;
      }
      hotIdx, coldIdx := hot, cold;
      ColdAtMostHot(histogram, activeLowerBound, inactiveUpperBound, hot, cold);
      if hot != 15 {
        hot := hot + 1;
      }
      if cold == -1 {
        cold := 0;
      }
      Pow2Monotone(hot, 15);
      Pow2Bounds();
      hotThreshold := Pow2(hot);
      coldThreshold := Pow2(cold);
    }

    method AdjustForCooling()
      requires Valid()
      modifies this`histogram, this`hotThreshold, this`coldThreshold
      ensures Valid()
      ensures |histogram| == BUCKETS && histogram[15] == 0
      ensures forall j :: 0 <= j < 15 ==> histogram[j] == old(histogram)[j + 1]
      ensures hotThreshold == old(hotThreshold) / 2 && coldThreshold == old(coldThreshold) / 2
    {
      for i := 0 to 15
        invariant |histogram| == BUCKETS && unchanged(`hotThreshold, `coldThreshold)
        invariant forall j :: 0 <= j < i ==> histogram[j] == old(histogram)[j + 1]
        invariant forall j :: i <= j < BUCKETS ==> histogram[j] == old(histogram)[j]
      {
        histogram := histogram[i := histogram[i + 1]];
      }
      histogram := histogram[15 := 0];
      hotThreshold := hotThreshold / 2;
      coldThreshold := coldThreshold / 2;
    }
  }

  /**
   The first round of the experiment: all counts are recorded, the thresholds adjusted to
   their number, and the counts classified. If the last bucket is within 5%, at most 5%
   of them come out hot; fewer than 20% come out cold and are not just below the threshold.
   */
  method FirstRound(counts: seq<nat>)
    returns (hot: nat, cold: nat, ghost h: seq<nat>, ghost idx: int, ghost coldIdx: int)
    requires Recordable(counts)
    ensures counts == [] ==> hot == cold == 0
    ensures counts != [] ==>
              && IsTally(h, counts) && IsScan(h, HotBound(|counts|), idx) && IsScan(h, ColdBound(|counts|), coldIdx)
              && hot == HotCount(counts, HotThreshold(idx))
              && cold == |counts| - AtLeast(counts, ColdThreshold(coldIdx))
              && ColdThreshold(coldIdx) <= HotThreshold(idx)
    ensures 20 * Tally(counts, 15) <= |counts| ==> 20 * hot <= |counts|
    ensures counts != [] ==> 5 * (|counts| - AtLeast(counts, ColdThreshold(coldIdx) - 1)) < |counts|
  {
    hide Tally, Suffix, Bucket, Pow2;
    var sidle := new SidleHistogram();
    for i := 0 to |counts|
      invariant sidle.Valid() && sidle.pending == counts[..i] && fresh(sidle)
    {
      var t := sidle.Update(counts[i]);
    }
    assert counts[..|counts|] == counts;
    sidle.Refresh(|counts|);
    idx, coldIdx := sidle.AdjustThreshold();
    h := sidle.histogram;
    hot, cold := 0, 0;
    for i := 0 to |counts|
      invariant sidle.Valid() && fresh(sidle)
      invariant counts != [] ==>
                  && IsScan(h, HotBound(|counts|), idx) && sidle.hotThreshold == HotThreshold(idx)
                  && IsScan(h, ColdBound(|counts|), coldIdx) && sidle.coldThreshold == ColdThreshold(coldIdx)
                  && sidle.coldThreshold <= sidle.hotThreshold
      invariant hot + HotCount(counts[i..], sidle.hotThreshold) == HotCount(counts, sidle.hotThreshold)
      invariant cold + (|counts| - i - AtLeast(counts[i..], sidle.coldThreshold))
             == |counts| - AtLeast(counts, sidle.coldThreshold)
    {
      assert counts[i..][1..] == counts[i + 1..];
      var t := sidle.Update(counts[i]);
      if t == Hot {
        hot := hot + 1;
      } else if t == Cold {
        cold := cold + 1;
      }
    }
    if counts != [] {
      ColdWithinBound(h, counts, coldIdx);
      if Tally(counts, 15) <= HotBound(|counts|) {
        HotWithinBound(h, counts, HotBound(|counts|), idx);
      }
    }
  }
}
