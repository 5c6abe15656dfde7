/** Skewed workloads: the hot window of the sorted keys is moved to the front, then drawn from. */
module HotRange {
  import opened Common

  /** A percentage of `n`, computed in floating point by the code and exactly here. */
  function Share(n: nat, percent: nat): real { n as real / 100.0 * percent as real }

  /** `r` is the whole part of `percent` hundredths of `n`. */
  predicate IsShare(r: nat, n: nat, percent: nat) { 100 * r <= n * percent < 100 * (r + 1) }

  /** real_range and real_start: the share, truncated. */
  function Percent(n: nat, percent: nat): (r: nat)
    ensures IsShare(r, n, percent)
    ensures percent <= 100 ==> r <= n
  {
    ShareBounds(n, percent);
    ShareIsProduct(n, percent);
    Share(n, percent).Floor
  }

  lemma ShareIsProduct(n: nat, percent: nat)
    ensures Share(n, percent) * 100.0 == (n * percent) as real
  {
    assert n as real / 100.0 * percent as real * 100.0 == n as real * percent as real;
    ProductAsReal(n, percent);
  }

  lemma {:induction false} ProductAsReal(a: nat, b: nat)
    ensures a as real * b as real == (a * b) as real
  {
    if b > 0 {
      ProductAsReal(a, b - 1);
      assert a * b == a * (b - 1) + a;
      assert a as real * b as real == a as real * (b - 1) as real + a as real;
    }
  }

  lemma ShareBounds(n: nat, percent: nat)
    ensures Share(n, percent) >= 0.0
    ensures percent <= 100 ==> Share(n, percent) <= n as real
  {
    Scaled(n as real, n as real / 100.0, percent as real);
  }

  lemma Scaled(n: real, unit: real, x: real)
    requires n >= 0.0 && unit == n / 100.0 && x >= 0.0
    ensures unit * x >= 0.0
    ensures x <= 100.0 ==> unit * x <= n
  {
    Times(unit, x);
    if x <= 100.0 {
      Times(unit, 100.0 - x);
      Distribute(unit, x, 100.0 - x);
    }
  }

  lemma Times(x: real, y: real)
    requires x >= 0.0 && y >= 0.0
    ensures x * y >= 0.0
  {
  }

  lemma ShareSum(n: nat, a: nat, b: nat)
    ensures Share(n, a) + Share(n, b) == Share(n, a + b)
  {
    Distribute(n as real / 100.0, a as real, b as real);
  }

  lemma Distribute(unit: real, x: real, y: real)
    ensures unit * x + unit * y == unit * (x + y)
  {
  }

  lemma PercentSum(n: nat, a: nat, b: nat)
    requires a + b <= 100
    ensures Percent(n, a) + Percent(n, b) <= n
  {
    hide Share;
    ShareSum(n, a, b);
    ShareBounds(n, a + b);
    assert (Percent(n, a) + Percent(n, b)) as real <= Share(n, a) + Share(n, b);
  }

  /** The start of the k-th window, moved back if it would run over the end. */
  function WindowStart(n: nat, start: nat, range: nat, k: nat): nat
    requires range <= n
  {
    if start + range * k > n - range then n - range else start + range * k
  }

  /** The windows follow one another until the last one that fits. */
  lemma WindowsTile(n: nat, start: nat, range: nat, k: nat)
    requires range <= n
    ensures WindowStart(n, start, range, 0) == if start + range <= n then start else n - range
    ensures var next := WindowStart(n, start, range, k) + range;
            WindowStart(n, start, range, k + 1) == if next + range <= n then next else n - range
  {
    assert range * (k + 1) == range * k + range;
  }

  function Rearranged<K>(keys: seq<K>, start: nat, range: nat): seq<K>
    requires start + range <= |keys|
  {
    keys[start..start + range] + keys[..start] + keys[start + range..]
  }

  function Window<K>(keys: seq<K>, start: nat, range: nat): seq<K>
    requires start + range <= |keys|
  {
    keys[start..start + range]
  }

  /** std::copy of a range of `from` to position `at` of `to_`. */
  method CopyTo<K>(from: seq<K>, to_: array<K>, at: nat)
    requires at + |from| <= to_.Length
    modifies to_
    ensures to_[..] == old(to_[..at]) + from + old(to_[at + |from|..])
  {
    for i := 0 to |from|
      invariant forall j :: 0 <= j < i ==> to_[at + j] == from[j]
      invariant forall j :: 0 <= j < at || at + i <= j < to_.Length ==> to_[j] == old(to_[j])
    {
      to_[at + i] := from[i];
    }
  }

  /** The three segment copies. */
  method Rearrange<K(0)>(keys: seq<K>, start: nat, range: nat) returns (temp: array<K>)
    requires start + range <= |keys|
    ensures fresh(temp) && temp[..] == Rearranged(keys, start, range)
  {
    temp := new K[|keys|];
    CopyTo(keys, temp, 0);
    CopyTo(keys[start..start + range], temp, 0);
    CopyTo(keys[..start], temp, range);
    CopyTo(keys[start + range..], temp, start + range);
  }

  /** No key is lost or repeated. */
  lemma RearrangedIsPermutation<K>(keys: seq<K>, start: nat, range: nat)
    requires start + range <= |keys|
    ensures multiset(Rearranged(keys, start, range)) == multiset(keys)
    ensures |Rearranged(keys, start, range)| == |keys|
  {
    assert keys == keys[..start] + keys[start..start + range] + keys[start + range..];
  }

  /** A draw: from the hot part or from the cold one, and the position drawn. */
  datatype Draw = Draw(hot: bool, index: nat)

  /** The hot draws are the keys of the window, and the cold ones those before and after it, in their order. */
  predicate IsDrawn<K(==)>(x: K, keys: seq<K>, draw: Draw, start: nat, range: nat)
    requires start + range <= |keys|
  {
    if draw.hot then draw.index < range && x == keys[start + draw.index]
    else if draw.index < start + range then range <= draw.index && x == keys[draw.index - range]
    else draw.index < |keys| && x == keys[draw.index]
  }

  /** A hot draw lies in the window; a cold draw of distinct keys outside it. */
  lemma DrawsRespectWindow<K>(keys: seq<K>, start: nat, range: nat, index: nat)
    requires start + range <= |keys| && index < |keys|
    ensures IsDrawn(Rearranged(keys, start, range)[index], keys, Draw(index < range, index), start, range)
    ensures index < range ==> Rearranged(keys, start, range)[index] in Window(keys, start, range)
    ensures index >= range && Distinct(keys) ==>
              Rearranged(keys, start, range)[index] !in Window(keys, start, range)
  {
    var r := Rearranged(keys, start, range);
    assert index >= range ==> r[index] == if index < start + range then keys[index - range] else keys[index];
    assert index < range ==> r[index] == Window(keys, start, range)[index];
  }

  lemma {:induction false} NextWindows(range: nat, k: nat, k': nat)
    requires k < k'
    ensures range * k + range <= range * k'
  {
    if k + 1 < k' {
      NextWindows(range, k, k' - 1);
    }
    assert range * k' == range * (k' - 1) + range;
  }

  lemma SegmentsAreDisjoint<K>(keys: seq<K>, a: nat, b: nat, range: nat)
    requires a + range <= b && b + range <= |keys| && Distinct(keys)
    ensures forall x :: x in Window(keys, a, range) ==> x !in Window(keys, b, range)
  {
    assert forall i :: 0 <= i < range ==> Window(keys, a, range)[i] == keys[a + i];
    assert forall i :: 0 <= i < range ==> Window(keys, b, range)[i] == keys[b + i];
  }

  /** Every window fits, and windows that did not have to be moved back do not overlap. */
  lemma WindowsAreDisjoint<K>(keys: seq<K>, start: nat, range: nat, k: nat, k': nat)
    requires range <= |keys| && k < k'
    ensures WindowStart(|keys|, start, range, k) + range <= |keys|
    ensures start + range * k' <= |keys| - range ==>
              WindowStart(|keys|, start, range, k) + range <= WindowStart(|keys|, start, range, k')
    ensures start + range * k' <= |keys| - range && Distinct(keys) ==>
              forall x :: x in Window(keys, WindowStart(|keys|, start, range, k), range) ==>
                x !in Window(keys, WindowStart(|keys|, start, range, k'), range)
  {
    NextWindows(range, k, k');
    var a, b := start + range * k, start + range * k';
    if b <= |keys| - range && Distinct(keys) {
      SegmentsAreDisjoint(keys, a, b, range);
    }
  }

  predicate DrawsFit(draws: seq<Draw>, n: nat, range: nat)
  {
    |draws| == n && forall d :: d in draws ==> if d.hot then d.index < range else range <= d.index < n
  }

  ghost predicate DrawOk<K>(x: K, keys: seq<K>, draw: Draw, start: nat, range: nat)
    requires start + range <= |keys|
  {
    && IsDrawn(x, keys, draw, start, range)
    && (draw.hot ==> x in Window(keys, start, range))
    && (!draw.hot && Distinct(keys) ==> x !in Window(keys, start, range))
  }

  /** What one generated workload promises. */
  ghost predicate Skewed<K>(workload: seq<K>, keys: seq<K>, draws: seq<Draw>, start: nat, range: nat)
    requires |workload| == |draws| && start + range <= |keys|
  {
    forall i :: 0 <= i < |draws| ==> DrawOk(workload[i], keys, draws[i], start, range)
  }

  lemma DrawIsSkewed<K>(keys: seq<K>, draws: seq<Draw>, start: nat, range: nat, i: nat)
    requires start + range <= |keys| && DrawsFit(draws, |keys|, range) && i < |draws|
    ensures draws[i].index < |keys|
    ensures DrawOk(Rearranged(keys, start, range)[draws[i].index], keys, draws[i], start, range)
  {
    assert draws[i] in draws;
    DrawsRespectWindow(keys, start, range, draws[i].index);
  }

  /** The overload with one window: the sorted keys are overwritten by the draws. */
  method GenerateSkewed<K(0)>(hotStart: nat, hotRatio: nat, keys: array<K>, draws: seq<Draw>)
    returns (ghost start: nat, ghost range: nat)
    requires hotStart + hotRatio <= 100 && DrawsFit(draws, keys.Length, Percent(keys.Length, hotRatio))
    modifies keys
    ensures IsShare(start, keys.Length, hotStart) && IsShare(range, keys.Length, hotRatio)
    ensures start + range <= keys.Length && Skewed(keys[..], old(keys[..]), draws, start, range)
  {
    hide DrawOk;
    ghost var sorted := keys[..];
    var realRange, realStart := Percent(keys.Length, hotRatio), Percent(keys.Length, hotStart);
    start, range := realStart, realRange;
    PercentSum(keys.Length, hotStart, hotRatio);
    var temp := Rearrange(keys[..], realStart, realRange);
    ghost var rearranged := temp[..];
    for i := 0 to keys.Length
      invariant temp[..] == rearranged
      invariant forall j :: 0 <= j < i ==> DrawOk(keys[j], sorted, draws[j], start, range)
    {
      DrawIsSkewed(sorted, draws, start, range, i);
      keys[i] := temp[draws[i].index];
    }
  }

  method StartOfWindow(n: nat, start: nat, range: nat, k: nat) returns (realStart: nat)
    requires range <= n
    ensures realStart == WindowStart(n, start, range, k) && realStart + range <= n
  {
    realStart := start + range * k;
    if realStart > n - range {
      realStart := n - range;
    }
  }

  /** One target workload. */
  method FillTarget<K(0)>(keys: seq<K>, draws: seq<Draw>, start: nat, range: nat) returns (target: seq<K>)
    requires start + range <= |keys| && DrawsFit(draws, |keys|, range)
    ensures |target| == |draws| && Skewed(target, keys, draws, start, range)
  {
    hide DrawOk;
    var temp := Rearrange(keys, start, range);
    target := [];
    for i := 0 to |keys|
      invariant |target| == i && temp[..] == Rearranged(keys, start, range)
      invariant forall j :: 0 <= j < i ==> DrawOk(target[j], keys, draws[j], start, range)
    {
      DrawIsSkewed(keys, draws, start, range, i);
      target := target + [temp[draws[i].index]];
    }
  }

  /** The overload with several windows: one target workload each, the keys unchanged. */
  method GenerateTargets<K(0)>(hotStart: nat, hotRatio: nat, rangeCount: nat, keys: seq<K>, draws: seq<Draw>)
    returns (targets: seq<seq<K>>, ghost start: nat, ghost range: nat)
    requires hotRatio <= 100 && DrawsFit(draws, |keys|, Percent(|keys|, hotRatio))
    ensures |targets| == rangeCount
    ensures IsShare(start, |keys|, hotStart) && IsShare(range, |keys|, hotRatio) && range <= |keys|
    ensures forall k :: 0 <= k < rangeCount ==> TargetOk(targets[k], keys, draws, start, range, k)
  {
    hide TargetOk, DrawsFit, Share;
    targets := [];
    var realRange, first := Percent(|keys|, hotRatio), Percent(|keys|, hotStart);
    start, range := first, realRange;
    for k := 0 to rangeCount
      invariant |targets| == k
      invariant forall j :: 0 <= j < k ==> TargetOk(targets[j], keys, draws, start, range, j)
    {
      var realStart := StartOfWindow(|keys|, first, realRange, k);
      var target := FillTarget(keys, draws, realStart, realRange);
      TargetFrom(target, keys, draws, start, range, k);
      targets := targets + [target];
    }
  }

  /** The k-th workload is skewed towards the k-th window. */
  ghost predicate TargetOk<K>(target: seq<K>, keys: seq<K>, draws: seq<Draw>, start: nat, range: nat, k: nat)
    requires range <= |keys|
  {
    |target| == |draws| && Skewed(target, keys, draws, WindowStart(|keys|, start, range, k), range)
  }

  lemma TargetFrom<K>(target: seq<K>, keys: seq<K>, draws: seq<Draw>, start: nat, range: nat, k: nat)
    requires range <= |keys| && |target| == |draws|
    requires Skewed(target, keys, draws, WindowStart(|keys|, start, range, k), range)
    ensures TargetOk(target, keys, draws, start, range, k)
  {
  }
}
