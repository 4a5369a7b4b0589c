/** The latency histogram and its percentile bounds. */
module Metrics {
  import opened Rows

  const BUCKETS := 10
  const EDGES: seq<nat> := [500, 1000, 5000, 25000, 100000, 500000, 2000000, 10000000, 60000000]
  const WORD := 0x1_0000_0000_0000_0000

  /** The first bucket whose edge is not below the value; the last has no edge. */
  function BucketOf(us: nat): (b: nat)
    ensures b < BUCKETS
    ensures forall j :: 0 <= j < |EDGES| ==> (us <= EDGES[j] <==> b <= j)
  {
    if us <= 500 then 0 else if us <= 1000 then 1 else if us <= 5000 then 2 else if us <= 25000 then 3
    else if us <= 100000 then 4 else if us <= 500000 then 5 else if us <= 2000000 then 6
    else if us <= 10000000 then 7 else if us <= 60000000 then 8 else 9
  }

  function CountIn(obs: seq<nat>, b: nat): nat {
    if obs == [] then 0 else CountIn(obs[..|obs| - 1], b) + if BucketOf(obs[|obs| - 1]) == b then 1 else 0
  }

  /** How many observations fall into the first `n` buckets. */
  function CountBelow(obs: seq<nat>, n: nat): nat {
    if obs == [] then 0 else CountBelow(obs[..|obs| - 1], n) + if BucketOf(obs[|obs| - 1]) < n then 1 else 0
  }

  function Total(obs: seq<nat>): nat {
    if obs == [] then 0 else Total(obs[..|obs| - 1]) + obs[|obs| - 1]
  }

  function Prefix(buckets: seq<nat>, n: nat): nat
    requires n <= |buckets|
  {
    if n == 0 then 0 else Prefix(buckets, n - 1) + buckets[n - 1]
  }

  /** Every bucket holds the observations that belong to it. */
  predicate Counts(buckets: seq<nat>, obs: seq<nat>) {
    |buckets| == BUCKETS && forall b :: 0 <= b < BUCKETS ==> buckets[b] == CountIn(obs, b)
  }

  lemma CountsNext(buckets: seq<nat>, obs: seq<nat>, us: nat)
    requires Counts(buckets, obs)
    ensures Counts(buckets[BucketOf(us) := buckets[BucketOf(us)] + 1], obs + [us])
  {
    assert (obs + [us])[..|obs + [us]| - 1] == obs;
  }

  lemma TotalWraps(obs: seq<nat>, us: nat)
    ensures (Total(obs) % WORD + us) % WORD == Total(obs + [us]) % WORD
  {
    assert (obs + [us])[..|obs + [us]| - 1] == obs;
  }

  lemma {:induction false} CountBelowSplits(obs: seq<nat>, n: nat)
    ensures CountBelow(obs, n + 1) == CountBelow(obs, n) + CountIn(obs, n)
    ensures CountBelow(obs, 0) == 0 && CountBelow(obs, BUCKETS) == |obs|
  {
    if obs != [] {
      CountBelowSplits(obs[..|obs| - 1], n);
    }
  }

  /** Bucket sums count the observations up to an edge; all buckets together count them all. */
  lemma {:induction false} PrefixCounts(buckets: seq<nat>, obs: seq<nat>, n: nat)
    requires Counts(buckets, obs) && n <= BUCKETS
    ensures Prefix(buckets, n) == CountBelow(obs, n)
    ensures n == BUCKETS ==> Prefix(buckets, n) == |obs|
  {
    CountBelowSplits(obs, if n == 0 then 0 else n - 1);
    if n != 0 {
      PrefixCounts(buckets, obs, n - 1);
    }
  }

  /** The rank `ceil(count * p)` for the rational p = num / den. */
  function Target(count: nat, num: nat, den: nat): nat
    requires den > 0
  {
    (count * num + den - 1) / den
  }

  lemma CeilBounds(x: nat, den: nat)
    requires den > 0
    ensures var t := (x + den - 1) / den; t * den >= x && t * den < x + den
  {
    var y := x + den - 1;
    assert y == y / den * den + y % den;
  }

  lemma MulLess(a: nat, b: nat, den: nat)
    requires a * den < b * den
    ensures a < b
  {}

  lemma MulLessEqual(a: nat, b: nat, count: nat)
    requires a <= b
    ensures count * a <= count * b
  {}

  lemma TargetInRange(count: nat, num: nat, den: nat)
    requires count > 0 && 0 < num <= den
    ensures 1 <= Target(count, num, den) <= count
    ensures Target(count, num, den) * den < count * num + den && count * num <= Target(count, num, den) * den
  {
    var t := Target(count, num, den);
    CeilBounds(count * num, den);
    MulLessEqual(num, den, count);
    MulLessEqual(1, num, count);
    OneMore(count, den);
    MulLess(t, count + 1, den);
    MulLess(0, t, den);
  }

  lemma OneMore(count: nat, den: nat)
    ensures (count + 1) * den == count * den + den
  {}

  class Histogram {
    var buckets: array<nat>
    var sumUs: nat
    ghost var obs: seq<nat>

    /** The sum wraps at 64 bits, the buckets hold fewer than 2^64 observations. */
    ghost predicate Valid()
      reads this, buckets
    {
      Counts(buckets[..], obs) && sumUs == Total(obs) % WORD
    }

    constructor ()
      ensures Valid() && obs == [] && fresh(buckets)
    {
      buckets := new nat[BUCKETS](_ => 0);
      sumUs, obs := 0, [];
    }

    /** `observe`: the microseconds are truncated to 64 bits. */
    method Observe(elapsedMicros: nat)
      requires Valid() && |obs| + 1 < WORD
      modifies this, buckets
      ensures Valid() && buckets == old(buckets) && obs == old(obs) + [elapsedMicros % 18446744073709551616]
    {
      var us := elapsedMicros % WORD;
      var slot := 0;
      while slot < |EDGES| && us > EDGES[slot]
        invariant slot <= |EDGES| && forall j :: 0 <= j < slot ==> us > EDGES[j]
      {
        slot := slot + 1;
      }
      if slot < |EDGES| { assert us <= EDGES[slot]; }
      if slot > 0 { assert !(us <= EDGES[slot - 1]); }
      assert slot == BucketOf(us);
      CountsNext(buckets[..], obs, us);
      TotalWraps(obs, us);
      ghost var before := buckets[..];
      buckets[slot] := buckets[slot] + 1;
      assert buckets[..] == before[slot := before[slot] + 1];
      sumUs := (sumUs + us) % WORD;
      obs := obs + [us];
    }

    /** `summary`: the count, the mean and the three percentile bounds, in microseconds. The mean
        is exact while the sum has not wrapped. */
    method Summary() returns (count: nat, mean: Option<real>, p50: Option<nat>, p95: Option<nat>, p99: Option<nat>)
      requires Valid()
      ensures count == |obs|
      ensures mean.None? <==> obs == []
      ensures mean.Some? && Total(obs) < 18446744073709551616 ==> mean.value * |obs| as real == Total(obs) as real
      ensures p50 == UpperBound(buckets[..], count, 50, 100)
      ensures p95 == UpperBound(buckets[..], count, 95, 100)
      ensures p99 == UpperBound(buckets[..], count, 99, 100)
    {
      hide Mean, UpperBound, Total, CountIn;
      count := 0;
      for i := 0 to BUCKETS
        invariant count == Prefix(buckets[..], i)
      {
        count := count + buckets[i];
      }
      PrefixCounts(buckets[..], obs, BUCKETS);
      mean := Mean(sumUs, count);
      MeanTimesCount(sumUs, count);
      p50 := PercentileUpper(buckets[..], count, 50, 100);
      p95 := PercentileUpper(buckets[..], count, 95, 100);
      p99 := PercentileUpper(buckets[..], count, 99, 100);
    }
  }

  function Mean(sum: nat, count: nat): Option<real> {
    if count == 0 then None else Some(sum as real / count as real)
  }

  lemma MeanTimesCount(sum: nat, count: nat)
    ensures Mean(sum, count).None? <==> count == 0
    ensures count > 0 ==> Mean(sum, count).value * count as real == sum as real
  {}

  /** The edge of the first bucket at which the running count reaches the rank. */
  function UpperBound(buckets: seq<nat>, count: nat, num: nat, den: nat): Option<nat>
    requires |buckets| == BUCKETS && den > 0
  {
    if count == 0 then None else FirstReaching(buckets, Target(count, num, den), 0)
  }

  function FirstReaching(buckets: seq<nat>, target: nat, from: nat): Option<nat>
    requires |buckets| == BUCKETS && from <= BUCKETS
    decreases BUCKETS - from
  {
    if from == BUCKETS then None
    else if Prefix(buckets, from + 1) >= target then (if from < |EDGES| then Some(EDGES[from]) else None)
    else FirstReaching(buckets, target, from + 1)
  }

  /** `percentile_upper_ms` in exact arithmetic, its result in microseconds. */
  method PercentileUpper(buckets: seq<nat>, count: nat, num: nat, den: nat) returns (r: Option<nat>)
    requires |buckets| == BUCKETS && den > 0
    ensures r == UpperBound(buckets, count, num, den)
  {
    if count == 0 {
      return None;
    }
    var target := (count * num + den - 1) / den;
    var running := 0;
    for index := 0 to BUCKETS
      invariant running == Prefix(buckets, index)
      invariant FirstReaching(buckets, target, 0) == FirstReaching(buckets, target, index)
    {
      running := running + buckets[index];
      if running >= target {
        return if index < |EDGES| then Some(EDGES[index]) else None;
      }
    }
    r := None;
  }

  // ----- Nearest rank -----

  predicate Sorted(s: seq<nat>) {
    forall i, j :: 0 <= i < j < |s| ==> s[i] <= s[j]
  }

  lemma RemoveOne(b: seq<nat>, i: nat, n: nat)
    requires i < |b|
    ensures var rest := b[..i] + b[i + 1..];
            && multiset(b) == multiset(rest) + multiset{b[i]}
            && CountBelow(b, n) == CountBelow(rest, n) + if BucketOf(b[i]) < n then 1 else 0
  {
    assert b == b[..i] + ([b[i]] + b[i + 1..]);
    CountBelowConcat(b[..i], b[i + 1..], n);
    CountBelowConcat(b[..i], [b[i]] + b[i + 1..], n);
    CountBelowConcat([b[i]], b[i + 1..], n);
    assert [b[i]][..0] == [];
  }

  lemma {:induction false} CountBelowBag(a: seq<nat>, b: seq<nat>, n: nat)
    requires multiset(a) == multiset(b)
    ensures CountBelow(a, n) == CountBelow(b, n)
    decreases |a|
  {
    if a == [] {
      assert |multiset(b)| == 0;
    } else {
      var m, x := |a| - 1, a[|a| - 1];
      assert x in multiset(b);
      var i :| 0 <= i < |b| && b[i] == x;
      RemoveOne(b, i, n);
      RemoveOne(a, m, n);
      assert a[..m] + a[m + 1..] == a[..m];
      SameRest(multiset(a[..m]), multiset(b[..i] + b[i + 1..]), x);
      CountBelowBag(a[..m], b[..i] + b[i + 1..], n);
    }
  }

  lemma SameRest(a: multiset<nat>, b: multiset<nat>, x: nat)
    requires a + multiset{x} == b + multiset{x}
    ensures a == b
  {
    assert a == (a + multiset{x}) - multiset{x};
  }

  lemma {:induction false} CountBelowConcat(a: seq<nat>, b: seq<nat>, n: nat)
    ensures CountBelow(a + b, n) == CountBelow(a, n) + CountBelow(b, n)
  {
    if b == [] {
      assert a + b == a;
    } else {
      var m := |b| - 1;
      assert (a + b)[..|a + b| - 1] == a + b[..m];
      CountBelowConcat(a, b[..m], n);
    }
  }

  /** In a sorted sequence the first n buckets hold its first elements. */
  lemma {:induction false} SortedCount(s: seq<nat>, n: nat, k: nat)
    requires Sorted(s) && k < |s|
    ensures CountBelow(s, n) > k <==> BucketOf(s[k]) < n
    decreases |s|
  {
    var m := |s| - 1;
    CountBelowAtMost(s[..m], n);
    if k < m {
      SortedCount(s[..m], n, k);
      assert s[k] <= s[m];
      BucketsMonotone(s[k], s[m]);
    } else if m > 0 {
      SortedCount(s[..m], n, m - 1);
      BucketsMonotone(s[m - 1], s[m]);
    }
  }

  lemma BucketsMonotone(a: nat, b: nat)
    requires a <= b
    ensures BucketOf(a) <= BucketOf(b)
  {}

  lemma {:induction false} CountBelowAtMost(s: seq<nat>, n: nat)
    ensures CountBelow(s, n) <= |s|
  {
    if s != [] { CountBelowAtMost(s[..|s| - 1], n); }
  }

  /** The upper edges of the buckets, in microseconds: 0.5 ms up to a minute. */
  predicate IsEdge(e: nat) {
    || e == 500 || e == 1000 || e == 5000 || e == 25000 || e == 100000
    || e == 500000 || e == 2000000 || e == 10000000 || e == 60000000
  }

  /** The reported bound is the upper edge of the bucket of the ceil(count * p)-th smallest
      observation, the least edge that is not below it, and None exactly when it lies beyond the
      last edge. */
  lemma NearestRank(buckets: seq<nat>, obs: seq<nat>, sorted: seq<nat>, num: nat, den: nat)
    requires Counts(buckets, obs) && Sorted(sorted) && multiset(sorted) == multiset(obs)
    requires obs != [] && 0 < num <= den
    ensures |sorted| == |obs| && 1 <= Target(|obs|, num, den) <= |obs|
    ensures var b := BucketOf(sorted[Target(|obs|, num, den) - 1]);
            UpperBound(buckets, |obs|, num, den) == if b < |EDGES| then Some(EDGES[b]) else None
    ensures var x, r := sorted[Target(|obs|, num, den) - 1], UpperBound(buckets, |obs|, num, den);
            && (r.None? <==> x > 60000000)
            && (r.Some? ==> IsEdge(r.value) && x <= r.value)
            && (forall e :: IsEdge(e) && x <= e ==> r.Some? && r.value <= e)
    ensures Target(|obs|, num, den) * den >= |obs| * num && (Target(|obs|, num, den) - 1) * den < |obs| * num
  {
    assert |multiset(sorted)| == |sorted| && |multiset(obs)| == |obs|;
    TargetInRange(|obs|, num, den);
    var t := Target(|obs|, num, den);
    var b := BucketOf(sorted[t - 1]);
    forall n | 0 <= n <= BUCKETS ensures Prefix(buckets, n) >= t <==> b < n {
      PrefixCounts(buckets, obs, n);
      CountBelowBag(sorted, obs, n);
      SortedCount(sorted, n, t - 1);
    }
    ReachesAt(buckets, t, b, 0);
  }

  lemma {:induction false} ReachesAt(buckets: seq<nat>, target: nat, b: nat, from: nat)
    requires |buckets| == BUCKETS && from <= b < BUCKETS
    requires forall n :: 0 <= n <= BUCKETS ==> (Prefix(buckets, n) >= target <==> b < n)
    ensures FirstReaching(buckets, target, from) == if b < |EDGES| then Some(EDGES[b]) else None
    decreases b - from
  {
    assert Prefix(buckets, from + 1) >= target <==> b < from + 1;
    if from < b {
      ReachesAt(buckets, target, b, from + 1);
    }
  }
}
