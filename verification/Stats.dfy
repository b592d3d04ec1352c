/** The benchmark's latency histogram: bucket i holds the samples above 2^(i-1) and up to 2^i. */
module Stats {

  const BUCKETS := 32
  const U64 := 0x1_0000_0000_0000_0000
  type Latency = x: int | 0 <= x < U64

  function Pow2(n: nat): (r: nat)
    ensures r >= 1
  {
    if n == 0 then 1 else 2 * Pow2(n - 1)
  }

  lemma {:induction false} Pow2Grows(i: nat, j: nat)
    requires i <= j
    ensures Pow2(i) <= Pow2(j)
    decreases j
  {
    if i == j {
    } else {
      Pow2Grows(i, j - 1);
    }
  }

  // ---------- buckets ----------

  /** The first bucket from `b` on that takes `v`; the last one takes everything. */
  function BucketFrom(v: nat, b: nat): (r: nat)
    requires b < BUCKETS
    ensures b <= r < BUCKETS
    ensures r < BUCKETS - 1 ==> v <= Pow2(r)
    ensures r > b ==> v > Pow2(r - 1)
    decreases BUCKETS - b
  {
    if b + 1 < BUCKETS && v > Pow2(b) then BucketFrom(v, b + 1) else b
  }

  function BucketOf(v: nat): nat {
    BucketFrom(v, 0)
  }

  /** Every bucket but the last is bounded by its power of two, on both sides. */
  lemma BucketBound(v: nat, i: nat)
    requires i < BUCKETS - 1
    ensures BucketOf(v) <= i <==> v <= Pow2(i)
  {
    var b := BucketOf(v);
    if b <= i {
      Pow2Grows(b, i);
    } else {
      Pow2Grows(i, b - 1);
    }
  }

  /** `latency_bucket`. */
  method LatencyBucket(v: Latency) returns (bucket: nat)
    ensures bucket == BucketOf(v)
  {
    bucket := 0;
    var upper := 1;
    while bucket + 1 < BUCKETS && v > upper
      invariant bucket < BUCKETS && upper == Pow2(bucket) && BucketFrom(v, bucket) == BucketOf(v)
    {
      upper := upper * 2;
      bucket := bucket + 1;
    }
  }

  // ---------- samples ----------

  function Sum(s: seq<Latency>): nat {
    if s == [] then 0 else Sum(s[..|s| - 1]) + s[|s| - 1]
  }

  /** How many samples are at most `v`. */
  function AtMost(s: seq<Latency>, v: nat): (r: nat)
    ensures r <= |s|
  {
    if s == [] then 0 else AtMost(s[..|s| - 1], v) + if s[|s| - 1] <= v then 1 else 0
  }

  /** How many samples are in bucket `i`, and in the buckets up to it. */
  function InBucket(s: seq<Latency>, i: nat): nat {
    if s == [] then 0 else InBucket(s[..|s| - 1], i) + if BucketOf(s[|s| - 1]) == i then 1 else 0
  }

  function UpTo(s: seq<Latency>, i: nat): nat {
    if i == 0 then InBucket(s, 0) else UpTo(s, i - 1) + InBucket(s, i)
  }

  lemma SumGrows(s: seq<Latency>, sum: Latency, x: Latency)
    requires sum == Sum(s) % U64
    ensures (sum + x) % U64 == Sum(s + [x]) % U64
  {
    assert (s + [x])[..|s|] == s;
  }

  lemma BucketsGrow(s: seq<Latency>, x: Latency)
    ensures forall i: nat :: InBucket(s + [x], i) == InBucket(s, i) + if BucketOf(x) == i then 1 else 0
  {
    assert (s + [x])[..|s|] == s;
  }

  /** `min` and `max` are those of the samples, or the starting values. */
  ghost predicate Extremes(s: seq<Latency>, min: Latency, max: Latency) {
    && (forall v | v in s :: min <= v <= max)
    && (if s == [] then min == U64 - 1 && max == 0 else min in s && max in s)
  }

  lemma ExtremesGrow(s: seq<Latency>, min: Latency, max: Latency, x: Latency)
    requires Extremes(s, min, max)
    ensures Extremes(s + [x], if x < min then x else min, if x > max then x else max)
  {
    assert (s + [x])[|s|] == x;
  }

  lemma {:induction false} UpToGrows(s: seq<Latency>, x: Latency, i: nat)
    ensures UpTo(s + [x], i) == UpTo(s, i) + if BucketOf(x) <= i then 1 else 0
  {
    assert (s + [x])[..|s|] == s;
    if i == 0 {
    } else {
      UpToGrows(s, x, i - 1);
    }
  }

  lemma {:induction false} UpToNone(i: nat)
    ensures UpTo([], i) == 0
  {
    if i == 0 {
    } else {
      UpToNone(i - 1);
    }
  }

  /** Counting whole buckets counts the samples up to a power of two, and all buckets hold all samples. */
  lemma {:induction false} UpToIsAtMost(s: seq<Latency>, i: nat)
    requires i < BUCKETS
    ensures UpTo(s, i) == if i == BUCKETS - 1 then |s| else AtMost(s, Pow2(i))
  {
    if s == [] {
      UpToNone(i);
    } else {
      var front, x := s[..|s| - 1], s[|s| - 1];
      assert s == front + [x];
      UpToIsAtMost(front, i);
      UpToGrows(front, x, i);
      if i < BUCKETS - 1 {
        BucketBound(x, i);
      }
    }
  }

  lemma {:induction false} AtMostGrows(s: seq<Latency>, u: nat, v: nat)
    requires u <= v
    ensures AtMost(s, u) <= AtMost(s, v)
  {
    if s == [] {
    } else {
      AtMostGrows(s[..|s| - 1], u, v);
    }
  }

  // ---------- percentiles ----------

  /** The rank asked for, as computed on 64-bit numbers. */
  function Target(n: nat, percentile: nat): (r: nat)
    ensures r >= 1
  {
    var t := (n * percentile + 99) % U64 / 100;
    if t == 0 then 1 else t
  }

  /** Where nothing wraps it is the percentage, rounded up, and at least 1: a rank that exists. */
  lemma TargetIsRank(n: nat, percentile: nat)
    requires n > 0 && percentile <= 100 && n * percentile + 99 < U64
    ensures var t := Target(n, percentile);
      1 <= t <= n && 100 * t >= n * percentile && (t > 1 ==> 100 * (t - 1) < n * percentile)
  {
    AtMostAll(n, percentile);
    Ceiling(n * percentile, n);
  }

  lemma AtMostAll(n: nat, percentile: nat)
    requires percentile <= 100
    ensures n * percentile <= 100 * n
  {
    assert n * (100 - percentile) >= 0;
  }

  lemma Ceiling(x: nat, n: nat)
    requires x <= 100 * n && x + 99 < U64 && n > 0
    ensures var t := (x + 99) % U64 / 100; t <= n && 100 * t >= x && (t > 1 ==> 100 * (t - 1) < x)
  {
    assert (x + 99) % U64 == x + 99;
  }

  /** `v` is the sample of rank `target`: the least value with that many samples at most it. */
  ghost predicate HasRank(s: seq<Latency>, target: nat, v: nat) {
    AtMost(s, v) >= target && (v > 0 ==> AtMost(s, v - 1) < target)
  }

  /** What the reported bucket means. */
  ghost predicate Reported(s: seq<Latency>, target: nat, i: nat) {
    i < BUCKETS && UpTo(s, i) >= target && (i > 0 ==> UpTo(s, i - 1) < target)
  }

  /** With no sample above 2^31 enough samples are at most the reported value, and always too few at most half of it. */
  lemma PercentileCovers(s: seq<Latency>, target: nat, i: nat)
    requires Reported(s, target, i)
    ensures AtMost(s, Pow2(i)) >= target <==> AtMost(s, Pow2(BUCKETS - 1)) >= target
    ensures AtMost(s, Pow2(BUCKETS - 1)) == |s| >= target ==> AtMost(s, Pow2(i)) >= target
    ensures i > 0 ==> AtMost(s, Pow2(i) / 2) < target
  {
    UpToIsAtMost(s, i);
    if i < BUCKETS - 1 {
      Pow2Grows(i, BUCKETS - 1);
      AtMostGrows(s, Pow2(i), Pow2(BUCKETS - 1));
    }
    if i > 0 {
      UpToIsAtMost(s, i - 1);
      assert Pow2(i) / 2 == Pow2(i - 1);
    }
  }

  /** A reported percentile is the true one rounded up to a power of two, exactly when the true one is at most 2^31;
      otherwise 2^31 is reported, below the true one. */
  lemma PercentileIsTightIff(s: seq<Latency>, target: nat, i: nat, v: nat)
    requires 1 <= target <= |s| && Reported(s, target, i) && HasRank(s, target, v)
    ensures v <= Pow2(i) <==> v <= Pow2(BUCKETS - 1)
    ensures i > 0 ==> Pow2(i - 1) < v
    ensures v > Pow2(BUCKETS - 1) ==> i == BUCKETS - 1
  {
    UpToIsAtMost(s, i);
    if i > 0 {
      UpToIsAtMost(s, i - 1);
      if v <= Pow2(i - 1) {
        AtMostGrows(s, v, Pow2(i - 1));
        assert false;
      }
    }
    if i < BUCKETS - 1 {
      Pow2Grows(i, BUCKETS - 1);
      if v > Pow2(i) {
        AtMostGrows(s, Pow2(i), v - 1);
        assert false;
      }
    }
  }

  lemma LastPower()
    ensures Pow2(BUCKETS - 1) == 0x8000_0000
  {
    assert Pow2(4) == 0x10 && Pow2(8) == 0x100 && Pow2(12) == 0x1000 && Pow2(16) == 0x1_0000;
    assert Pow2(20) == 0x10_0000 && Pow2(24) == 0x100_0000 && Pow2(28) == 0x1000_0000;
    assert BUCKETS - 1 == 31 && Pow2(31) == 0x8000_0000;
  }

  /** One sample above 2^31 that is reported as 2^31. */
  lemma LongLatencyIsUnderstated()
    ensures var s := [0x8000_0001]; Reported(s, 1, BUCKETS - 1) && HasRank(s, 1, s[0]) && Pow2(BUCKETS - 1) < s[0]
  {
    var s: seq<Latency> := [0x8000_0001];
    LastPower();
    assert s[..0] == [];
    UpToIsAtMost(s, BUCKETS - 1);
    UpToIsAtMost(s, BUCKETS - 2);
  }

  /** What a percentile means: with `t` the percentage of the samples rounded up (at least one), `t` samples are at
      most `v` exactly when `t` samples are at most 2^31, and fewer than `t` are at most half of `v`. */
  ghost predicate IsPercentile(s: seq<Latency>, percentile: nat, v: nat) {
    var t := Target(|s|, percentile);
    && 1 <= t <= |s| && 100 * t >= |s| * percentile && (t > 1 ==> 100 * (t - 1) < |s| * percentile)
    && (AtMost(s, v) >= t <==> AtMost(s, Pow2(BUCKETS - 1)) >= t)
    && (v > 1 ==> AtMost(s, v / 2) < t)
  }

  lemma ReportedIsPercentile(s: seq<Latency>, percentile: nat, i: nat)
    requires s != [] && percentile <= 100 && |s| * percentile + 99 < U64 && Reported(s, Target(|s|, percentile), i)
    ensures IsPercentile(s, percentile, Pow2(i))
  {
    TargetIsRank(|s|, percentile);
    PercentileCovers(s, Target(|s|, percentile), i);
  }

  class Histogram {
    const buckets: array<nat>
    var count: nat
    var sum: Latency
    var min: Latency
    var max: Latency
    ghost var samples: seq<Latency>

    ghost predicate Valid()
      reads this, buckets
    {
      && buckets.Length == BUCKETS && count == |samples| && sum == Sum(samples) % U64
      && (forall i | 0 <= i < BUCKETS :: buckets[i] == InBucket(samples, i))
      && Extremes(samples, min, max)
    }

    /** `bench_stats_init`. */
    constructor ()
      ensures Valid() && fresh(buckets) && samples == []
    {
      buckets := new nat[BUCKETS](_ => 0);
      count, sum, min, max, samples := 0, 0, U64 - 1, 0, [];
    }

    /** The part of `bench_stats_record_latency` about the buckets. */
    method Tally(v: Latency)
      requires Valid()
      modifies buckets
      ensures forall i | 0 <= i < BUCKETS :: buckets[i] == InBucket(samples + [v], i)
    {
      var bucket := LatencyBucket(v);
      BucketsGrow(samples, v);
      buckets[bucket] := buckets[bucket] + 1;
    }

    /** `bench_stats_record_latency`. */
    method Record(v: Latency)
      requires Valid()
      modifies this, buckets
      ensures Valid() && samples == old(samples) + [v]
    {
      ExtremesGrow(samples, min, max, v);
      SumGrows(samples, sum, v);
      Tally(v);
      count := count + 1;
      sum := (sum + v) % U64;
      if v < min {
        min := v;
      }
      if v > max {
        max := v;
      }
      samples := samples + [v];
    }

    /** `percentile_us`. */
    method Percentile(percentile: nat) returns (r: nat, ghost bucket: nat)
      requires Valid()
      ensures samples == [] ==> r == 0
      ensures samples != [] && Target(|samples|, percentile) > |samples| ==> r == max
      ensures samples != [] && Target(|samples|, percentile) <= |samples| ==>
        r == Pow2(bucket) && Reported(samples, Target(|samples|, percentile), bucket)
      // up to 100 percent, where 64 bits do not wrap, a power of two is reported, never the maximum as such
      ensures samples != [] && percentile <= 100 && |samples| * percentile + 99 < U64 ==>
        r == Pow2(bucket) && IsPercentile(samples, percentile, r)
    {
      bucket := 0;
      if count == 0 {
        return 0, 0;
      }
      r, bucket := FirstSufficient(Target(count, percentile));
      if percentile <= 100 && count * percentile + 99 < U64 {
        TargetIsRank(count, percentile);
        ReportedIsPercentile(samples, percentile, bucket);
      }
    }

    /** The loop of `percentile_us`. */
    method FirstSufficient(target: nat) returns (r: nat, ghost bucket: nat)
      requires Valid() && target > 0
      ensures target > |samples| ==> r == max
      ensures target <= |samples| ==> r == Pow2(bucket) && Reported(samples, target, bucket)
    {
      bucket := 0;
      var seen, power := 0, 1;
      for i := 0 to BUCKETS
        invariant power == Pow2(i) && seen < target
        invariant seen == if i == 0 then 0 else UpTo(samples, i - 1)
      {
        seen := seen + buckets[i];
        if seen >= target {
          UpToIsAtMost(samples, i);
          return power, i;
        }
        power := 2 * power;
      }
      UpToIsAtMost(samples, BUCKETS - 1);
      return max, 0;
    }
  }
}
