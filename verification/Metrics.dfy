/**
  Stage timing (core/src/pipeline/metrics.cpp): a fixed histogram of durations whose percentiles
  bracket the exact nearest-rank order statistics.
*/
module Metrics {
  import opened Numbers
  import Sorting

  const BOUNDS_US: seq<nat> :=
    [50, 100, 200, 500, 1000, 2000, 5000, 10000, 20000, 50000, 100000, 200000, 500000, 1000000, 2000000, 5000000, 10000000]

  const BUCKETS := 18

  /** The bucket past the last bound. */
  const OVERFLOW := 17

  const MAX_NS := 0x1_0000_0000_0000_0000 - 1

  type Duration = d: nat | d <= MAX_NS

  function Bound(i: nat): nat
    requires i < OVERFLOW
  {
    BOUNDS_US[i]
  }

  lemma BoundsIncrease(i: nat, j: nat)
    requires i < j < OVERFLOW
    ensures Bound(i) < Bound(j)
  {
  }

  function Micros(d: Duration): nat { d / 1000 }

  /** Whole microseconds, rounded down. */
  lemma MicrosFloor(d: Duration)
    ensures 1000 * Micros(d) <= d < 1000 * (Micros(d) + 1)
  {
  }

  /** The first bucket from i on whose bound is no smaller; past the last bound, the overflow bucket. */
  function BucketFrom(us: nat, i: nat): (k: nat)
    requires i <= OVERFLOW
    ensures i <= k < BUCKETS
    decreases OVERFLOW - i
  {
    if i == OVERFLOW || us <= Bound(i) then i else BucketFrom(us, i + 1)
  }

  function Bucket(us: nat): (k: nat)
    ensures k < BUCKETS
  {
    BucketFrom(us, 0)
  }

  lemma {:induction false} BucketFromBrackets(us: nat, i: nat)
    requires i <= OVERFLOW && (i > 0 ==> us > Bound(i - 1))
    ensures var k := BucketFrom(us, i);
      && (k < OVERFLOW ==> us <= Bound(k))
      && (k > 0 ==> us > Bound(k - 1))
    decreases OVERFLOW - i
  {
    hide Bound;
    if i < OVERFLOW && us > Bound(i) {
      BucketFromBrackets(us, i + 1);
    }
  }

  /** A duration is in one of the first buckets up to k exactly when it is within the k-th bound. */
  lemma BucketUpTo(us: nat, k: nat)
    requires k < OVERFLOW
    ensures Bucket(us) <= k <==> us <= Bound(k)
  {
    hide BucketFrom, Bound;
    BucketFromBrackets(us, 0);
    var b := Bucket(us);
    if b < k {
      BoundsIncrease(b, k);
    } else if b > k + 1 {
      BoundsIncrease(k, b - 1);
    }
  }

  // ---------------------------------------------------------------- observations

  /** How many of the observations are within the bound. */
  function CountUpTo(s: seq<nat>, bound: nat): (n: nat)
    ensures n <= |s|
  {
    if s == [] then 0 else CountUpTo(s[..|s| - 1], bound) + (if s[|s| - 1] <= bound then 1 else 0)
  }

  function CountIn(s: seq<nat>, bucket: nat): nat
  {
    if s == [] then 0 else CountIn(s[..|s| - 1], bucket) + (if Bucket(s[|s| - 1]) == bucket then 1 else 0)
  }

  function MicrosOf(log: seq<Duration>): (r: seq<nat>)
    ensures |r| == |log| && forall i :: 0 <= i < |log| ==> r[i] == Micros(log[i])
  {
    seq(|log|, i requires 0 <= i < |log| => Micros(log[i]))
  }

  function Cumulated(bins: seq<nat>, n: nat): (total: nat)
    requires n <= |bins|
  {
    if n == 0 then 0 else Cumulated(bins, n - 1) + bins[n - 1]
  }

  lemma {:induction false} CumulatedAddsOne(bins: seq<nat>, more: seq<nat>, b: nat, n: nat)
    requires |bins| == |more| && n <= |bins| && b < |bins| && more == bins[b := bins[b] + 1]
    ensures Cumulated(more, n) == Cumulated(bins, n) + (if b < n then 1 else 0)
  {
    if n > 0 {
      CumulatedAddsOne(bins, more, b, n - 1);
    }
  }

  function Histogram(s: seq<nat>): (bins: seq<nat>)
    ensures |bins| == BUCKETS && forall i :: 0 <= i < BUCKETS ==> bins[i] == CountIn(s, i)
  {
    seq(BUCKETS, i requires 0 <= i < BUCKETS => CountIn(s, i))
  }

  lemma CountsStep(s: seq<nat>)
    requires s != []
    ensures var earlier, b := Histogram(s[..|s| - 1]), Bucket(s[|s| - 1]);
      Histogram(s) == earlier[b := earlier[b] + 1]
  {
  }

  lemma {:induction false} CumulatedNone(bins: seq<nat>, n: nat)
    requires n <= |bins| && forall i :: 0 <= i < |bins| ==> bins[i] == 0
    ensures Cumulated(bins, n) == 0
  {
    if n > 0 {
      CumulatedNone(bins, n - 1);
    }
  }

  /** The bins up to a bound hold the observations within it; all bins hold all of them. */
  lemma {:induction false} CumulatedIsCount(s: seq<nat>, k: nat)
    requires k < BUCKETS
    ensures Cumulated(Histogram(s), k + 1) == if k < OVERFLOW then CountUpTo(s, Bound(k)) else |s|
  {
    if s == [] {
      CumulatedNone(Histogram(s), k + 1);
    } else {
      var earlier, us := s[..|s| - 1], s[|s| - 1];
      CumulatedIsCount(earlier, k);
      CountsStep(s);
      CumulatedAddsOne(Histogram(earlier), Histogram(s), Bucket(us), k + 1);
      if k < OVERFLOW {
        BucketUpTo(us, k);
      }
      hide Bucket, Cumulated, Histogram;
    }
  }

  // ---------------------------------------------------------------- the exact statistic

  function Negated(x: nat): real { -(x as real) }

  function Sorted(s: seq<nat>): (r: seq<nat>)
    ensures |r| == |s|
  {
    Sorting.Sorted(Negated, s)
  }

  ghost predicate Ascending(s: seq<nat>)
  {
    forall i, j :: 0 <= i < j < |s| ==> s[i] <= s[j]
  }

  lemma SortedAscends(s: seq<nat>)
    ensures Ascending(Sorted(s))
    ensures multiset(Sorted(s)) == multiset(s)
  {
    Sorting.SortedIsSorted(Negated, s);
    var sorted := Sorted(s);
    forall i, j | 0 <= i < j < |sorted|
      ensures sorted[i] <= sorted[j]
    {
      assert Negated(sorted[i]) >= Negated(sorted[j]);
    }
  }

  lemma {:induction false} CountsConcat(s: seq<nat>, t: seq<nat>, bound: nat)
    ensures CountUpTo(s + t, bound) == CountUpTo(s, bound) + CountUpTo(t, bound)
  {
    if t == [] {
      assert s + t == s;
    } else {
      CountsConcat(s, t[..|t| - 1], bound);
      assert (s + t)[..|s + t| - 1] == s + t[..|t| - 1];
    }
  }

  lemma {:induction false} InsertCounts(x: nat, s: seq<nat>, bound: nat)
    ensures CountUpTo(Sorting.Insert(Negated, x, s), bound) == CountUpTo(s, bound) + CountUpTo([x], bound)
  {
    if s == [] {
    } else if x < s[0] {
      CountsConcat([x], s, bound);
    } else {
      InsertCounts(x, s[1..], bound);
      assert s == [s[0]] + s[1..];
      CountsConcat([s[0]], s[1..], bound);
      CountsConcat([s[0]], Sorting.Insert(Negated, x, s[1..]), bound);
    }
  }

  lemma {:induction false} SortedCounts(s: seq<nat>, bound: nat)
    ensures CountUpTo(Sorted(s), bound) == CountUpTo(s, bound)
  {
    if s != [] {
      var front, last := s[..|s| - 1], s[|s| - 1];
      SortedCounts(front, bound);
      InsertCounts(last, Sorted(front), bound);
      hide Sorting.Insert;
    }
  }

  /** In ascending order, the k-th is within a bound exactly when k of them are. */
  lemma {:induction false} RankByCount(s: seq<nat>, k: nat, bound: nat)
    requires Ascending(s) && 1 <= k <= |s|
    ensures s[k - 1] <= bound <==> CountUpTo(s, bound) >= k
    decreases |s|
  {
    var front := s[..|s| - 1];
    if k < |s| {
      RankByCount(front, k, bound);
      if s[|s| - 1] <= bound {
        assert s[k - 1] <= s[|s| - 1];
      }
    } else if s[|s| - 1] <= bound {
      AllCounted(s, bound);
    }
  }

  lemma {:induction false} AllCounted(s: seq<nat>, bound: nat)
    requires forall i :: 0 <= i < |s| ==> s[i] <= bound
    ensures CountUpTo(s, bound) == |s|
  {
    if s != [] {
      AllCounted(s[..|s| - 1], bound);
    }
  }

  // ---------------------------------------------------------------- percentiles

  function Ceil(x: real): int { -(-x).Floor }

  /** The nearest rank of a percentile among n observations. */
  function Rank(p: real, n: nat): int { Ceil(p * n as real) }

  lemma RankInRange(p: real, n: nat)
    requires 0.0 < p <= 1.0 && n > 0
    ensures 1 <= Rank(p, n) <= n
  {
    var x := p * n as real;
    assert x > 0.0;
    assert x <= 1.0 * n as real;
  }

  lemma RankMonotone(p: real, q: real, n: nat)
    requires p <= q
    ensures Rank(p, n) <= Rank(q, n)
  {
    assert p * n as real <= q * n as real;
  }

  /** The first bucket from i on at which the running total reaches the target, or the number of buckets. */
  function Reached(bins: seq<nat>, target: int, i: nat): (k: nat)
    requires i <= |bins|
    ensures i <= k <= |bins|
    ensures k < |bins| ==> Cumulated(bins, k + 1) >= target
    ensures forall j :: i < j <= k ==> Cumulated(bins, j) < target
    decreases |bins| - i
  {
    if i == |bins| || Cumulated(bins, i + 1) >= target then i else Reached(bins, target, i + 1)
  }

  /** A bucket's value in milliseconds. */
  function BucketMs(k: nat, maxNs: nat): real
  {
    if k < OVERFLOW then Bound(k) as real / 1000.0 else maxNs as real / 1000000.0
  }

  function PercentileMs(bins: seq<nat>, p: real, count: nat, maxNs: nat): real
    requires |bins| == BUCKETS
  {
    if count == 0 then 0.0 else BucketMs(Reached(bins, Rank(p, count), 0), maxNs)
  }

  ghost function ExactUs(s: seq<nat>, p: real): nat
    requires 0.0 < p <= 1.0 && s != []
  {
    RankInRange(p, |s|);
    Sorted(s)[Rank(p, |s|) - 1]
  }

  lemma BucketIs(us: nat, k: nat)
    requires k < BUCKETS && (k < OVERFLOW ==> us <= Bound(k)) && (k > 0 ==> us > Bound(k - 1))
    ensures Bucket(us) == k
  {
    hide BucketFrom, Bound;
    if k < OVERFLOW {
      BucketUpTo(us, k);
    }
    if k > 0 {
      BucketUpTo(us, k - 1);
    }
  }

  /** The bucket the scan stops at is the one that holds the exact nearest-rank statistic. */
  lemma ReachedHoldsExact(s: seq<nat>, p: real)
    requires 0.0 < p <= 1.0 && s != []
    ensures Reached(Histogram(s), Rank(p, |s|), 0) == Bucket(ExactUs(s, p))
  {
    var target := Rank(p, |s|);
    RankInRange(p, |s|);
    var k, x := Reached(Histogram(s), target, 0), ExactUs(s, p);
    CumulatedIsCount(s, BUCKETS - 1);
    hide Histogram, Rank, Sorted, CountUpTo, Bucket, Reached, ExactUs, Cumulated, Bound;
    assert k < BUCKETS;
    CumulatedIsCount(s, k);
    if k < OVERFLOW {
      ExactWithin(s, p, Bound(k));
    }
    if k > 0 {
      CumulatedIsCount(s, k - 1);
      ExactWithin(s, p, Bound(k - 1));
    }
    BucketIs(x, k);
  }

  lemma ExactWithin(s: seq<nat>, p: real, bound: nat)
    requires 0.0 < p <= 1.0 && s != []
    ensures ExactUs(s, p) <= bound <==> CountUpTo(s, bound) >= Rank(p, |s|)
  {
    RankInRange(p, |s|);
    SortedAscends(s);
    SortedCounts(s, bound);
    hide Sorted, Rank, CountUpTo, Ascending;
    RankByCount(Sorted(s), Rank(p, |s|), bound);
  }

  function MaxOf(log: seq<Duration>): (m: nat)
    ensures forall i :: 0 <= i < |log| ==> log[i] <= m
    ensures log != [] ==> m in log
  {
    if log == [] then 0
    else
      var earlier := MaxOf(log[..|log| - 1]);
      assert forall i :: 0 <= i < |log| - 1 ==> log[i] == log[..|log| - 1][i];
      if log[|log| - 1] > earlier then log[|log| - 1] else earlier
  }

  function MinOf(log: seq<Duration>): (m: nat)
    ensures forall i :: 0 <= i < |log| ==> m <= log[i]
    ensures log != [] ==> m in log
  {
    if log == [] then MAX_NS
    else
      var earlier := MinOf(log[..|log| - 1]);
      assert forall i :: 0 <= i < |log| - 1 ==> log[i] == log[..|log| - 1][i];
      if log[|log| - 1] < earlier then log[|log| - 1] else earlier
  }

  function SumOf(log: seq<Duration>): (sum: nat)
  {
    if log == [] then 0 else SumOf(log[..|log| - 1]) + log[|log| - 1]
  }

  lemma {:induction false} SumBetween(log: seq<Duration>, lo: nat, hi: nat)
    requires forall i :: 0 <= i < |log| ==> lo <= log[i] <= hi
    ensures |log| * lo <= SumOf(log) <= |log| * hi
  {
    if log != [] {
      var n := |log| - 1;
      SumBetween(log[..n], lo, hi);
      OneTimesMore(n, lo);
      OneTimesMore(n, hi);
    }
  }

  lemma OneTimesMore(n: nat, x: nat)
    ensures (n + 1) * x == n * x + x
  {
  }

  /** The exact nearest-rank statistic of the durations, in whole microseconds. */
  ghost function Exact(log: seq<Duration>, p: real): nat
    requires 0.0 < p <= 1.0 && log != []
  {
    ExactUs(MicrosOf(log), p)
  }

  function Estimate(log: seq<Duration>, p: real): real
  {
    PercentileMs(Histogram(MicrosOf(log)), p, |log|, MaxOf(log))
  }

  lemma ExactIsObserved(log: seq<Duration>, p: real) returns (i: nat)
    requires 0.0 < p <= 1.0 && log != []
    ensures i < |log| && Micros(log[i]) == Exact(log, p)
  {
    var s := MicrosOf(log);
    SortedAscends(s);
    RankInRange(p, |s|);
    assert Sorted(s)[Rank(p, |s|) - 1] in multiset(Sorted(s));
    assert Exact(log, p) in multiset(s);
    i :| 0 <= i < |s| && s[i] == Exact(log, p);
  }

  /**
    A percentile never understates: it is at least the exact nearest-rank statistic, and, short of
    the overflow bucket, the statistic lies above the next lower bound, so it overstates by at most
    one bucket.
  */
  lemma EstimateBracketsExact(log: seq<Duration>, p: real)
    requires 0.0 < p <= 1.0 && log != []
    ensures Estimate(log, p) >= Exact(log, p) as real / 1000.0
    ensures var k := Bucket(Exact(log, p));
      && (k < OVERFLOW ==> Estimate(log, p) == Bound(k) as real / 1000.0)
      && (k > 0 ==> Exact(log, p) > Bound(k - 1))
      && (k == OVERFLOW ==> Estimate(log, p) == MaxOf(log) as real / 1000000.0 && Estimate(log, p) >= Bound(OVERFLOW - 1) as real / 1000.0)
  {
    ReachedHoldsExact(MicrosOf(log), p);
    var x := Exact(log, p);
    BucketFromBrackets(x, 0);
    var i := ExactIsObserved(log, p);
    assert log[i] >= 1000 * x;
    hide Histogram, BucketFrom, ExactUs, Reached, MaxOf, Bound;
  }

  lemma {:induction false} ReachedMonotone(bins: seq<nat>, small: int, large: int, i: nat)
    requires i <= |bins| && small <= large
    ensures Reached(bins, small, i) <= Reached(bins, large, i)
    decreases |bins| - i
  {
    if i < |bins| && Cumulated(bins, i + 1) < small {
      ReachedMonotone(bins, small, large, i + 1);
    }
  }

  /** A higher percentile is never reported lower. */
  lemma EstimateMonotone(log: seq<Duration>, p: real, q: real)
    requires 0.0 < p <= q <= 1.0
    ensures Estimate(log, p) <= Estimate(log, q)
  {
    if log != [] {
      var bins := Histogram(MicrosOf(log));
      RankMonotone(p, q, |log|);
      ReachedMonotone(bins, Rank(p, |log|), Rank(q, |log|), 0);
      EstimateBracketsExact(log, p);
      EstimateBracketsExact(log, q);
      ReachedHoldsExact(MicrosOf(log), p);
      ReachedHoldsExact(MicrosOf(log), q);
      var k, m := Bucket(Exact(log, p)), Bucket(Exact(log, q));
      hide Histogram, Bucket, ExactUs, Reached, Rank, MaxOf, Estimate, Bound;
      if k < m {
        if m < OVERFLOW {
          BoundsIncrease(k, m);
        } else if k < OVERFLOW - 1 {
          BoundsIncrease(k, OVERFLOW - 1);
        }
      }
    }
  }

  // ---------------------------------------------------------------- the accumulator

  datatype Snapshot = Snapshot(count: nat, errors: nat, fps: real, avgMs: real, p50Ms: real, p95Ms: real, p99Ms: real, minMs: real, maxMs: real)

  lemma LogAppended(log: seq<Duration>, d: Duration)
    ensures (log + [d])[..|log|] == log
  {
  }

  lemma OneMoreSummed(log: seq<Duration>, d: Duration)
    ensures SumOf(log + [d]) == SumOf(log) + d
    ensures MinOf(log + [d]) == if d < MinOf(log) then d else MinOf(log)
    ensures MaxOf(log + [d]) == if d > MaxOf(log) then d else MaxOf(log)
  {
    LogAppended(log, d);
  }

  lemma OneMoreCounted(log: seq<Duration>, d: Duration)
    ensures var earlier, b := Histogram(MicrosOf(log)), Bucket(Micros(d));
      Histogram(MicrosOf(log + [d])) == earlier[b := earlier[b] + 1]
  {
    hide Bucket, Histogram;
    var more := MicrosOf(log + [d]);
    assert more[..|more| - 1] == MicrosOf(log);
    CountsStep(more);
  }

  /** The counters summarise the durations observed. */
  ghost predicate Summarise(log: seq<Duration>, count: nat, sum: nat, min: nat, max: nat, bins: seq<nat>)
  {
    && count == |log|
    && sum == SumOf(log)
    && min == MinOf(log)
    && max == MaxOf(log)
    && bins == Histogram(MicrosOf(log))
  }

  lemma OneMoreObserved(log: seq<Duration>, d: Duration, count: nat, sum: nat, min: nat, max: nat, bins: seq<nat>)
    requires Summarise(log, count, sum, min, max, bins)
    ensures |bins| == BUCKETS
    ensures var b := Bucket(Micros(d));
      Summarise(log + [d], count + 1, sum + d, MinInt(min, d), MaxInt(max, d), bins[b := bins[b] + 1])
  {
    OneMoreSummed(log, d);
    OneMoreCounted(log, d);
    hide Bucket, SumOf, MinOf, MaxOf, Histogram, MicrosOf, Micros;
  }

  class StageAccumulator {
    var count: nat
    var errors: nat
    var sumNs: nat
    var minNs: nat
    var maxNs: nat
    var bins: seq<nat>
    ghost var log: seq<Duration>

    /** The fields summarise the durations observed so far. */
    ghost predicate Valid()
      reads this
    {
      errors <= count && Summarise(log, count, sumNs, minNs, maxNs, bins)
    }

    constructor ()
      ensures Valid() && log == []
    {
      count, errors, sumNs, minNs, maxNs, log := 0, 0, 0, MAX_NS, 0, [];
      bins := seq(BUCKETS, _ => 0);
    }

    method Observe(d: Duration, ok: bool)
      requires Valid()
      modifies this
      ensures Valid() && log == old(log) + [d]
      ensures errors == old(errors) + (if ok then 0 else 1)
    {
      hide Bucket, Summarise, Micros;
      OneMoreObserved(log, d, count, sumNs, minNs, maxNs, bins);
      count := count + 1;
      if !ok {
        errors := errors + 1;
      }
      sumNs := sumNs + d;
      minNs, maxNs := MinInt(minNs, d), MaxInt(maxNs, d);
      var b := Bucket(Micros(d));
      bins := bins[b := bins[b] + 1];
      log := log + [d];
    }

    method Percentile(p: real) returns (ms: real)
      requires Valid() && p >= 0.0
      ensures ms == Estimate(log, p)
    {
      if count == 0 {
        return 0.0;
      }
      var target := Rank(p, count);
      var seen := 0;
      hide Histogram, MaxOf, Rank, MicrosOf;
      for i := 0 to |bins|
        invariant seen == Cumulated(bins, i)
        invariant Reached(bins, target, 0) == Reached(bins, target, i)
      {
        seen := seen + bins[i];
        if seen >= target {
          if i < |BOUNDS_US| {
            return Bound(i) as real / 1000.0;
          }
          return maxNs as real / 1000000.0;
        }
      }
      return maxNs as real / 1000000.0;
    }

    method TakeSnapshot(uptimeS: real) returns (out: Snapshot)
      requires Valid()
      ensures out.count == |log| && out.errors == errors && out.fps == if uptimeS > 0.0 then |log| as real / uptimeS else 0.0
      ensures log == [] ==> out == Snapshot(0, errors, out.fps, 0.0, 0.0, 0.0, 0.0, 0.0, 0.0)
      ensures log != [] ==> out.avgMs == SumOf(log) as real / |log| as real / 1000000.0
      ensures log != [] ==>
        && out.p50Ms == Estimate(log, 0.5) && out.p95Ms == Estimate(log, 0.95) && out.p99Ms == Estimate(log, 0.99)
        && out.p50Ms <= out.p95Ms <= out.p99Ms
        && out.minMs == MinOf(log) as real / 1000000.0
        && out.maxMs == MaxOf(log) as real / 1000000.0
        && out.minMs <= out.avgMs <= out.maxMs
    {
      var fps := if uptimeS > 0.0 then count as real / uptimeS else 0.0;
      if count == 0 {
        return Snapshot(0, errors, fps, 0.0, 0.0, 0.0, 0.0, 0.0, 0.0);
      }
      var p50 := Percentile(0.5);
      var p95 := Percentile(0.95);
      var p99 := Percentile(0.99);
      EstimateMonotone(log, 0.5, 0.95);
      EstimateMonotone(log, 0.95, 0.99);
      SumBetween(log, minNs, maxNs);
      hide Estimate, SumOf, MinOf, MaxOf, Histogram;
      MeanBetween(sumNs, count, minNs, maxNs);
      out := Snapshot(count, errors, fps, sumNs as real / count as real / 1000000.0, p50, p95, p99,
                      minNs as real / 1000000.0, maxNs as real / 1000000.0);
    }
  }

  lemma MeanBetween(sum: nat, n: nat, lo: nat, hi: nat)
    requires n > 0 && n * lo <= sum <= n * hi
    ensures lo as real <= sum as real / n as real <= hi as real
  {
    QuotientBetween(sum as real, n as real, lo as real, hi as real) by {
      ProductAsReal(n, lo);
      ProductAsReal(n, hi);
    }
  }

  lemma ProductAsReal(n: nat, x: nat)
    ensures n as real * x as real == (n * x) as real
  {
  }

  lemma QuotientBetween(sum: real, n: real, lo: real, hi: real)
    requires n > 0.0 && n * lo <= sum <= n * hi
    ensures lo <= sum / n <= hi
  {
    var mean := sum / n;
    assert mean * n == sum;
    CancelFactor(lo, mean, n);
    CancelFactor(mean, hi, n);
  }

  lemma CancelFactor(a: real, b: real, n: real)
    requires n > 0.0 && a * n <= b * n
    ensures a <= b
  {
    assert (b - a) * n >= 0.0;
  }
}
