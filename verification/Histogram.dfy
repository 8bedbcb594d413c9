/** The queue-time histogram and the percentiles read from it. */
module Histogram {
  import opened Types

  const BUCKETS: seq<nat> := [
    10_000, 50_000, 100_000, 500_000, 1_000_000, 5_000_000, 10_000_000, 50_000_000,
    100_000_000, 500_000_000, 1_000_000_000, U64_MAX
  ]

  /** What the code relies on about its bucket bounds: they ascend and the last catches everything. */
  ghost predicate Ladder(bounds: seq<nat>) {
    && bounds != []
    && bounds[|bounds| - 1] == U64_MAX
    && forall i, j :: 0 <= i <= j < |bounds| ==> bounds[i] <= bounds[j]
  }

  lemma BucketsAscend()
    ensures Ladder(BUCKETS)
  {
  }

  /** The one bucket a sample falls into: the first whose bound it does not exceed. */
  function BucketFrom(bounds: seq<nat>, x: nat, b: nat): (r: nat)
    requires Ladder(bounds) && b < |bounds| && x <= U64_MAX
    ensures b <= r < |bounds| && x <= bounds[r]
    ensures forall c :: b <= c < r ==> bounds[c] < x
    decreases |bounds| - b
  {
    if x <= bounds[b] then b else BucketFrom(bounds, x, b + 1)
  }

  function BucketOf(bounds: seq<nat>, x: nat): (r: nat)
    requires Ladder(bounds) && x <= U64_MAX
    ensures r < |bounds|
  {
    BucketFrom(bounds, x, 0)
  }

  lemma BucketWithin(bounds: seq<nat>, x: nat, b: nat)
    requires Ladder(bounds) && x <= U64_MAX && b < |bounds|
    ensures BucketOf(bounds, x) <= b <==> x <= bounds[b]
  {
    assert x <= bounds[BucketOf(bounds, x)];
  }

  /** The reported value for a sample: its bucket's upper bound. */
  function RoundUp(bounds: seq<nat>, x: nat): nat
    requires Ladder(bounds) && x <= U64_MAX
  {
    bounds[BucketOf(bounds, x)]
  }

  /** How coarse the reported values are: ten microseconds at least, less than five times too much up to a second,
      and beyond that only that it was longer. */
  lemma RoundedWithinFive(x: nat)
    requires x <= U64_MAX && Ladder(BUCKETS)
    ensures x <= RoundUp(BUCKETS, x)
    ensures x <= 10_000 ==> RoundUp(BUCKETS, x) == 10_000
    ensures 10_000 < x <= 1_000_000_000 ==> RoundUp(BUCKETS, x) < 5 * x && RoundUp(BUCKETS, x) <= 1_000_000_000
    ensures 1_000_000_000 < x ==> RoundUp(BUCKETS, x) == U64_MAX
  {
    var b := BucketOf(BUCKETS, x);
    BucketWithin(BUCKETS, x, 0);
    BucketWithin(BUCKETS, x, 10);
    if b > 0 {
      assert BUCKETS[b - 1] < x;
      assert b <= 10 ==> BUCKETS[b] <= 5 * BUCKETS[b - 1];
    }
  }

  ghost predicate InRange(samples: seq<nat>) {
    forall i :: 0 <= i < |samples| ==> samples[i] <= U64_MAX
  }

  function Zeros(n: nat): seq<nat> {
    seq(n, _ => 0)
  }

  /** The bucket counts of a sequence of samples. */
  function CountsOf(bounds: seq<nat>, samples: seq<nat>): (counts: seq<nat>)
    requires Ladder(bounds) && InRange(samples)
    ensures |counts| == |bounds|
  {
    if samples == [] then Zeros(|bounds|)
    else
      var before := CountsOf(bounds, samples[..|samples| - 1]);
      var b := BucketOf(bounds, samples[|samples| - 1]);
      before[b := before[b] + 1]
  }

  function Cumulative(counts: seq<nat>, b: nat): nat
    requires b <= |counts|
  {
    if b == 0 then 0 else Cumulative(counts, b - 1) + counts[b - 1]
  }

  function AtMost(samples: seq<nat>, bound: nat): nat {
    if samples == [] then 0
    else AtMost(samples[..|samples| - 1], bound) + if samples[|samples| - 1] <= bound then 1 else 0
  }

  lemma {:induction false} CumulativeOfUpdate(counts: seq<nat>, i: nat, b: nat)
    requires i < |counts| && b <= |counts|
    ensures Cumulative(counts[i := counts[i] + 1], b) == Cumulative(counts, b) + if i < b then 1 else 0
  {
    if b > 0 {
      CumulativeOfUpdate(counts, i, b - 1);
    }
  }

  lemma {:induction false} CumulativeOfZeros(n: nat, b: nat)
    requires b <= n
    ensures Cumulative(Zeros(n), b) == 0
  {
    if b > 0 {
      CumulativeOfZeros(n, b - 1);
    }
  }

  /** Each sample is counted in exactly one bucket: the buckets up to `b` hold the samples that do
      not exceed `b`'s bound. */
  lemma {:induction false} CumulativeCountsSamples(bounds: seq<nat>, samples: seq<nat>, b: nat)
    requires Ladder(bounds) && InRange(samples) && b < |bounds|
    ensures Cumulative(CountsOf(bounds, samples), b + 1) == AtMost(samples, bounds[b])
  {
    if samples == [] {
      CumulativeOfZeros(|bounds|, b + 1);
    } else {
      var front, last := samples[..|samples| - 1], samples[|samples| - 1];
      CumulativeCountsSamples(bounds, front, b);
      BucketWithin(bounds, last, b);
      CumulativeOfUpdate(CountsOf(bounds, front), BucketOf(bounds, last), b + 1);
    }
  }

  // ---------------------------------------------------------------- percentiles

  /** The rank ceil(total * num / den). */
  function Rank(total: nat, num: nat, den: nat): nat
    requires den > 0
  {
    (total * num + den - 1) / den
  }

  /** `r` is the least rank at which the share num/den of `total` samples is reached. */
  ghost predicate LeastRank(r: nat, total: nat, num: nat, den: nat) {
    (r - 1) * den < total * num <= r * den
  }

  lemma RankInRange(total: nat, num: nat, den: nat)
    requires total > 0 && 0 < num <= den
    ensures 1 <= Rank(total, num, den) <= total
    ensures LeastRank(Rank(total, num, den), total, num, den)
  {
    CeilingIsLeast(total * num, den);
    assert total * num >= 1;
    assert total * num <= total * den;
    var top := total * num + den - 1;
    QuotientBetween(top, total, den);
  }

  lemma QuotientBetween(top: nat, total: nat, den: nat)
    requires den > 0 && den <= top < total * den + den
    ensures 1 <= top / den <= total
  {
    assert top == top / den * den + top % den;
    if top / den >= total + 1 {
      TimesMonotone(total + 1, top / den, den);
      assert false;
    }
  }

  ghost predicate Sorted(s: seq<nat>) {
    forall i, j :: 0 <= i <= j < |s| ==> s[i] <= s[j]
  }

  lemma SameWithout(a: seq<nat>, low: seq<nat>, high: seq<nat>, x: nat)
    requires multiset(a + [x]) == multiset(low + [x] + high)
    ensures multiset(a) == multiset(low + high)
  {
    assert multiset(a + [x]) == multiset(a) + multiset{x};
    assert multiset(low + [x] + high) == multiset(low + high) + multiset{x};
    assert multiset(a) == multiset(a + [x]) - multiset{x};
    assert multiset(low + high) == multiset(low + [x] + high) - multiset{x};
  }

  lemma {:induction false} AtMostIsOrderBlind(a: seq<nat>, b: seq<nat>, bound: nat)
    requires multiset(a) == multiset(b)
    ensures AtMost(a, bound) == AtMost(b, bound)
  {
    if a == [] {
      assert |multiset(b)| == 0;
    } else {
      var front, last := a[..|a| - 1], a[|a| - 1];
      assert a == front + [last];
      assert last in multiset(b);
      var i :| 0 <= i < |b| && b[i] == last;
      var low, high := b[..i], b[i + 1..];
      assert b == low + [last] + high;
      SameWithout(front, low, high, last);
      AtMostIsOrderBlind(front, low + high, bound);
      AtMostWithout(b, i, bound);
    }
  }

  lemma {:induction false} AtMostWithout(b: seq<nat>, i: nat, bound: nat)
    requires i < |b|
    ensures AtMost(b, bound) == AtMost(b[..i] + b[i + 1..], bound) + if b[i] <= bound then 1 else 0
  {
    var front := b[..|b| - 1];
    var rest := b[..i] + b[i + 1..];
    if i == |b| - 1 {
      assert rest == front;
    } else {
      AtMostWithout(front, i, bound);
      assert rest[..|rest| - 1] == front[..i] + front[i + 1..];
    }
  }

  /** In a sorted sample, at least `r` values are within the bound exactly when the r-th is. */
  lemma {:induction false} RankWithin(sorted: seq<nat>, r: nat, bound: nat)
    requires Sorted(sorted) && 1 <= r <= |sorted|
    ensures AtMost(sorted, bound) >= r <==> sorted[r - 1] <= bound
    ensures AtMost(sorted, bound) <= |sorted|
  {
    var front, last := sorted[..|sorted| - 1], sorted[|sorted| - 1];
    AtMostIsBounded(front, bound);
    if last <= bound {
      AllWithin(front, bound);
    } else if r < |sorted| {
      RankWithin(front, r, bound);
    }
  }

  lemma {:induction false} AtMostIsBounded(s: seq<nat>, bound: nat)
    ensures AtMost(s, bound) <= |s|
  {
    if s != [] {
      AtMostIsBounded(s[..|s| - 1], bound);
    }
  }

  lemma {:induction false} AllWithin(s: seq<nat>, bound: nat)
    requires forall i :: 0 <= i < |s| ==> s[i] <= bound
    ensures AtMost(s, bound) == |s|
  {
    if s != [] {
      AllWithin(s[..|s| - 1], bound);
    }
  }

  /** The first bucket whose cumulative count reaches the rank is the one the nearest-rank quantile
      of the raw samples falls into. */
  lemma FirstReachingBucket(bounds: seq<nat>, samples: seq<nat>, sorted: seq<nat>, r: nat, b: nat)
    requires Ladder(bounds) && InRange(samples) && Sorted(sorted) && multiset(sorted) == multiset(samples)
    requires 1 <= r <= |sorted| && b < |bounds|
    requires Cumulative(CountsOf(bounds, samples), b + 1) >= r && Cumulative(CountsOf(bounds, samples), b) < r
    ensures sorted[r - 1] <= U64_MAX && bounds[b] == RoundUp(bounds, sorted[r - 1])
  {
    var x := sorted[r - 1];
    assert x in multiset(samples);
    RankReached(bounds, samples, sorted, r, b);
    BucketWithin(bounds, x, b);
    if b > 0 {
      RankReached(bounds, samples, sorted, r, b - 1);
      BucketWithin(bounds, x, b - 1);
    }
  }

  lemma RankReached(bounds: seq<nat>, samples: seq<nat>, sorted: seq<nat>, r: nat, b: nat)
    requires Ladder(bounds) && InRange(samples) && Sorted(sorted) && multiset(sorted) == multiset(samples)
    requires 1 <= r <= |sorted| && b < |bounds|
    ensures Cumulative(CountsOf(bounds, samples), b + 1) >= r <==> sorted[r - 1] <= bounds[b]
  {
    CumulativeCountsSamples(bounds, samples, b);
    AtMostIsOrderBlind(samples, sorted, bounds[b]);
    RankWithin(sorted, r, bounds[b]);
  }

  /** The share num/den of the samples is at most `ns`, and not at most any smaller bound. */
  ghost predicate LeastBound(bounds: seq<nat>, samples: seq<nat>, num: nat, den: nat, ns: nat) {
    && ns in bounds
    && AtMost(samples, ns) * den >= |samples| * num
    && forall b :: b in bounds && b < ns ==> AtMost(samples, b) * den < |samples| * num
  }

  lemma FirstIsLeastBound(bounds: seq<nat>, samples: seq<nat>, num: nat, den: nat, r: nat, b: nat)
    requires Ladder(bounds) && InRange(samples) && b < |bounds| && LeastRank(r, |samples|, num, den)
    requires Cumulative(CountsOf(bounds, samples), b + 1) >= r && Cumulative(CountsOf(bounds, samples), b) < r
    ensures LeastBound(bounds, samples, num, den, bounds[b])
  {
    hide CountsOf, Cumulative, AtMost;
    CumulativeCountsSamples(bounds, samples, b);
    TimesMonotone(r, AtMost(samples, bounds[b]), den);
    forall x | x in bounds && x < bounds[b] ensures AtMost(samples, x) * den < |samples| * num {
      var c :| 0 <= c < |bounds| && bounds[c] == x;
      CumulativeCountsSamples(bounds, samples, b - 1);
      AtMostGrows(samples, x, bounds[b - 1]);
      TimesMonotone(AtMost(samples, x), r - 1, den);
    }
  }

  lemma {:induction false} AtMostGrows(samples: seq<nat>, bound: nat, higher: nat)
    requires bound <= higher
    ensures AtMost(samples, bound) <= AtMost(samples, higher)
  {
    if samples != [] {
      AtMostGrows(samples[..|samples| - 1], bound, higher);
    }
  }

  lemma CumulativeTotal(bounds: seq<nat>, samples: seq<nat>)
    requires Ladder(bounds) && InRange(samples)
    ensures Cumulative(CountsOf(bounds, samples), |bounds|) == |samples|
  {
    CumulativeCountsSamples(bounds, samples, |bounds| - 1);
    AllWithin(samples, U64_MAX);
  }

  class Histogram {
    const bounds: seq<nat>
    var counts: seq<nat>
    ghost var samples: seq<nat>

    ghost predicate Valid()
      reads this
    {
      Ladder(bounds) && InRange(samples) && counts == CountsOf(bounds, samples)
    }

    constructor ()
      ensures Valid() && samples == [] && bounds == BUCKETS
    {
      BucketsAscend();
      bounds := BUCKETS;
      counts := Zeros(|BUCKETS|);
      samples := [];
    }

    method RecordQueueTime(queueTimeNs: nat)
      requires Valid() && queueTimeNs <= U64_MAX
      modifies this
      ensures Valid() && samples == old(samples) + [queueTimeNs]
    {
      assert (samples + [queueTimeNs])[..|samples|] == samples;
      samples := samples + [queueTimeNs];
      var idx := 0;
      while idx < |bounds|
        invariant 0 <= idx <= |bounds|
        invariant forall c :: 0 <= c < idx ==> bounds[c] < queueTimeNs
        invariant counts == old(counts) && samples == old(samples) + [queueTimeNs]
      {
        if queueTimeNs <= bounds[idx] {
          counts := counts[idx := counts[idx] + 1];
          return;
        }
        idx := idx + 1;
      }
    }

    /** The percentile num/den: the least bucket bound that the share num/den of all recorded samples does not
        exceed. It is the nearest-rank quantile rounded up to its bucket's bound, whatever sorted arrangement of
        the samples one takes; 0 before the first sample. */
    method Percentile(num: nat, den: nat) returns (ns: nat)
      requires Valid() && 0 < num <= den
      ensures samples == [] ==> ns == 0
      ensures samples != [] ==> LeastBound(bounds, samples, num, den, ns)
      ensures forall sorted: seq<nat> | samples != [] && Sorted(sorted) && multiset(sorted) == multiset(samples) ::
                var r := Rank(|samples|, num, den);
                && LeastRank(r, |samples|, num, den)
                && 1 <= r <= |sorted| && sorted[r - 1] <= U64_MAX && ns == RoundUp(bounds, sorted[r - 1])
    {
      var total := 0;
      var idx := 0;
      while idx < |counts|
        invariant 0 <= idx <= |counts|
        invariant total == Cumulative(counts, idx)
      {
        total := total + counts[idx];
        idx := idx + 1;
      }
      CumulativeTotal(bounds, samples);
      if total == 0 {
        return 0;
      }
      var target := Rank(total, num, den);
      RankInRange(total, num, den);
      ns := bounds[|bounds| - 1];
      var cumulative := 0;
      idx := 0;
      while idx < |counts|
        invariant 0 <= idx <= |counts|
        invariant cumulative == Cumulative(counts, idx) < target
      {
        cumulative := cumulative + counts[idx];
        if cumulative >= target {
          FirstIsLeastBound(bounds, samples, num, den, target, idx);
          forall sorted: seq<nat> | Sorted(sorted) && multiset(sorted) == multiset(samples)
            ensures 1 <= target <= |sorted| && sorted[target - 1] <= U64_MAX && bounds[idx] == RoundUp(bounds, sorted[target - 1])
          {
            assert |multiset(sorted)| == |multiset(samples)|;
            FirstReachingBucket(bounds, samples, sorted, target, idx);
          }
          return bounds[idx];
        }
        idx := idx + 1;
      }
      assert false;
    }
  }
}
