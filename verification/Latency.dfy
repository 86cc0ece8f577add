/** The latency histogram (pmarb/latency.py): geometric buckets over milliseconds, in exact arithmetic. */
module Latency {
  import opened Common

  const MIN_MS: real := 0.01
  const GROWTH: real := 1.1
  const BUCKETS: nat := 180

  /** Upper bound of bucket `i`. */
  function Edge(i: nat): real {
    if i == 0 then MIN_MS else Edge(i - 1) * GROWTH
  }

  /** The first bucket from `i` on whose edge is not below `ms`; the last one absorbs the tail. */
  function IndexFrom(ms: real, i: nat): (k: nat)
    requires i < BUCKETS
    ensures i <= k < BUCKETS
    decreases BUCKETS - i
  {
    if i == BUCKETS - 1 || ms <= Edge(i) then i else IndexFrom(ms, i + 1)
  }

  function Index(ms: real): (k: nat)
    ensures k < BUCKETS
  {
    IndexFrom(ms, 0)
  }

  function InBucket(seen: seq<real>, b: nat): nat {
    if seen == [] then 0 else InBucket(seen[..|seen| - 1], b) + if Index(seen[|seen| - 1]) == b then 1 else 0
  }

  function UpToBucket(seen: seq<real>, b: int): nat {
    if seen == [] then 0 else UpToBucket(seen[..|seen| - 1], b) + if Index(seen[|seen| - 1]) <= b then 1 else 0
  }

  function Max(seen: seq<real>): real {
    if seen == [] then 0.0
    else var m := Max(seen[..|seen| - 1]); if seen[|seen| - 1] > m then seen[|seen| - 1] else m
  }

  /** The first bucket from `b` on that holds `target` observations together with those below it. */
  function BucketFor(seen: seq<real>, target: real, b: nat): Option<nat>
    requires b <= BUCKETS
    decreases BUCKETS - b
  {
    if b == BUCKETS then None
    else if UpToBucket(seen, b) as real >= target then Some(b) else BucketFor(seen, target, b + 1)
  }

  /** The edge of that bucket, or the maximum where the maximum is smaller or the bucket has no edge. */
  function PercentileAt(seen: seq<real>, target: real): real {
    match BucketFor(seen, target, 0)
    case None => Max(seen)
    case Some(b) => if b == BUCKETS - 1 || Max(seen) < Edge(b) then Max(seen) else Edge(b)
  }

  function PercentileOf(seen: seq<real>, q: real): Option<real> {
    if seen == [] then None else Some(PercentileAt(seen, Target(q, |seen|)))
  }

  /** How many observations the q-quantile has at or below it. */
  function Target(q: real, count: int): real {
    q * count as real
  }

  class LatencyHistogram {
    var counts: array<int>
    var count: int
    var maxMs: real
    ghost var seen: seq<real>

    ghost predicate Valid()
      reads this, counts
    {
      && counts.Length == BUCKETS
      && (forall b :: 0 <= b < BUCKETS ==> counts[b] == InBucket(seen, b))
      && count == |seen| && maxMs == Max(seen)
      && forall i :: 0 <= i < |seen| ==> seen[i] >= 0.0
    }

    constructor ()
      ensures Valid() && fresh(counts) && seen == []
    {
      counts := new int[BUCKETS](_ => 0);
      count, maxMs, seen := 0, 0.0, [];
    }

    /** Records one duration, a negative one as zero. */
    method Observe(ms: real)
      requires Valid()
      modifies this, counts
      ensures Valid() && counts == old(counts)
      ensures seen == old(seen) + [if ms < 0.0 then 0.0 else ms]
    {
      var x := if ms < 0.0 then 0.0 else ms;
      ghost var was := seen;
      counts[Index(x)] := counts[Index(x)] + 1;
      count := count + 1;
      seen := seen + [x];
      assert seen[..|was|] == was;
      if x > maxMs { maxMs := x; }
    }

    method WalkBuckets(target: real) returns (r: real)
      requires Valid()
      ensures r == PercentileAt(seen, target)
    {
      var cumulative := 0;
      NextBucket(seen, 0);
      for i := 0 to BUCKETS
        invariant cumulative == UpToBucket(seen, i - 1)
        invariant BucketFor(seen, target, 0) == BucketFor(seen, target, i)
      {
        NextBucket(seen, i);
        cumulative := cumulative + counts[i];
        if cumulative as real >= target {
          if i == BUCKETS - 1 { return maxMs; }
          return if maxMs < Edge(i) then maxMs else Edge(i);
        }
      }
      return maxMs;
    }

    method Percentile(q: real) returns (r: Option<real>)
      requires Valid()
      ensures r == PercentileOf(seen, q)
    {
      if count == 0 { return None; }
      var p := WalkBuckets(Target(q, count));
      r := Some(p);
    }
  }

  lemma {:induction false} NextBucket(seen: seq<real>, b: nat)
    ensures UpToBucket(seen, b) == UpToBucket(seen, b - 1) + InBucket(seen, b)
    ensures UpToBucket(seen, -1) == 0
  {
    if seen != [] { NextBucket(seen[..|seen| - 1], b); }
  }
}

/** What the reported percentile means against the exact one. */
module LatencyLaws {
  import opened Common
  import opened Latency

  lemma {:induction false} EdgesGrow(i: nat, j: nat)
    requires i <= j
    ensures 0.0 < Edge(i) <= Edge(j)
    decreases i + j
  {
    if i < j {
      EdgesGrow(i, j - 1);
    } else if i > 0 {
      EdgesGrow(i - 1, i - 1);
    }
  }

  /** A duration lies within its bucket, except that the last one has no ceiling and the first no floor. */
  lemma {:induction false} IndexMeans(ms: real, i: nat)
    requires i < BUCKETS && (i > 0 ==> ms > Edge(i - 1))
    ensures var k := IndexFrom(ms, i); (k < BUCKETS - 1 ==> ms <= Edge(k)) && (k > 0 ==> ms > Edge(k - 1))
    decreases BUCKETS - i
  {
    if i < BUCKETS - 1 && ms > Edge(i) { IndexMeans(ms, i + 1); }
  }

  lemma IndexIsMonotone(x: real, y: real)
    requires x <= y
    ensures Index(x) <= Index(y)
  {
    IndexMeans(x, 0);
    IndexMeans(y, 0);
    if Index(y) < Index(x) { EdgesGrow(Index(y), Index(x) - 1); }
  }

  function CountAtMost(seen: seq<real>, v: real): nat {
    if seen == [] then 0 else CountAtMost(seen[..|seen| - 1], v) + if seen[|seen| - 1] <= v then 1 else 0
  }

  function CountBelow(seen: seq<real>, v: real): nat {
    if seen == [] then 0 else CountBelow(seen[..|seen| - 1], v) + if seen[|seen| - 1] < v then 1 else 0
  }

  /** The nearest-rank quantile: the least observation with `target` of them at or below it. */
  ghost predicate IsQuantile(seen: seq<real>, target: real, v: real) {
    v in seen && CountAtMost(seen, v) as real >= target && (CountBelow(seen, v) as real) < target
  }

  lemma {:induction false} CountsOrder(seen: seq<real>, v: real, w: real)
    ensures v < w ==> CountAtMost(seen, v) <= CountBelow(seen, w)
    ensures CountBelow(seen, v) <= CountAtMost(seen, v) <= |seen|
  {
    if seen != [] { CountsOrder(seen[..|seen| - 1], v, w); }
  }

  lemma QuantileIsUnique(seen: seq<real>, target: real, v: real, w: real)
    requires IsQuantile(seen, target, v) && IsQuantile(seen, target, w)
    ensures v == w
  {
    CountsOrder(seen, v, w);
    CountsOrder(seen, w, v);
  }

  lemma {:induction false} MaxMeans(seen: seq<real>)
    requires forall i :: 0 <= i < |seen| ==> seen[i] >= 0.0
    ensures forall i :: 0 <= i < |seen| ==> seen[i] <= Max(seen)
    ensures seen != [] ==> Max(seen) in seen
    ensures CountAtMost(seen, Max(seen)) == |seen|
  {
    if seen != [] {
      var front, last := seen[..|seen| - 1], seen[|seen| - 1];
      MaxMeans(front);
      AllCounted(front, Max(seen));
      assert seen == front + [last];
    }
  }

  lemma {:induction false} AllCounted(seen: seq<real>, v: real)
    requires forall i :: 0 <= i < |seen| ==> seen[i] <= v
    ensures CountAtMost(seen, v) == |seen|
  {
    if seen != [] { AllCounted(seen[..|seen| - 1], v); }
  }

  /** The greatest observation below `v`. */
  lemma {:induction false} GreatestBelow(seen: seq<real>, v: real) returns (u: real)
    requires CountBelow(seen, v) > 0
    ensures u in seen && u < v && CountAtMost(seen, u) == CountBelow(seen, v)
    ensures forall i :: 0 <= i < |seen| && seen[i] < v ==> seen[i] <= u
  {
    var front, last := seen[..|seen| - 1], seen[|seen| - 1];
    assert seen == front + [last];
    if CountBelow(front, v) == 0 {
      u := last;
      NoneBelow(front, v);
      NoneAtMost(front, v, u);
    } else {
      u := GreatestBelow(front, v);
      if u < last < v {
        u := last;
        SameCounts(front, v, u);
      }
    }
  }

  lemma {:induction false} NoneBelow(seen: seq<real>, v: real)
    requires CountBelow(seen, v) == 0
    ensures forall i :: 0 <= i < |seen| ==> seen[i] >= v
  {
    if seen != [] { NoneBelow(seen[..|seen| - 1], v); }
  }

  lemma {:induction false} NoneAtMost(seen: seq<real>, v: real, u: real)
    requires u < v && forall i :: 0 <= i < |seen| ==> seen[i] >= v
    ensures CountAtMost(seen, u) == 0
  {
    if seen != [] { NoneAtMost(seen[..|seen| - 1], v, u); }
  }

  lemma {:induction false} SameCounts(seen: seq<real>, v: real, u: real)
    requires u < v && forall i :: 0 <= i < |seen| && seen[i] < v ==> seen[i] <= u
    ensures CountAtMost(seen, u) == CountBelow(seen, v)
  {
    if seen != [] { SameCounts(seen[..|seen| - 1], v, u); }
  }

  lemma {:induction false} QuantileFrom(seen: seq<real>, target: real, v: real) returns (u: real)
    requires v in seen && CountAtMost(seen, v) as real >= target > 0.0
    ensures IsQuantile(seen, target, u)
    decreases CountBelow(seen, v)
  {
    if (CountBelow(seen, v) as real) < target {
      u := v;
    } else {
      var w := GreatestBelow(seen, v);
      StrictlyFewer(seen, w);
      u := QuantileFrom(seen, target, w);
    }
  }

  lemma {:induction false} StrictlyFewer(seen: seq<real>, w: real)
    requires w in seen
    ensures CountBelow(seen, w) < CountAtMost(seen, w)
  {
    var front, last := seen[..|seen| - 1], seen[|seen| - 1];
    assert seen == front + [last];
    CountsOrder(front, w, w);
    if w in front { StrictlyFewer(front, w); }
  }

  /** For 0 < q <= 1 the exact quantile exists. */
  lemma QuantileExists(seen: seq<real>, target: real) returns (v: real)
    requires seen != [] && (forall i :: 0 <= i < |seen| ==> seen[i] >= 0.0) && 0.0 < target <= |seen| as real
    ensures IsQuantile(seen, target, v)
  {
    MaxMeans(seen);
    v := QuantileFrom(seen, target, Max(seen));
  }

  lemma {:induction false} BucketsBracket(seen: seq<real>, v: real)
    ensures UpToBucket(seen, Index(v)) >= CountAtMost(seen, v)
    ensures UpToBucket(seen, Index(v) - 1) <= CountBelow(seen, v)
  {
    if seen != [] {
      BucketsBracket(seen[..|seen| - 1], v);
      var x := seen[|seen| - 1];
      if x <= v { IndexIsMonotone(x, v); } else { IndexIsMonotone(v, x); }
    }
  }

  lemma {:induction false} UpToRises(seen: seq<real>, a: int, b: int)
    requires a <= b
    ensures UpToBucket(seen, a) <= UpToBucket(seen, b)
  {
    if seen != [] { UpToRises(seen[..|seen| - 1], a, b); }
  }

  lemma {:induction false} FirstBucketIs(seen: seq<real>, target: real, b: nat, k: nat)
    requires b <= k < BUCKETS && UpToBucket(seen, k) as real >= target && (UpToBucket(seen, k - 1) as real) < target
    ensures BucketFor(seen, target, b) == Some(k)
    decreases k - b
  {
    if b < k {
      UpToRises(seen, b, k - 1);
      FirstBucketIs(seen, target, b + 1, k);
    }
  }

  /** The walk over the buckets stops in the bucket of the exact quantile. */
  lemma StopsAtTheQuantile(seen: seq<real>, target: real, v: real)
    requires IsQuantile(seen, target, v)
    ensures BucketFor(seen, target, 0) == Some(Index(v))
  {
    BucketsBracket(seen, v);
    FirstBucketIs(seen, target, 0, Index(v));
  }

  /**
   * The reported percentile is a ceiling on the exact quantile v: never above
   * the maximum, and within ten per cent between floor and tail.
   */
  lemma PercentileIsACeiling(seen: seq<real>, q: real, v: real)
    requires seen != [] && (forall i :: 0 <= i < |seen| ==> seen[i] >= 0.0)
    requires IsQuantile(seen, Target(q, |seen|), v)
    ensures PercentileOf(seen, q).Some? && v <= PercentileOf(seen, q).value <= Max(seen)
    ensures MIN_MS < v <= Edge(BUCKETS - 2) ==> PercentileOf(seen, q).value < GROWTH * v
    ensures v <= MIN_MS ==> PercentileOf(seen, q).value <= MIN_MS
  {
    StopsAtTheQuantile(seen, Target(q, |seen|), v);
    IndexMeans(v, 0);
    MaxMeans(seen);
  }

  lemma TargetInRange(q: real, n: nat)
    requires 0.0 < q <= 1.0 && n > 0
    ensures 0.0 < Target(q, n) <= n as real
  {
    var m := n as real;
    assert q * m > 0.0 && (1.0 - q) * m >= 0.0;
  }

  /** So every percentile asked for has an exact value, and the report is a ceiling on it. */
  lemma EveryPercentileIsACeiling(seen: seq<real>, q: real) returns (v: real)
    requires seen != [] && (forall i :: 0 <= i < |seen| ==> seen[i] >= 0.0) && 0.0 < q <= 1.0
    ensures IsQuantile(seen, Target(q, |seen|), v)
    ensures v <= PercentileOf(seen, q).value <= Max(seen)
    ensures MIN_MS < v <= Edge(BUCKETS - 2) ==> PercentileOf(seen, q).value < GROWTH * v
  {
    TargetInRange(q, |seen|);
    v := QuantileExists(seen, Target(q, |seen|));
    PercentileIsACeiling(seen, q, v);
  }

  /** The counts always add up to the number of observations. */
  lemma {:induction false} EveryObservationIsCounted(seen: seq<real>)
    ensures UpToBucket(seen, BUCKETS - 1) == |seen|
  {
    if seen != [] { EveryObservationIsCounted(seen[..|seen| - 1]); }
  }

  function SumOf(counts: seq<int>, n: nat): int
    requires n <= |counts|
  {
    if n == 0 then 0 else SumOf(counts, n - 1) + counts[n - 1]
  }

  lemma {:induction false} SumIsUpTo(counts: seq<int>, seen: seq<real>, n: nat)
    requires n <= |counts| == BUCKETS && forall b :: 0 <= b < BUCKETS ==> counts[b] == InBucket(seen, b)
    ensures SumOf(counts, n) == UpToBucket(seen, n - 1)
  {
    NextBucket(seen, n);
    if n > 0 {
      SumIsUpTo(counts, seen, n - 1);
      NextBucket(seen, n - 1);
    }
  }

  lemma CountsAddUp(h: LatencyHistogram)
    requires h.Valid()
    ensures SumOf(h.counts[..], BUCKETS) == h.count
  {
    SumIsUpTo(h.counts[..], h.seen, BUCKETS);
    EveryObservationIsCounted(h.seen);
  }
}
