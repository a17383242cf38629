/** Durations counted in fixed buckets, and the percentiles read back from them. Durations are
    nanoseconds; the writer is alone. */
module DurationHistogram {

  const MILLISECOND := 1_000_000

  const BOUND_COUNT: nat := 13

  /** The bucket bounds. */
  function Bound(k: nat): int
    requires k < BOUND_COUNT
  {
    MILLISECOND * match k
                  case 0 => 1
                  case 1 => 2
                  case 2 => 5
                  case 3 => 10
                  case 4 => 15
                  case 5 => 17
                  case 6 => 20
                  case 7 => 25
                  case 8 => 33
                  case 9 => 50
                  case 10 => 100
                  case 11 => 250
                  case _ => 1000
  }

  const TWO_TO_THE_64 := 0x1_0000_0000_0000_0000

  lemma BoundsAscend(i: nat, j: nat)
    requires i < j < BOUND_COUNT
    ensures 0 < Bound(i) < Bound(j)
  {
  }

  /** The bucket of a duration: the first whose bound it does not exceed, or the overflow bucket. */
  predicate IsBucket(value: int, index: nat) {
    && index <= BOUND_COUNT
    && (index < BOUND_COUNT ==> value <= Bound(index))
    && (index > 0 ==> Bound(index - 1) < value)
  }

  lemma BucketIsUnique(value: int, i: nat, j: nat)
    requires IsBucket(value, i) && IsBucket(value, j)
    ensures i == j
  {
    if i < j {
      if i < j - 1 { BoundsAscend(i, j - 1); }
    } else if j < i {
      if j < i - 1 { BoundsAscend(j, i - 1); }
    }
  }

  // ----- what was observed

  /** How many observations fall in a bucket. */
  function InBucket(observed: seq<int>, index: nat): nat {
    if observed == [] then 0
    else InBucket(observed[..|observed| - 1], index) + if IsBucket(observed[|observed| - 1], index) then 1 else 0
  }

  /** How many observations are at most `bound`. */
  function Covered(observed: seq<int>, bound: int): nat {
    if observed == [] then 0
    else Covered(observed[..|observed| - 1], bound) + if observed[|observed| - 1] <= bound then 1 else 0
  }

  function Largest(observed: seq<int>): int {
    if observed == [] then 0
    else
      var rest := Largest(observed[..|observed| - 1]);
      if observed[|observed| - 1] > rest then observed[|observed| - 1] else rest
  }

  function Total(observed: seq<int>): int {
    if observed == [] then 0 else Total(observed[..|observed| - 1]) + observed[|observed| - 1]
  }

  /** How many observations fall in the first n buckets. */
  function InFirst(observed: seq<int>, n: nat): nat {
    if n == 0 then 0 else InFirst(observed, n - 1) + InBucket(observed, n - 1)
  }

  lemma InBucketStep(observed: seq<int>, value: int, index: nat, i: nat)
    requires IsBucket(value, index)
    ensures InBucket(observed + [value], i) == InBucket(observed, i) + if i == index then 1 else 0
  {
    assert (observed + [value])[..|observed|] == observed;
    if IsBucket(value, i) { BucketIsUnique(value, i, index); }
  }

  lemma {:induction false} InFirstStep(observed: seq<int>, value: int, index: nat, n: nat)
    requires IsBucket(value, index)
    ensures InFirst(observed + [value], n) == InFirst(observed, n) + if index < n then 1 else 0
  {
    if n > 0 {
      InFirstStep(observed, value, index, n - 1);
      InBucketStep(observed, value, index, n - 1);
    }
  }

  function BucketOf(value: int, from: nat): (index: nat)
    requires from <= BOUND_COUNT && (from > 0 ==> Bound(from - 1) < value)
    ensures IsBucket(value, index)
    decreases BOUND_COUNT - from
  {
    if from == BOUND_COUNT || value <= Bound(from) then from else BucketOf(value, from + 1)
  }

  /** The first buckets hold exactly the observations their last bound covers; all of them together
      hold every observation. */
  lemma {:induction false} BucketsCover(observed: seq<int>, n: nat)
    requires n <= BOUND_COUNT + 1
    ensures 0 < n <= BOUND_COUNT ==> InFirst(observed, n) == Covered(observed, Bound(n - 1))
    ensures n == BOUND_COUNT + 1 ==> InFirst(observed, n) == |observed|
  {
    if observed == [] {
      NothingObserved(n);
    } else {
      var rest, value := observed[..|observed| - 1], observed[|observed| - 1];
      BucketsCover(rest, n);
      var index := BucketOf(value, 0);
      InFirstStep(rest, value, index, n);
      assert rest + [value] == observed;
      if 0 < n <= BOUND_COUNT {
        if index < n - 1 { BoundsAscend(index, n - 1); }
        if n < index { BoundsAscend(n - 1, index - 1); }
      }
    }
  }

  lemma {:induction false} NothingObserved(n: nat)
    ensures InFirst([], n) == 0
  {
    if n > 0 { NothingObserved(n - 1); }
  }

  lemma {:induction false} LargestCoversAll(observed: seq<int>, bound: int)
    requires bound >= Largest(observed)
    ensures Covered(observed, bound) == |observed|
  {
    if observed != [] { LargestCoversAll(observed[..|observed| - 1], bound); }
  }

  /** The least bucket bound covering `target` observations, or the maximum when none does. */
  ghost predicate IsUpperBound(observed: seq<int>, target: nat, bound: int) {
    if exists k :: 0 <= k < BOUND_COUNT && Covered(observed, Bound(k)) >= target then
      exists k :: 0 <= k < BOUND_COUNT && bound == Bound(k) && Covered(observed, Bound(k)) >= target
                  && forall j :: 0 <= j < k ==> Covered(observed, Bound(j)) < target
    else
      bound == Largest(observed)
  }

  /** Either way the bound covers the target. */
  lemma UpperBoundCovers(observed: seq<int>, target: nat, bound: int)
    requires IsUpperBound(observed, target, bound) && target <= |observed|
    ensures Covered(observed, bound) >= target
  {
    LargestCoversAll(observed, Largest(observed));
  }

  /** A higher percentile never reads lower. */
  lemma PercentilesInOrder(observed: seq<int>, low: nat, high: nat, lowBound: int, highBound: int)
    requires low <= high <= |observed| && IsUpperBound(observed, low, lowBound)
             && IsUpperBound(observed, high, highBound)
    ensures lowBound <= highBound
  {
    if k :| 0 <= k < BOUND_COUNT && Covered(observed, Bound(k)) >= high {
      var j :| 0 <= j < BOUND_COUNT && highBound == Bound(j) && Covered(observed, Bound(j)) >= high;
      var i :| 0 <= i < BOUND_COUNT && lowBound == Bound(i) && forall h :: 0 <= h < i ==>
          Covered(observed, Bound(h)) < low;
      if i < j { BoundsAscend(i, j); }
    } else if k :| 0 <= k < BOUND_COUNT && Covered(observed, Bound(k)) >= low {
      var last := BOUND_COUNT - 1;
      assert Covered(observed, Bound(last)) < high;
      if Bound(last) >= Largest(observed) { LargestCoversAll(observed, Bound(last)); }
      var i :| 0 <= i < BOUND_COUNT && lowBound == Bound(i);
      if i < last { BoundsAscend(i, last); }
    }
  }

  function Milliseconds(duration: int): real { duration as real / 1000000.0 }

  datatype DurationSummary = DurationSummary(count: nat, mean: real, maximum: real, p95: real, p99: real)

  class Histogram {
    var count: nat
    var sum: nat
    var maximum: int
    const buckets: array<nat>

    ghost var observed: seq<int>

    constructor ()
      ensures Valid() && observed == [] && fresh(buckets)
    {
      count, sum, maximum := 0, 0, 0;
      buckets := new nat[BOUND_COUNT + 1](_ => 0);
      observed := [];
    }

    ghost predicate Valid()
      reads this, buckets
    {
      && buckets.Length == BOUND_COUNT + 1
      && count == |observed| && sum == Total(observed) % TWO_TO_THE_64 && maximum == Largest(observed)
      && forall i :: 0 <= i < buckets.Length ==> buckets[i] == InBucket(observed, i)
    }

    method Observe(duration: int)
      requires Valid()
      modifies this, buckets
      ensures Valid() && observed == old(observed) + [if duration < 0 then 0 else duration]
    {
      var value := if duration < 0 then 0 else duration;
      ghost var before := observed;
      assert (before + [value])[..|before|] == before;
      count := count + 1;
      sum := (sum + value) % TWO_TO_THE_64;
      if value > maximum {
        maximum := value;
      }
      var index := FindBucket(value);
      buckets[index] := buckets[index] + 1;
      observed := observed + [value];
      forall i | 0 <= i < buckets.Length
        ensures buckets[i] == InBucket(observed, i)
      {
        InBucketStep(before, value, index, i);
      }
    }

    /** The first bound the value does not exceed. */
    static method FindBucket(value: int) returns (index: nat)
      ensures IsBucket(value, index)
    {
      for candidate := 0 to BOUND_COUNT
        invariant candidate > 0 ==> Bound(candidate - 1) < value
      {
        if value <= Bound(candidate) {
          return candidate;
        }
      }
      return BOUND_COUNT;
    }

    /** The running total of the buckets, up to the first bound it reaches the target at. */
    method UpperBound(target: nat) returns (bound: int)
      requires Valid()
      ensures IsUpperBound(observed, target, bound)
    {
      var cumulative := 0;
      for index := 0 to BOUND_COUNT
        invariant cumulative == InFirst(observed, index)
        invariant forall j :: 0 <= j < index ==> Covered(observed, Bound(j)) < target
      {
        cumulative := cumulative + buckets[index];
        BucketsCover(observed, index + 1);
        if cumulative >= target {
          return Bound(index);
        }
      }
      return maximum;
    }

    method Snapshot() returns (summary: DurationSummary)
      requires Valid()
      ensures summary.count == |observed| && summary.maximum == Milliseconds(Largest(observed))
      ensures |observed| > 0 ==>
                && summary.mean == (Total(observed) % TWO_TO_THE_64) as real / |observed| as real / 1000000.0
                && (exists p95 ::
                    summary.p95 == Milliseconds(p95)
                    && IsUpperBound(observed, |observed| - |observed| / 20, p95))
                && (exists p99 ::
                    summary.p99 == Milliseconds(p99)
                    && IsUpperBound(observed, |observed| - |observed| / 100, p99))
      ensures |observed| == 0 ==> summary.mean == summary.p95 == summary.p99 == 0.0
    {
      summary := DurationSummary(count, 0.0, Milliseconds(maximum), 0.0, 0.0);
      if count == 0 {
        return;
      }
      var p95 := UpperBound(count - count / 20);
      var p99 := UpperBound(count - count / 100);
      summary := summary.(mean := sum as real / count as real / 1000000.0, p95 := Milliseconds(p95),
          p99 := Milliseconds(p99));
    }
  }
}
