/** The latency histogram (`crates/usai-runtime/src/observability.rs`) and the windowed quantile
    read from two of its samples (`crates/usai-cli/src/top.rs`). Latencies are in nanoseconds. */
module Quantile {
  import opened Wrappers

  const BOUNDS := [
    500_000, 1_000_000, 2_500_000, 5_000_000, 10_000_000, 25_000_000, 50_000_000, 100_000_000,
    250_000_000, 500_000_000, 1_000_000_000, 2_500_000_000, 5_000_000_000, 10_000_000_000]

  /** Bucket bounds, in order; one more bucket has no bound. */
  type Bounds = seq<nat>

  predicate Increasing(bounds: Bounds)
  {
    forall i, j :: 0 <= i <= j < |bounds| ==> bounds[i] <= bounds[j]
  }

  lemma BoundsIncrease()
    ensures Increasing(BOUNDS) && |BOUNDS| == 14
  {
  }

  predicate AtMost(x: nat, bucket: nat, bounds: Bounds)
  {
    bucket >= |bounds| || x <= bounds[bucket]
  }

  // ---- Recording ------------------------------------------------------------

  /** `partition_point` over the bounds below a latency. */
  function BucketFrom(x: nat, i: nat, bounds: Bounds): (b: nat)
    requires i <= |bounds|
    ensures i <= b <= |bounds| && AtMost(x, b, bounds)
    ensures forall k: nat :: i <= k < b ==> !AtMost(x, k, bounds)
    decreases |bounds| - i
  {
    if AtMost(x, i, bounds) then i else BucketFrom(x, i + 1, bounds)
  }

  function Bucket(x: nat, bounds: Bounds): nat
  {
    BucketFrom(x, 0, bounds)
  }

  /** A latency is in a bucket or an earlier one exactly when it is within its bound. */
  lemma BucketIff(x: nat, i: nat, bounds: Bounds)
    requires i < |bounds| + 1 && Increasing(bounds)
    ensures Bucket(x, bounds) <= i <==> AtMost(x, i, bounds)
  {
    var b := Bucket(x, bounds);
  }

  /** How many of a history are within a bucket's bound. */
  function Within(h: seq<nat>, bucket: nat, bounds: Bounds): (n: nat)
    ensures n <= |h|
  {
    if h == [] then 0 else Within(h[..|h| - 1], bucket, bounds) + if AtMost(h[|h| - 1], bucket, bounds) then 1 else 0
  }

  /** How many of a history fell into a bucket. */
  function In(h: seq<nat>, bucket: nat, bounds: Bounds): nat
  {
    if h == [] then 0 else In(h[..|h| - 1], bucket, bounds) + if Bucket(h[|h| - 1], bounds) == bucket then 1 else 0
  }

  function Sum(buckets: seq<nat>): nat
  {
    if buckets == [] then 0 else Sum(buckets[..|buckets| - 1]) + buckets[|buckets| - 1]
  }

  ghost function InAll(h: seq<nat>, n: nat, bounds: Bounds): (s: seq<nat>)
    ensures |s| == n
  {
    seq(n, i requires 0 <= i < n => In(h, i, bounds))
  }

  /** The buckets up to one add up to what is within its bound. */
  lemma {:induction false} BucketsAddUp(h: seq<nat>, i: nat, bounds: Bounds)
    requires i < |bounds| + 1 && Increasing(bounds)
    ensures Sum(InAll(h, i + 1, bounds)) == Within(h, i, bounds)
    decreases |h|
  {
    if h == [] {
      NothingRecorded(i + 1, bounds);
    } else {
      BucketsAddUp(h[..|h| - 1], i, bounds);
      BucketIff(h[|h| - 1], i, bounds);
      OneMore(h, i + 1, bounds);
    }
  }

  lemma {:induction false} NothingRecorded(n: nat, bounds: Bounds)
    ensures Sum(InAll([], n, bounds)) == 0
  {
    if n > 0 {
      NothingRecorded(n - 1, bounds);
      assert InAll([], n, bounds)[..n - 1] == InAll([], n - 1, bounds);
    }
  }

  lemma {:induction false} OneMore(h: seq<nat>, n: nat, bounds: Bounds)
    requires h != []
    ensures Sum(InAll(h, n, bounds)) == Sum(InAll(h[..|h| - 1], n, bounds)) + if Bucket(h[|h| - 1], bounds) < n then 1 else 0
    decreases n
  {
    if n > 0 {
      OneMore(h, n - 1, bounds);
      assert InAll(h, n, bounds)[..n - 1] == InAll(h, n - 1, bounds);
      assert InAll(h[..|h| - 1], n, bounds)[..n - 1] == InAll(h[..|h| - 1], n - 1, bounds);
    }
  }

  /** What a snapshot shows of a history. */
  ghost function Cumulative(h: seq<nat>, bounds: Bounds): (s: seq<nat>)
    ensures |s| == |bounds| + 1
  {
    seq(|bounds| + 1, i requires 0 <= i < |bounds| + 1 => Within(h, i, bounds))
  }

  /** Each latency in whole microseconds, added up. */
  function Micros(h: seq<nat>): nat
  {
    if h == [] then 0 else Micros(h[..|h| - 1]) + h[|h| - 1] / 1_000
  }

  class HttpStats {
    const bounds: Bounds
    const buckets: array<nat>
    var sumUs: nat
    ghost var history: seq<nat>

    ghost predicate Valid()
      reads this, buckets
    {
      && Increasing(bounds) && buckets.Length == |bounds| + 1 && buckets[..] == InAll(history, |bounds| + 1, bounds)
      && sumUs == Micros(history)
    }

    constructor ()
      ensures Valid() && history == [] && bounds == BOUNDS && fresh(buckets)
    {
      bounds := BOUNDS;
      buckets := new nat[15](_ => 0);
      sumUs := 0;
      history := [];
      new;
      BoundsIncrease();
      assert buckets[..] == InAll([], |bounds| + 1, bounds);
    }

    method Record(latency: nat)
      requires Valid()
      modifies this, buckets
      ensures Valid() && history == old(history) + [latency]
    {
      var index := Bucket(latency, bounds);
      buckets[index] := buckets[index] + 1;
      sumUs := sumUs + latency / 1_000;
      history := history + [latency];
      assert history[..|history| - 1] == old(history);
      assert forall i :: 0 <= i < |bounds| + 1 ==> buckets[i] == In(history, i, bounds);
    }

    method Snapshot() returns (cumulative: seq<nat>, us: nat)
      requires Valid()
      ensures cumulative == Cumulative(history, bounds) && us == Micros(history)
    {
      cumulative, us := [], sumUs;
      var total: nat := 0;
      for i := 0 to |bounds| + 1
        invariant total == Sum(buckets[..i])
        invariant |cumulative| == i && forall k :: 0 <= k < i ==> cumulative[k] == Within(history, k, bounds)
      {
        assert buckets[..i + 1][..i] == buckets[..i];
        total := total + buckets[i];
        assert buckets[..i + 1] == InAll(history, i + 1, bounds);
        BucketsAddUp(history, i, bounds);
        cumulative := cumulative + [total];
      }
    }
  }

  // ---- The quantile of a window -----------------------------------------------

  function Minus(a: nat, b: nat): nat
  {
    if a < b then 0 else a - b
  }

  /** `at`: a missing count is zero. */
  function CountAt(counts: seq<nat>, i: nat): nat
  {
    if i < |counts| then counts[i] else 0
  }

  /** `ceil(total * q)` for q = num/den. */
  function Want(total: nat, num: nat, den: nat): nat
    requires den > 0
  {
    (total * num + den - 1) / den
  }

  /** How much a bucket's count grew. */
  function Growth(before: seq<nat>, now: seq<nat>, i: nat): nat
  {
    Minus(CountAt(now, i), CountAt(before, i))
  }

  /** The first bucket from `i` on whose growth covers the quantile. */
  function FirstCovering(before: seq<nat>, now: seq<nat>, want: nat, i: nat): (r: Option<nat>)
    ensures r.Some? ==> i <= r.value < |now| && Growth(before, now, r.value) >= want
    ensures forall k: nat :: i <= k < (if r.Some? then r.value else |now|) ==> Growth(before, now, k) < want
    decreases |now| - i
  {
    if i >= |now| then None
    else if Growth(before, now, i) >= want then Some(i)
    else FirstCovering(before, now, want, i + 1)
  }

  function Reported(before: seq<nat>, now: seq<nat>, num: nat, den: nat): Option<nat>
    requires den > 0
  {
    if now == [] || Growth(before, now, |now| - 1) == 0 then None
    else FirstCovering(before, now, Want(Growth(before, now, |now| - 1), num, den), 0)
  }

  /** The rank asked for is the least that makes up the share num/den of the total. */
  lemma WantLeast(total: nat, num: nat, den: nat, n: nat)
    requires den > 0
    ensures Want(total, num, den) <= n <==> n * den >= total * num
  {
    var x, q := total * num, Want(total, num, den);
    assert q * den <= x + den - 1 < q * den + den;
    if q <= n {
      assert q * den <= n * den;
    } else {
      assert (n + 1) * den <= q * den;
    }
  }

  /** Growth in a bucket that makes up the share of the total growth. */
  predicate Covers(before: seq<nat>, now: seq<nat>, num: nat, den: nat, i: nat)
    requires i < |now|
  {
    Growth(before, now, i) * den >= Growth(before, now, |now| - 1) * num
  }

  /** A bucket is reported exactly when the window is not empty and it is the first to make up the share. */
  lemma ReportedIff(before: seq<nat>, now: seq<nat>, num: nat, den: nat, i: nat)
    requires den > 0
    ensures Reported(before, now, num, den) == Some(i) <==>
            && i < |now| && Growth(before, now, |now| - 1) > 0 && Covers(before, now, num, den, i)
            && forall k: nat :: k < i ==> !Covers(before, now, num, den, k)
  {
    if now != [] {
      var total := Growth(before, now, |now| - 1);
      forall k: nat | k < |now|
        ensures Growth(before, now, k) >= Want(total, num, den) <==> Covers(before, now, num, den, k)
      {
        WantLeast(total, num, den, Growth(before, now, k));
      }
    }
  }

  /** `window_quantile`: bucket by bucket. */
  method WindowQuantile(before: seq<nat>, now: seq<nat>, num: nat, den: nat) returns (r: Option<nat>)
    requires den > 0
    ensures r == Reported(before, now, num, den)
  {
    if now == [] {
      return None;
    }
    var total := Growth(before, now, |now| - 1);
    if total == 0 {
      return None;
    }
    var want := Want(total, num, den);
    for i := 0 to |now|
      invariant FirstCovering(before, now, want, i) == FirstCovering(before, now, want, 0)
    {
      if Growth(before, now, i) >= want {
        return Some(i);
      }
    }
    return None;
  }

  // ---- Sort and pick ------------------------------------------------------------

  predicate Sorted(s: seq<nat>)
  {
    forall i, j :: 0 <= i <= j < |s| ==> s[i] <= s[j]
  }

  function Insert(s: seq<nat>, x: nat): (r: seq<nat>)
    ensures |r| == |s| + 1
  {
    if s == [] then [x]
    else
      var last := |s| - 1;
      if s[last] <= x then s + [x] else Insert(s[..last], x) + [s[last]]
  }

  function Sort(h: seq<nat>): (s: seq<nat>)
    ensures |s| == |h|
  {
    if h == [] then [] else Insert(Sort(h[..|h| - 1]), h[|h| - 1])
  }

  lemma {:induction false} InsertAtMost(s: seq<nat>, x: nat, max: nat)
    requires x <= max && forall i :: 0 <= i < |s| ==> s[i] <= max
    ensures forall i :: 0 <= i < |Insert(s, x)| ==> Insert(s, x)[i] <= max
    decreases |s|
  {
    if s != [] && s[|s| - 1] > x {
      InsertAtMost(s[..|s| - 1], x, max);
    }
  }

  lemma {:induction false} InsertSorted(s: seq<nat>, x: nat)
    requires Sorted(s)
    ensures Sorted(Insert(s, x))
    decreases |s|
  {
    if s != [] && s[|s| - 1] > x {
      var rest, last := s[..|s| - 1], s[|s| - 1];
      InsertSorted(rest, x);
      InsertAtMost(rest, x, last);
    }
  }

  lemma {:induction false} InsertKeeps(s: seq<nat>, x: nat)
    ensures multiset(Insert(s, x)) == multiset(s) + multiset{x}
    decreases |s|
  {
    if s != [] && s[|s| - 1] > x {
      InsertKeeps(s[..|s| - 1], x);
      assert s == s[..|s| - 1] + [s[|s| - 1]];
    }
  }

  /** Sorting gives the same latencies in order. */
  lemma {:induction false} SortSorted(h: seq<nat>)
    ensures Sorted(Sort(h)) && multiset(Sort(h)) == multiset(h)
    decreases |h|
  {
    if h != [] {
      InsertKeeps(Sort(h[..|h| - 1]), h[|h| - 1]);
      assert h == h[..|h| - 1] + [h[|h| - 1]];
      SortSorted(h[..|h| - 1]);
      InsertSorted(Sort(h[..|h| - 1]), h[|h| - 1]);
    }
  }

  lemma {:induction false} InsertWithin(s: seq<nat>, x: nat, bucket: nat, bounds: Bounds)
    ensures Within(Insert(s, x), bucket, bounds) == Within(s, bucket, bounds) + if AtMost(x, bucket, bounds) then 1 else 0
    decreases |s|
  {
    var r := Insert(s, x);
    if s == [] || s[|s| - 1] <= x {
      assert r[..|r| - 1] == s;
    } else {
      InsertWithin(s[..|s| - 1], x, bucket, bounds);
      assert r[..|r| - 1] == Insert(s[..|s| - 1], x);
    }
  }

  lemma {:induction false} SortWithin(h: seq<nat>, bucket: nat, bounds: Bounds)
    ensures Within(Sort(h), bucket, bounds) == Within(h, bucket, bounds)
    decreases |h|
  {
    if h != [] {
      SortWithin(h[..|h| - 1], bucket, bounds);
      InsertWithin(Sort(h[..|h| - 1]), h[|h| - 1], bucket, bounds);
    }
  }

  /** In sorted order, the k-th is within a bound exactly when k of them are. */
  lemma {:induction false} PickIff(s: seq<nat>, k: nat, bucket: nat, bounds: Bounds)
    requires Sorted(s) && 0 < k <= |s|
    ensures AtMost(s[k - 1], bucket, bounds) <==> Within(s, bucket, bounds) >= k
    decreases |s|
  {
    var last := |s| - 1;
    if k <= last {
      PickIff(s[..last], k, bucket, bounds);
    } else if AtMost(s[last], bucket, bounds) {
      AllWithin(s, bucket, bounds);
    }
  }

  lemma {:induction false} AllWithin(s: seq<nat>, bucket: nat, bounds: Bounds)
    requires Sorted(s) && s != [] && AtMost(s[|s| - 1], bucket, bounds)
    ensures Within(s, bucket, bounds) == |s|
    decreases |s|
  {
    if |s| > 1 {
      assert AtMost(s[|s| - 2], bucket, bounds);
      AllWithin(s[..|s| - 1], bucket, bounds);
    }
  }

  lemma {:induction false} WindowWithin(h: seq<nat>, window: seq<nat>, bucket: nat, bounds: Bounds)
    ensures Within(h + window, bucket, bounds) == Within(h, bucket, bounds) + Within(window, bucket, bounds)
    decreases |window|
  {
    if window == [] {
      assert h + window == h;
    } else {
      WindowWithin(h, window[..|window| - 1], bucket, bounds);
      assert (h + window)[..|h + window| - 1] == h + window[..|window| - 1];
    }
  }

  lemma {:induction false} AllInLast(h: seq<nat>, bounds: Bounds)
    ensures Within(h, |bounds|, bounds) == |h|
    decreases |h|
  {
    if h != [] {
      AllInLast(h[..|h| - 1], bounds);
    }
  }

  /** A rank k is the quantile's: k of the total make up the share num/den, and k - 1 do not. */
  predicate IsRank(total: nat, num: nat, den: nat, k: nat)
  {
    (k - 1) * den < total * num <= k * den
  }

  lemma RankIsWant(total: nat, num: nat, den: nat, k: nat)
    requires 0 < num <= den && total > 0 && IsRank(total, num, den, k)
    ensures 0 < k <= total && Want(total, num, den) == k
  {
    assert 0 < total * num <= total * den;
    WantLeast(total, num, den, k);
    assert k > total ==> total * den <= (k - 1) * den;
    if k > 0 {
      WantLeast(total, num, den, k - 1);
    }
  }

  /** And every non-empty window has such a rank. */
  lemma RankExists(total: nat, num: nat, den: nat) returns (k: nat)
    requires 0 < num <= den && total > 0
    ensures IsRank(total, num, den, k)
  {
    k := Want(total, num, den);
    WantLeast(total, num, den, k);
    assert total * num > 0;
    if k > 0 {
      WantLeast(total, num, den, k - 1);
    }
  }

  /** Between two samples of one process, a bucket grew by what the window holds within its bound. */
  lemma GrowthIs(h: seq<nat>, window: seq<nat>, k: nat, bounds: Bounds)
    requires k < |bounds| + 1
    ensures Growth(Cumulative(h, bounds), Cumulative(h + window, bounds), k) == Within(window, k, bounds)
  {
    WindowWithin(h, window, k, bounds);
  }

  /** Sorting the window and picking the quantile's rank gives a latency above the previous bound and
      within the reported one, and there is always one reported. */
  lemma QuantileRefines(h: seq<nat>, window: seq<nat>, num: nat, den: nat, k: nat, bounds: Bounds)
    requires window != [] && 0 < num <= den && IsRank(|window|, num, den, k)
    ensures var r := Reported(Cumulative(h, bounds), Cumulative(h + window, bounds), num, den);
            && r.Some? && r.value < |bounds| + 1 && 0 < k <= |window|
            && var quantile := Sort(window)[k - 1];
            AtMost(quantile, r.value, bounds) && (r.value > 0 ==> !AtMost(quantile, r.value - 1, bounds))
  {
    RankIsWant(|window|, num, den, k);
    GrowsByWindow(h, window, bounds);
    QuantileWith(h, window, k, bounds);
  }

  lemma GrowsByWindow(h: seq<nat>, window: seq<nat>, bounds: Bounds)
    ensures Growth(Cumulative(h, bounds), Cumulative(h + window, bounds), |bounds|) == |window|
  {
    GrowthIs(h, window, |bounds|, bounds);
    AllInLast(window, bounds);
  }

  lemma QuantileWith(h: seq<nat>, window: seq<nat>, want: nat, bounds: Bounds)
    requires 0 < want <= |window|
    ensures var r := FirstCovering(Cumulative(h, bounds), Cumulative(h + window, bounds), want, 0);
            var quantile := Sort(window)[want - 1];
            && r.Some? && r.value <= |bounds|
            && AtMost(quantile, r.value, bounds) && (r.value > 0 ==> !AtMost(quantile, r.value - 1, bounds))
  {
    forall k: nat | k <= |bounds|
      ensures Growth(Cumulative(h, bounds), Cumulative(h + window, bounds), k) == Within(window, k, bounds)
    {
      GrowthIs(h, window, k, bounds);
    }
    Picks(window, want, bounds);
    CoveringIsRight(Cumulative(h, bounds), Cumulative(h + window, bounds), window, want, Sort(window)[want - 1], bounds);
  }

  lemma CoveringIsRight(before: seq<nat>, now: seq<nat>, window: seq<nat>, want: nat, quantile: nat, bounds: Bounds)
    requires |now| == |bounds| + 1 && want <= |window|
    requires forall k: nat :: k <= |bounds| ==> Growth(before, now, k) == Within(window, k, bounds)
    requires forall k: nat :: k <= |bounds| ==> (AtMost(quantile, k, bounds) <==> Within(window, k, bounds) >= want)
    ensures var r := FirstCovering(before, now, want, 0);
            && r.Some? && r.value <= |bounds|
            && AtMost(quantile, r.value, bounds) && (r.value > 0 ==> !AtMost(quantile, r.value - 1, bounds))
  {
    AllInLast(window, bounds);
    assert Growth(before, now, |bounds|) >= want;
  }

  lemma Picks(window: seq<nat>, want: nat, bounds: Bounds)
    requires 0 < want <= |window|
    ensures forall k: nat :: k <= |bounds| ==> (AtMost(Sort(window)[want - 1], k, bounds) <==> Within(window, k, bounds) >= want)
  {
    SortSorted(window);
    forall k: nat | k <= |bounds| ensures AtMost(Sort(window)[want - 1], k, bounds) <==> Within(window, k, bounds) >= want {
      PickIff(Sort(window), want, k, bounds);
      SortWithin(window, k, bounds);
    }
  }
}
