/** Collapsing a channel's daily samples into one averaged sample per month number. */
module Aggregation {
  import opened Types

  /** Go's `/` on ints with a positive divisor: the quotient truncated toward zero. */
  function Quo(a: int, n: int): (q: int)
    requires n > 0
    ensures a >= 0 ==> 0 <= q && q * n <= a < q * n + n
    ensures a < 0 ==> q <= 0 && q * n - n < a <= q * n
  {
    if a >= 0 then DivisionBounds(a, n); a / n else DivisionBounds(-a, n); -((-a) / n)
  }

  lemma DivisionBounds(a: nat, n: int)
    requires n > 0
    ensures 0 <= a / n && (a / n) * n <= a < (a / n) * n + n
    ensures (-(a / n)) * n == -((a / n) * n)
  {
    var p := a / n;
    assert a == p * n + a % n;
  }

  /** A sample with zero views is a missing observation and is dropped. */
  predicate Kept(z: Stats) {
    z.views != 0
  }

  /** The kept samples recorded in month `k` of any year, in input order. */
  function Bucket(samples: seq<Stats>, k: Month): seq<Stats> {
    if samples == [] then []
    else
      var z := samples[|samples| - 1];
      Bucket(samples[..|samples| - 1], k) + (if Kept(z) && z.recordedAt.month == k then [z] else [])
  }

  /** The month numbers of the kept samples. */
  function MonthsOf(samples: seq<Stats>): set<Month> {
    if samples == [] then {}
    else
      var z := samples[|samples| - 1];
      MonthsOf(samples[..|samples| - 1]) + (if Kept(z) then {z.recordedAt.month} else {})
  }

  datatype Counter = Subscribers | Views | Videos

  function Get(z: Stats, c: Counter): int {
    match c
    case Subscribers => z.subscribers
    case Views => z.views
    case Videos => z.videos
  }

  function Total(b: seq<Stats>, c: Counter): int {
    if b == [] then 0 else Total(b[..|b| - 1], c) + Get(b[|b| - 1], c)
  }

  /** The sample a bucket collapses to: its first sample's time, the truncated means of the counters. */
  function Averaged(b: seq<Stats>): Stats
    requires b != []
  {
    Stats(b[0].recordedAt, Quo(Total(b, Subscribers), |b|), Quo(Total(b, Views), |b|), Quo(Total(b, Videos), |b|))
  }

  predicate DistinctMonths(n: seq<Stats>) {
    forall i, j :: 0 <= i < j < |n| ==> n[i].recordedAt.month != n[j].recordedAt.month
  }

  /**
   * `n` is an admissible result of aggregating `samples`: one sample for each month
   * number that has a kept sample, none for any other, each the average of its
   * bucket; in any order, as Go's map iteration gives no order.
   */
  ghost predicate IsAggregationOf(samples: seq<Stats>, n: seq<Stats>) {
    && (forall i :: 0 <= i < |n| ==> n[i].recordedAt.month in MonthsOf(samples))
    && (forall k :: k in MonthsOf(samples) ==> exists i :: 0 <= i < |n| && n[i].recordedAt.month == k)
    && DistinctMonths(n)
    && (forall i :: 0 <= i < |n| ==>
          Bucket(samples, n[i].recordedAt.month) != [] && n[i] == Averaged(Bucket(samples, n[i].recordedAt.month)))
  }

  lemma BucketPrefix(samples: seq<Stats>, i: nat, k: Month)
    requires i < |samples|
    ensures Bucket(samples[..i + 1], k) ==
      Bucket(samples[..i], k) + (if Kept(samples[i]) && samples[i].recordedAt.month == k then [samples[i]] else [])
    ensures MonthsOf(samples[..i + 1]) ==
      MonthsOf(samples[..i]) + (if Kept(samples[i]) then {samples[i].recordedAt.month} else {})
  {
    assert samples[..i + 1][..i] == samples[..i];
  }

  /** Every sample of a bucket is kept and belongs to the bucket's month. */
  lemma {:induction false} BucketMembers(samples: seq<Stats>, k: Month)
    ensures forall z :: z in Bucket(samples, k) ==> z in samples && Kept(z) && z.recordedAt.month == k
    decreases |samples|
  {
    if samples != [] {
      BucketMembers(samples[..|samples| - 1], k);
    }
  }

  /** A month has a non-empty bucket exactly when some kept sample falls in it. */
  lemma {:induction false} BucketNonEmpty(samples: seq<Stats>, k: Month)
    ensures Bucket(samples, k) != [] <==> k in MonthsOf(samples)
    ensures k in MonthsOf(samples) <==>
      exists i :: 0 <= i < |samples| && Kept(samples[i]) && samples[i].recordedAt.month == k
    decreases |samples|
  {
    if samples != [] {
      var init := samples[..|samples| - 1];
      BucketNonEmpty(init, k);
      if k in MonthsOf(init) {
        var i :| 0 <= i < |init| && Kept(init[i]) && init[i].recordedAt.month == k;
        assert samples[i] == init[i];
      }
      if exists i :: 0 <= i < |samples| && Kept(samples[i]) && samples[i].recordedAt.month == k {
        var i :| 0 <= i < |samples| && Kept(samples[i]) && samples[i].recordedAt.month == k;
        if i < |init| {
          assert init[i] == samples[i];
        }
      }
    }
  }

  /** A bucket's first sample is the first kept sample of that month in input order. */
  lemma {:induction false} BucketHead(samples: seq<Stats>, k: Month)
    requires Bucket(samples, k) != []
    ensures exists i :: (
      && 0 <= i < |samples| && samples[i] == Bucket(samples, k)[0]
      && Kept(samples[i]) && samples[i].recordedAt.month == k
      && forall j :: 0 <= j < i ==> !(Kept(samples[j]) && samples[j].recordedAt.month == k))
    decreases |samples|
  {
    var init := samples[..|samples| - 1];
    var z := samples[|samples| - 1];
    if Bucket(init, k) != [] {
      BucketHead(init, k);
      var i :| 0 <= i < |init| && init[i] == Bucket(init, k)[0] &&
        Kept(init[i]) && init[i].recordedAt.month == k &&
        forall j :: 0 <= j < i ==> !(Kept(init[j]) && init[j].recordedAt.month == k);
      assert samples[i] == init[i];
      assert forall j :: 0 <= j < i ==> samples[j] == init[j];
    } else {
      BucketNonEmpty(init, k);
      assert forall j :: 0 <= j < |init| ==> samples[j] == init[j];
      assert Bucket(samples, k) == [z];
    }
  }

  /** `Averaged` keeps the time of the bucket's first sample, so its month too. */
  lemma AveragedMonth(samples: seq<Stats>, k: Month)
    requires Bucket(samples, k) != []
    ensures Averaged(Bucket(samples, k)).recordedAt.month == k
  {
    BucketMembers(samples, k);
    assert Bucket(samples, k)[0] in Bucket(samples, k);
  }

  /** First half of the aggregation loop: `m[month] = append(m[month], z)` for every kept sample. */
  method GroupByMonth(samples: seq<Stats>) returns (m: map<Month, seq<Stats>>)
    ensures m.Keys == MonthsOf(samples)
    ensures forall k :: k in m ==> m[k] == Bucket(samples, k)
  {
    m := map[];
    for i := 0 to |samples|
      invariant m.Keys == MonthsOf(samples[..i])
      invariant forall k :: k in m ==> m[k] == Bucket(samples[..i], k)
    {
      var z := samples[i];
      forall k: Month ensures
        Bucket(samples[..i + 1], k) ==
          Bucket(samples[..i], k) + (if Kept(samples[i]) && samples[i].recordedAt.month == k then [samples[i]] else [])
      {
        BucketPrefix(samples, i, k);
      }
      BucketPrefix(samples, i, 1);
      if z.views != 0 {
        var k := z.recordedAt.month;
        BucketNonEmpty(samples[..i], k);
        m := m[k := (if k in m then m[k] else []) + [z]];
      }
    }
    assert samples[..|samples|] == samples;
  }

  /** The running sums `subsc`, `views` and `vids` over one bucket. */
  method SumCounters(v: seq<Stats>) returns (subsc: int, views: int, vids: int)
    ensures subsc == Total(v, Subscribers) && views == Total(v, Views) && vids == Total(v, Videos)
  {
    subsc, views, vids := 0, 0, 0;
    for j := 0 to |v|
      invariant subsc == Total(v[..j], Subscribers)
      invariant views == Total(v[..j], Views)
      invariant vids == Total(v[..j], Videos)
    {
      assert v[..j + 1][..j] == v[..j];
      subsc := subsc + v[j].subscribers;
      views := views + v[j].views;
      vids := vids + v[j].videos;
    }
    assert v[..|v|] == v;
  }

  /** The body of the per-bucket loop: the first sample's time and the truncated means. */
  method AverageBucket(v: seq<Stats>) returns (avg: Stats)
    requires v != []
    ensures avg == Averaged(v)
  {
    var vl := |v|;
    var at := v[0].recordedAt;
    var subsc, views, vids := SumCounters(v);
    avg := Stats(at, Quo(subsc, vl), Quo(views, vl), Quo(vids, vl));
  }

  /**
   * Second half of the aggregation loop: one averaged sample per non-empty entry
   * of the month map, taking the entries in an unspecified order. Each entry holds
   * samples of its own month only.
   */
  method EmitAverages(m: map<Month, seq<Stats>>) returns (n: seq<Stats>)
    requires forall k, z :: k in m && z in m[k] ==> z.recordedAt.month == k
    ensures forall i :: 0 <= i < |n| ==>
      var k := n[i].recordedAt.month; k in m && m[k] != [] && n[i] == Averaged(m[k])
    ensures forall k :: k in m && m[k] != [] ==> exists i :: 0 <= i < |n| && n[i].recordedAt.month == k
    ensures DistinctMonths(n)
  {
    n := [];
    var rest := m.Keys;
    ghost var at: map<Month, nat> := map[];  // where each emitted month sits in n
    while rest != {}
      invariant rest <= m.Keys
      invariant forall i :: 0 <= i < |n| ==>
        var k := n[i].recordedAt.month; k in m && k !in rest && m[k] != [] && n[i] == Averaged(m[k])
      invariant forall k :: k in m && k !in rest && m[k] != [] ==>
        k in at && at[k] < |n| && n[at[k]].recordedAt.month == k
      invariant DistinctMonths(n)
      decreases |rest|
    {
      var k :| k in rest;
      var v := m[k];
      var vl := |v|;
      if vl != 0 {
        var avg := AverageBucket(v);
        assert v[0] in v;
        DistinctMonthsSnoc(n, avg);
        at := at[k := |n|];
        n := n + [avg];
      }
      rest := rest - {k};
    }
    forall k | k in m && m[k] != [] ensures exists i :: 0 <= i < |n| && n[i].recordedAt.month == k {
      assert n[at[k]].recordedAt.month == k;
    }
  }

  lemma DistinctMonthsSnoc(n: seq<Stats>, z: Stats)
    requires DistinctMonths(n)
    requires forall i :: 0 <= i < |n| ==> n[i].recordedAt.month != z.recordedAt.month
    ensures DistinctMonths(n + [z])
  {
    var l := n + [z];
    forall i, j | 0 <= i < j < |l| ensures l[i].recordedAt.month != l[j].recordedAt.month {
      assert l[i] == n[i];
      if j < |n| {
        assert l[j] == n[j];
      }
    }
  }

  /**
   * The aggregation loop of `downloadStats` for one channel: group the kept samples
   * by month number in a map, then emit one averaged sample per map entry.
   */
  method AggregateMonthly(samples: seq<Stats>) returns (n: seq<Stats>)
    ensures IsAggregationOf(samples, n)
  {
    var m := GroupByMonth(samples);
    forall k | k in m ensures Bucket(samples, k) != [] {
      BucketNonEmpty(samples, k);
    }
    forall k | k in m {
      BucketMembers(samples, k);
    }
    n := EmitAverages(m);
  }
}

module AggregationFacts {
  import opened Types
  import opened Seqs
  import opened Aggregation

  function MonthSet(n: seq<Stats>): set<Month> {
    set i | 0 <= i < |n| :: n[i].recordedAt.month
  }

  lemma {:induction false} DistinctMonthsCardinality(n: seq<Stats>)
    requires DistinctMonths(n)
    ensures |MonthSet(n)| == |n|
    decreases |n|
  {
    if n != [] {
      var init := n[..|n| - 1];
      DistinctMonthsCardinality(init);
      assert MonthSet(n) == MonthSet(init) + {n[|n| - 1].recordedAt.month};
    }
  }

  /** One output sample per distinct month among the samples with views. */
  lemma AggregationSize(samples: seq<Stats>, n: seq<Stats>)
    requires IsAggregationOf(samples, n)
    ensures |n| == |MonthsOf(samples)|
  {
    DistinctMonthsCardinality(n);
    forall k | k in MonthsOf(samples) ensures k in MonthSet(n) {
      var i :| 0 <= i < |n| && n[i].recordedAt.month == k;
    }
    assert MonthSet(n) == MonthsOf(samples);
  }

  /** The result is empty exactly when every sample has zero views. */
  lemma AggregationEmptyIffNoViews(samples: seq<Stats>, n: seq<Stats>)
    requires IsAggregationOf(samples, n)
    ensures n == [] <==> forall i :: 0 <= i < |samples| ==> samples[i].views == 0
  {
    if n == [] {
      forall i | 0 <= i < |samples| ensures samples[i].views == 0 {
        BucketNonEmpty(samples, samples[i].recordedAt.month);
      }
    } else {
      var k := n[0].recordedAt.month;
      BucketNonEmpty(samples, k);
    }
  }

  lemma {:induction false} TotalViewsAtLeastCount(b: seq<Stats>)
    requires forall z :: z in b ==> z.views >= 1
    ensures Total(b, Views) >= |b|
    decreases |b|
  {
    if b != [] {
      TotalViewsAtLeastCount(b[..|b| - 1]);
      assert b[|b| - 1] in b;
    }
  }

  lemma QuoAtLeastOne(t: int, n: int)
    requires t >= n > 0
    ensures Quo(t, n) >= 1
  {
  }

  /** With non-negative counts (as the service reports them), no output sample has zero views. */
  lemma AggregatedViewsPositive(samples: seq<Stats>, n: seq<Stats>)
    requires forall i :: 0 <= i < |samples| ==> samples[i].views >= 0
    requires IsAggregationOf(samples, n)
    ensures forall i :: 0 <= i < |n| ==> n[i].views >= 1
  {
    forall i | 0 <= i < |n| ensures n[i].views >= 1 {
      var b := Bucket(samples, n[i].recordedAt.month);
      BucketMembers(samples, n[i].recordedAt.month);
      TotalViewsAtLeastCount(b);
      QuoAtLeastOne(Total(b, Views), |b|);
    }
  }

  /** In a list with one kept sample per month, each month's bucket is that sample alone. */
  lemma {:induction false} SingletonBucket(samples: seq<Stats>, j: nat)
    requires forall i :: 0 <= i < |samples| ==> Kept(samples[i])
    requires DistinctMonths(samples)
    requires j < |samples|
    ensures Bucket(samples, samples[j].recordedAt.month) == [samples[j]]
    decreases |samples|
  {
    var init := samples[..|samples| - 1];
    var k := samples[j].recordedAt.month;
    if j == |samples| - 1 {
      forall p | 0 <= p < |init| ensures init[p].recordedAt.month != k {
        assert init[p] == samples[p];
      }
      BucketNonEmpty(init, k);
    } else {
      SingletonBucket(init, j);
      assert init[j] == samples[j];
    }
  }

  lemma AveragedSingleton(z: Stats)
    ensures Averaged([z]) == z
  {
    assert [z][..0] == [];
    assert Total([z], Subscribers) == z.subscribers;
    assert Total([z], Views) == z.views;
    assert Total([z], Videos) == z.videos;
  }

  /**
   * Aggregating a list that already holds one sample with views per month gives back
   * the same samples, in some order; hence aggregating twice is aggregating once.
   */
  lemma AggregatingAggregatedIsPermutation(samples: seq<Stats>, n: seq<Stats>)
    requires forall i :: 0 <= i < |samples| ==> Kept(samples[i])
    requires DistinctMonths(samples)
    requires IsAggregationOf(samples, n)
    ensures multiset(n) == multiset(samples)
  {
    forall i | 0 <= i < |n| ensures n[i] in samples {
      var k := n[i].recordedAt.month;
      BucketNonEmpty(samples, k);
      var j :| 0 <= j < |samples| && Kept(samples[j]) && samples[j].recordedAt.month == k;
      SingletonBucket(samples, j);
      AveragedSingleton(samples[j]);
    }
    AggregationSize(samples, n);
    forall k | k in MonthsOf(samples) ensures k in MonthSet(samples) {
      BucketNonEmpty(samples, k);
    }
    forall k | k in MonthSet(samples) ensures k in MonthsOf(samples) {
      var j :| 0 <= j < |samples| && samples[j].recordedAt.month == k;
      BucketNonEmpty(samples, k);
    }
    assert MonthsOf(samples) == MonthSet(samples);
    DistinctMonthsCardinality(samples);
    DistinctSubsetSameSize(n, samples);
  }
}
