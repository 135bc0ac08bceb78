/**
 * `downloadStats` end to end: discover identifiers, fetch their statistics five at a
 * time, and replace every channel's daily samples by monthly averages.
 */
module Pipeline {
  import opened Types
  import opened Seqs
  import opened Discovery
  import opened Chunking
  import opened Aggregation
  import opened Sorting
  import opened Table
  import opened Report

  /** `stats` is `raw` with every channel's samples aggregated, channel by channel. */
  ghost predicate AggregatedChannels(raw: seq<Channel>, stats: seq<Channel>) {
    && |stats| == |raw|
    && forall i :: 0 <= i < |raw| ==>
         && stats[i].id == raw[i].id && stats[i].title == raw[i].title
         && IsAggregationOf(raw[i].stats, stats[i].stats)
  }

  /** The aggregation loop of `downloadStats`, which overwrites each channel's `Stats`. */
  method AggregateAll(raw: seq<Channel>) returns (stats: seq<Channel>)
    ensures AggregatedChannels(raw, stats)
  {
    stats := [];
    for i := 0 to |raw|
      invariant AggregatedChannels(raw[..i], stats)
    {
      var n := AggregateMonthly(raw[i].stats);
      stats := stats + [raw[i].(stats := n)];
    }
    assert raw[..|raw|] == raw;
  }

  /**
   * `downloadStats` with its requests replaced by inputs: `attempts` are the successive
   * results of asking the random-channel service, `fetch` answers one statistics request
   * for a chunk of identifiers (`None` when the request fails, where `main.go` panics).
   * The result is `None` when the attempts run out before the pool is complete (the
   * program would keep asking) or when a statistics request fails. The ghost results
   * expose the pool, the number of attempts consumed, the key order chosen and the
   * fetched channels.
   */
  method DownloadStats(attempts: seq<Option<seq<string>>>, fetch: seq<string> -> Option<seq<Channel>>)
    returns (r: Option<seq<Channel>>, ghost cl: set<string>, ghost calls: nat,
             ghost keys: seq<string>, ghost raw: seq<Channel>)
    ensures calls <= |attempts| && cl == Pool(ScienceTeam, attempts, calls)
    ensures forall k :: 0 <= k < calls ==> |Pool(ScienceTeam, attempts, k)| < Target
    ensures r.Some? ==> |cl| >= Target && Elems(ScienceTeam) <= cl
    ensures r.Some? ==> Elems(keys) == cl && Distinct(keys)
    ensures r.Some? ==> FetchAll(Chunks(keys), fetch) == Some(raw) && AggregatedChannels(raw, r.value)
    ensures r.None? ==>
      || (|cl| < Target && calls == |attempts|)
      || (|cl| >= Target && Elems(keys) == cl && Distinct(keys) && FetchAll(Chunks(keys), fetch).None?)
  {
    var pool, n, done := Discover(ScienceTeam, attempts);
    cl := pool;
    calls := n;
    keys := [];
    raw := [];
    if !done {
      return None, cl, calls, keys, raw;
    }
    // The panic on an empty pool cannot happen once the pool has reached its target.
    assert |pool| >= 1;
    var ks := Keys(pool);
    keys := ks;
    var fetched, requests := FetchInChunks(ks, fetch);
    if fetched.None? {
      return None, cl, calls, keys, raw;
    }
    raw := fetched.value;
    var stats := AggregateAll(fetched.value);
    r := Some(stats);
  }

  /** Distinct month numbers leave at most one sample per (month, year). */
  lemma DistinctMonthsAreUnique(n: seq<Stats>)
    requires DistinctMonths(n)
    ensures UniqueMonthYear(n)
  {
  }

  /**
   * Downloaded channels have one sample per month, so the report built from them is a
   * rectangle: every row as long as the header.
   */
  lemma DownloadedReportIsRectangular(raw: seq<Channel>, stats: seq<Channel>, team: seq<string>, now: Date)
    requires AggregatedChannels(raw, stats)
    ensures var g := ReportGrid(stats, team, now);
      forall r :: 0 <= r < |g| ==> |g[r]| == |g[0]|
  {
    forall i | 0 <= i < |stats| ensures UniqueMonthYear(stats[i].stats) {
      DistinctMonthsAreUnique(stats[i].stats);
    }
    GridIsRectangular(stats, team, now);
  }
}
