/** Fetching statistics for the identifier list five identifiers at a time. */
module Chunking {
  import opened Types

  /** The statistics service takes at most this many identifiers per request. */
  const ChunkSize: nat := 5

  /** `min` on Go ints. */
  function Min(x: int, y: int): (r: int)
    ensures r <= x && r <= y
    ensures r == x || r == y
  {
    if x < y then x else y
  }

  /** The chunks the loop peels off: `min(5, len(keys))` identifiers at a time. */
  function Chunks(keys: seq<string>): seq<seq<string>>
    decreases |keys|
  {
    if |keys| == 0 then []
    else
      var what := Min(ChunkSize, |keys|);
      [keys[..what]] + Chunks(keys[what..])
  }

  function Flatten<T>(xss: seq<seq<T>>): seq<T> {
    if xss == [] then [] else xss[0] + Flatten(xss[1..])
  }

  /** There are ceil(N/5) chunks, and chunk i is keys[5i..min(5i+5, N)]. */
  lemma {:induction false} ChunkAt(keys: seq<string>)
    ensures |Chunks(keys)| == (|keys| + ChunkSize - 1) / ChunkSize
    ensures forall i :: 0 <= i < |Chunks(keys)| ==>
      5 * i < |keys| && Chunks(keys)[i] == keys[5 * i .. Min(5 * i + 5, |keys|)]
    decreases |keys|
  {
    if |keys| > 0 {
      var what := Min(ChunkSize, |keys|);
      var rest := keys[what..];
      ChunkAt(rest);
      var cs := Chunks(keys);
      assert cs == [keys[..what]] + Chunks(rest);
      forall i | 0 <= i < |cs|
        ensures 5 * i < |keys| && cs[i] == keys[5 * i .. Min(5 * i + 5, |keys|)]
      {
        if i > 0 {
          assert what == 5;
          assert cs[i] == Chunks(rest)[i - 1];
          assert rest[5 * (i - 1) .. Min(5 * (i - 1) + 5, |rest|)] == keys[5 * i .. Min(5 * i + 5, |keys|)];
        }
      }
    }
  }

  /** Every chunk holds min(5, N - 5i) identifiers: between one and five. */
  lemma ChunkSizes(keys: seq<string>)
    ensures forall i :: 0 <= i < |Chunks(keys)| ==>
      |Chunks(keys)[i]| == Min(ChunkSize, |keys| - 5 * i) && 1 <= |Chunks(keys)[i]| <= ChunkSize
  {
    ChunkAt(keys);
  }

  /** Concatenating the chunks in order gives back the key list. */
  lemma {:induction false} ChunksConcatenate(keys: seq<string>)
    ensures Flatten(Chunks(keys)) == keys
    decreases |keys|
  {
    if |keys| > 0 {
      var what := Min(ChunkSize, |keys|);
      ChunksConcatenate(keys[what..]);
      assert Chunks(keys)[1..] == Chunks(keys[what..]);
      assert keys[..what] + keys[what..] == keys;
    }
  }

  /**
   * The results of fetching the chunks one by one, concatenated in chunk order;
   * `None` as soon as one request fails (the program panics there).
   */
  function FetchAll(chunks: seq<seq<string>>, fetch: seq<string> -> Option<seq<Channel>>): Option<seq<Channel>> {
    if chunks == [] then Some([])
    else
      match FetchAll(chunks[..|chunks| - 1], fetch)
      case None => None
      case Some(before) =>
        match fetch(chunks[|chunks| - 1])
        case None => None
        case Some(got) => Some(before + got)
  }

  lemma {:induction false} FetchAllFailureIsFinal(chunks: seq<seq<string>>, k: nat,
                                                  fetch: seq<string> -> Option<seq<Channel>>)
    requires k <= |chunks|
    requires FetchAll(chunks[..k], fetch).None?
    ensures FetchAll(chunks, fetch).None?
    decreases |chunks| - k
  {
    if k < |chunks| {
      assert chunks[..k + 1][..k] == chunks[..k];
      FetchAllFailureIsFinal(chunks, k + 1, fetch);
    } else {
      assert chunks[..k] == chunks;
    }
  }

  /** When every request succeeds, the result is each chunk's channels, in chunk order. */
  lemma {:induction false} FetchAllInOrder(chunks: seq<seq<string>>, fetch: seq<string> -> Option<seq<Channel>>)
    requires forall i :: 0 <= i < |chunks| ==> fetch(chunks[i]).Some?
    ensures FetchAll(chunks, fetch) == Some(Flatten(seq(|chunks|, i requires 0 <= i < |chunks| => fetch(chunks[i]).value)))
    decreases |chunks|
  {
    if chunks != [] {
      var n := |chunks|;
      var init := chunks[..n - 1];
      FetchAllInOrder(init, fetch);
      var parts := seq(n, i requires 0 <= i < n => fetch(chunks[i]).value);
      var initParts := seq(n - 1, i requires 0 <= i < n - 1 => fetch(init[i]).value);
      assert initParts == parts[..n - 1];
      FlattenSnoc(parts);
    }
  }

  lemma {:induction false} FlattenSnoc<T>(xss: seq<seq<T>>)
    requires xss != []
    ensures Flatten(xss) == Flatten(xss[..|xss| - 1]) + xss[|xss| - 1]
    decreases |xss|
  {
    if |xss| > 1 {
      FlattenSnoc(xss[1..]);
      assert xss[1..][..|xss[1..]| - 1] == xss[..|xss| - 1][1..];
    }
  }

  /**
   * The request loop of `downloadStats`: while keys remain, take `min(5, len(keys))`
   * of them, fetch their channels and append them. A failed request aborts the run.
   * `calls` counts the requests made.
   */
  method FetchInChunks(keys: seq<string>, fetch: seq<string> -> Option<seq<Channel>>)
    returns (stats: Option<seq<Channel>>, calls: nat)
    ensures stats == FetchAll(Chunks(keys), fetch)
    ensures 1 <= calls || keys == []
    ensures calls <= |Chunks(keys)|
    ensures stats.Some? ==> calls == |Chunks(keys)|
  {
    var rest := keys;
    var acc: seq<Channel> := [];
    calls := 0;
    while |rest| > 0
      invariant calls <= |Chunks(keys)|
      invariant Chunks(rest) == Chunks(keys)[calls..]
      invariant FetchAll(Chunks(keys)[..calls], fetch) == Some(acc)
      invariant 1 <= calls || rest == keys
      decreases |rest|
    {
      var what := Min(ChunkSize, |rest|);
      var x;
      x, rest := rest[..what], rest[what..];
      ghost var done := Chunks(keys)[..calls + 1];
      assert done[..calls] == Chunks(keys)[..calls];
      assert done[calls] == x;
      var got := fetch(x);
      calls := calls + 1;
      if got.None? {
        FetchAllFailureIsFinal(Chunks(keys), calls, fetch);
        stats := None;
        return;
      }
      acc := acc + got.value;
    }
    assert Chunks(keys)[..calls] == Chunks(keys);
    stats := Some(acc);
  }
}
