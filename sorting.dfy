/** `sort.Slice(stats, less)` with `less` = `RecordedAt.Before`: only its postcondition matters. */
module Sorting {
  import opened Types
  import opened Seqs

  /** No sample is recorded strictly before one that precedes it. */
  predicate SortedByTime(s: seq<Stats>) {
    forall i, j :: 0 <= i < j < |s| ==> !Before(s[j].recordedAt, s[i].recordedAt)
  }

  /** No sample of s is recorded before z. */
  predicate NotBeforeAll(z: Stats, s: seq<Stats>) {
    forall j :: 0 <= j < |s| ==> !Before(s[j].recordedAt, z.recordedAt)
  }

  lemma PrependSorted(z: Stats, s: seq<Stats>)
    requires SortedByTime(s) && NotBeforeAll(z, s)
    ensures SortedByTime([z] + s)
  {
  }

  /** A lower bound of every sample of s and of x bounds every rearrangement of them. */
  lemma LowerBoundOfPermutation(z: Stats, s: seq<Stats>, x: Stats, r: seq<Stats>)
    requires NotBeforeAll(z, s) && !Before(x.recordedAt, z.recordedAt)
    requires multiset(r) == multiset(s) + multiset{x}
    ensures NotBeforeAll(z, r)
  {
    forall j | 0 <= j < |r| ensures !Before(r[j].recordedAt, z.recordedAt) {
      assert r[j] in multiset(r);
      assert r[j] == x || r[j] in s;
    }
  }

  function Insert(x: Stats, s: seq<Stats>): (r: seq<Stats>)
    requires SortedByTime(s)
    ensures SortedByTime(r)
    ensures multiset(r) == multiset(s) + multiset{x}
  {
    if s == [] then [x]
    else if Before(s[0].recordedAt, x.recordedAt) then
      var tail := Insert(x, s[1..]);
      assert s == [s[0]] + s[1..];
      LowerBoundOfPermutation(s[0], s[1..], x, tail);
      PrependSorted(s[0], tail);
      [s[0]] + tail
    else
      assert NotBeforeAll(x, s) by {
        forall j | 0 <= j < |s| ensures !Before(s[j].recordedAt, x.recordedAt) {
          BeforeIsStrictTotalOrder(s[j].recordedAt, s[0].recordedAt, x.recordedAt);
        }
      }
      PrependSorted(x, s);
      [x] + s
  }

  /**
   * An ascending arrangement of the samples by recording time. `sort.Slice` is not
   * stable, so which of several samples with the same time comes first is not
   * fixed; this is one admissible order.
   */
  function SortByTime(s: seq<Stats>): (r: seq<Stats>)
    ensures SortedByTime(r)
    ensures multiset(r) == multiset(s)
  {
    if s == [] then []
    else
      assert s == [s[0]] + s[1..];
      Insert(s[0], SortByTime(s[1..]))
  }

  /** Two equal entries at different places count twice. */
  lemma RepeatedEntryCountsTwice<T>(r: seq<T>, i: nat, j: nat)
    requires i < j < |r|
    ensures r[i] == r[j] ==> multiset(r)[r[i]] >= 2
  {
    if r[i] == r[j] {
      assert r == r[..j] + r[j..];
      assert r[i] in r[..j];
      assert r[j] in r[j..];
    }
  }

  lemma DistinctUnderPermutation<T>(s: seq<T>, r: seq<T>)
    requires multiset(s) == multiset(r)
    requires Distinct(s)
    ensures Distinct(r)
  {
    DistinctCardinality(s);
    forall i, j | 0 <= i < j < |r| ensures r[i] != r[j] {
      RepeatedEntryCountsTwice(r, i, j);
    }
  }

  /** One sample per (month, year), as aggregation guarantees and as the table expects. */
  predicate UniqueMonthYear(s: seq<Stats>) {
    forall i, j :: 0 <= i < j < |s| ==>
      !(s[i].recordedAt.month == s[j].recordedAt.month && s[i].recordedAt.year == s[j].recordedAt.year)
  }

  /** Reordering samples keeps them one per (month, year). */
  lemma UniqueMonthYearUnderPermutation(s: seq<Stats>, r: seq<Stats>)
    requires multiset(s) == multiset(r)
    requires UniqueMonthYear(s)
    ensures UniqueMonthYear(r)
  {
    DistinctUnderPermutation(s, r);
    forall i, j | 0 <= i < j < |r|
      ensures !(r[i].recordedAt.month == r[j].recordedAt.month && r[i].recordedAt.year == r[j].recordedAt.year)
    {
      assert r[i] in multiset(s) && r[j] in multiset(s);
      var p :| 0 <= p < |s| && s[p] == r[i];
      var q :| 0 <= q < |s| && s[q] == r[j];
      assert p != q;
    }
  }
}
