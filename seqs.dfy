/** Facts about duplicate-free sequences, used where `main.go` relies on uniqueness. */
module Seqs {

  predicate Distinct<T(==)>(s: seq<T>) {
    forall i, j :: 0 <= i < j < |s| ==> s[i] != s[j]
  }

  function Elems<T(==)>(s: seq<T>): set<T> {
    set x | x in s
  }

  /** Appending an element not yet present keeps a sequence duplicate-free. */
  lemma DistinctSnoc<T>(s: seq<T>, x: T)
    requires Distinct(s) && x !in Elems(s)
    ensures Distinct(s + [x]) && Elems(s + [x]) == Elems(s) + {x}
  {
    var l := s + [x];
    forall i, j | 0 <= i < j < |l| ensures l[i] != l[j] {
      assert l[i] == s[i];
      if j < |s| {
        assert l[j] == s[j];
      } else {
        assert s[i] in s;
      }
    }
  }

  lemma {:induction false} DistinctCardinality<T>(s: seq<T>)
    requires Distinct(s)
    ensures |Elems(s)| == |s|
    ensures multiset(s) == multiset(Elems(s))
    decreases |s|
  {
    if s != [] {
      var init, x := s[..|s| - 1], s[|s| - 1];
      assert s == init + [x];
      DistinctCardinality(init);
      assert Elems(s) == Elems(init) + {x};
      assert x !in Elems(init);
    }
  }

  /** Two duplicate-free sequences of the same length, one inside the other, are permutations. */
  lemma DistinctSubsetSameSize<T>(s: seq<T>, t: seq<T>)
    requires Distinct(s) && Distinct(t)
    requires forall i :: 0 <= i < |s| ==> s[i] in t
    requires |s| == |t|
    ensures multiset(s) == multiset(t)
  {
    DistinctCardinality(s);
    DistinctCardinality(t);
    assert Elems(s) <= Elems(t);
    assert |Elems(t) - Elems(s)| == |Elems(t)| - |Elems(s)| == 0;
    assert Elems(s) == Elems(t);
  }
}
