/** Small helpers shared by the game modules. */
module Wrappers {
  /** A value that may be absent (a missing settings entry, a missing artwork URL). */
  datatype Option<+T> = None | Some(value: T)
}

module Seqs {
  /** No element occurs twice in `s`. */
  predicate Distinct<T(==)>(s: seq<T>) {
    forall i, j :: 0 <= i < j < |s| ==> s[i] != s[j]
  }

  /** Joining two sequences without repetitions and without common elements gives one without repetitions. */
  lemma DistinctConcat<T>(a: seq<T>, b: seq<T>)
    requires Distinct(a) && Distinct(b)
    requires forall x :: x in b ==> x !in a
    ensures Distinct(a + b)
  {
    forall i, j | 0 <= i < j < |a + b|
      ensures (a + b)[i] != (a + b)[j]
    {
      if j >= |a| && i < |a| {
        assert (a + b)[j] in b;
      }
    }
  }

  /** The set of elements of `s`. */
  function Elements<T>(s: seq<T>): set<T> {
    set x | x in s
  }

  /** A sequence without repetitions has as many distinct elements as it has positions. */
  lemma {:induction false} DistinctElements<T>(s: seq<T>)
    requires Distinct(s)
    ensures |Elements(s)| == |s|
  {
    if s != [] {
      DistinctElements(s[1..]);
      assert Elements(s) == Elements(s[1..]) + {s[0]};
      assert s[0] !in Elements(s[1..]);
    }
  }

  /** A subset is no larger than the set containing it. */
  lemma SubsetSize<T>(a: set<T>, b: set<T>)
    requires a <= b
    ensures |a| <= |b|
  {
    assert b == a + (b - a);
  }
}
