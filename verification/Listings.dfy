/** Sorted listings: under a strict total order a set has exactly one. */
module Listings {
  import opened Multisets
  import StableSort

  ghost predicate StrictOrder<T(!new)>(less: (T, T) -> bool) {
    && (forall x :: !less(x, x))
    && (forall x, y, z :: less(x, y) && less(y, z) ==> less(x, z))
    && (forall x, y :: x == y || less(x, y) || less(y, x))
  }

  predicate Ascending<T>(s: seq<T>, less: (T, T) -> bool) {
    forall i, j | 0 <= i < j < |s| :: less(s[i], s[j])
  }

  lemma FirstIsLeast<T(!new)>(s: seq<T>, x: T, less: (T, T) -> bool)
    requires Ascending(s, less) && x in s
    ensures s[0] == x || less(s[0], x)
  {
    var i :| 0 <= i < |s| && s[i] == x;
  }

  lemma TailMembers<T(!new)>(s: seq<T>, x: T, less: (T, T) -> bool)
    requires StrictOrder(less) && Ascending(s, less) && s != []
    ensures x in s[1..] <==> x in s && x != s[0]
  {
    if x in s && x != s[0] {
      var i :| 0 <= i < |s| && s[i] == x;
      assert s[1..][i - 1] == x;
    }
  }

  /** Two ascending sequences with the same members are the same sequence. */
  lemma {:induction false} ListingUnique<T(!new)>(a: seq<T>, b: seq<T>, less: (T, T) -> bool)
    requires StrictOrder(less) && Ascending(a, less) && Ascending(b, less)
    requires forall x :: x in a <==> x in b
    ensures a == b
  {
    assert a != [] ==> a[0] in a && a[0] in b;
    assert b != [] ==> b[0] in b && b[0] in a;
    if a == [] {
    } else {
      FirstIsLeast(a, b[0], less);
      FirstIsLeast(b, a[0], less);
      assert a[0] == b[0];
      forall x ensures x in a[1..] <==> x in b[1..] {
        TailMembers(a, x, less);
        TailMembers(b, x, less);
      }
      ListingUnique(a[1..], b[1..], less);
      assert a == [a[0]] + a[1..] && b == [b[0]] + b[1..];
    }
  }

  lemma StrictIsWeak<T(!new)>(less: (T, T) -> bool)
    requires StrictOrder(less)
    ensures StableSort.StrictWeakOrder(less)
  {
    forall x, y, z | !less(x, y) && !less(y, z) ensures !less(x, z) {
      assert y == x || less(y, x);
    }
  }

  /** Sorting any listing without repetition gives the ascending one. */
  lemma SortAscends<T(!new)>(s: seq<T>, less: (T, T) -> bool)
    requires StrictOrder(less) && Distinct(s)
    ensures Ascending(StableSort.Sort(s, less), less)
    ensures forall x :: x in StableSort.Sort(s, less) <==> x in s
  {
    var sorted := StableSort.Sort(s, less);
    StrictIsWeak(less);
    StableSort.SortSorted(s, less);
    SameMembers(sorted, s);
    DistinctPermutation(s, sorted);
    forall i, j | 0 <= i < j < |sorted| ensures less(sorted[i], sorted[j]) {
      assert !less(sorted[j], sorted[i]);
    }
  }
}
