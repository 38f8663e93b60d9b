/** The contract of sort.SliceStable: a sorted permutation that keeps ties in input order. */
module StableSort {
  function Insert<T>(sorted: seq<T>, x: T, less: (T, T) -> bool): (r: seq<T>)
    ensures multiset(r) == multiset(sorted) + multiset{x}
  {
    if sorted == [] then [x]
    else
      var n := |sorted| - 1;
      assert sorted == sorted[..n] + [sorted[n]];
      if less(x, sorted[n]) then Insert(sorted[..n], x, less) + [sorted[n]] else sorted + [x]
  }

  function Sort<T>(s: seq<T>, less: (T, T) -> bool): (r: seq<T>)
    ensures multiset(r) == multiset(s)
  {
    if s == [] then []
    else
      assert s == s[..|s| - 1] + [s[|s| - 1]];
      Insert(Sort(s[..|s| - 1], less), s[|s| - 1], less)
  }

  ghost predicate StrictWeakOrder<T(!new)>(less: (T, T) -> bool) {
    && (forall x, y :: less(x, y) ==> !less(y, x))
    && (forall x, y, z :: !less(x, y) && !less(y, z) ==> !less(x, z))
  }

  predicate Sorted<T>(s: seq<T>, less: (T, T) -> bool) {
    forall i, j | 0 <= i < j < |s| :: !less(s[j], s[i])
  }

  lemma {:induction false} InsertSorted<T(!new)>(sorted: seq<T>, x: T, less: (T, T) -> bool)
    requires StrictWeakOrder(less) && Sorted(sorted, less)
    ensures Sorted(Insert(sorted, x, less), less)
  {
    if sorted != [] {
      var n := |sorted| - 1;
      if less(x, sorted[n]) {
        var r := Insert(sorted[..n], x, less);
        InsertSorted(sorted[..n], x, less);
        forall i | 0 <= i < |r| ensures !less(sorted[n], r[i]) {
          assert r[i] in multiset(sorted[..n]) + multiset{x};
          assert r[i] in sorted[..n] || r[i] == x;
        }
      } else {
        forall i | 0 <= i <= n ensures !less(x, sorted[i]) {
        }
      }
    }
  }

  lemma {:induction false} SortSorted<T(!new)>(s: seq<T>, less: (T, T) -> bool)
    requires StrictWeakOrder(less)
    ensures Sorted(Sort(s, less), less)
  {
    if s != [] {
      SortSorted(s[..|s| - 1], less);
      InsertSorted(Sort(s[..|s| - 1], less), s[|s| - 1], less);
    }
  }

  function Filter<T>(s: seq<T>, p: T -> bool): seq<T> {
    if s == [] then []
    else Filter(s[..|s| - 1], p) + (if p(s[|s| - 1]) then [s[|s| - 1]] else [])
  }

  /** Ties keep their input order: among mutually incomparable elements nothing moves. */
  lemma {:induction false} SortStable<T(!new)>(s: seq<T>, less: (T, T) -> bool, p: T -> bool)
    requires forall x, y | p(x) && p(y) :: !less(x, y)
    ensures Filter(Sort(s, less), p) == Filter(s, p)
  {
    if s != [] {
      var n := |s| - 1;
      SortStable(s[..n], less, p);
      InsertStable(Sort(s[..n], less), s[n], less, p);
    }
  }

  lemma {:induction false} InsertStable<T(!new)>(sorted: seq<T>, x: T, less: (T, T) -> bool, p: T -> bool)
    requires forall x, y | p(x) && p(y) :: !less(x, y)
    ensures Filter(Insert(sorted, x, less), p) == Filter(sorted, p) + (if p(x) then [x] else [])
  {
    var r := Insert(sorted, x, less);
    if sorted != [] {
      var n := |sorted| - 1;
      if less(x, sorted[n]) {
        InsertStable(sorted[..n], x, less, p);
        assert r[..|r| - 1] == Insert(sorted[..n], x, less);
      } else {
        assert r[..|r| - 1] == sorted;
      }
    } else {
      assert r[..0] == sorted;
    }
  }
}
