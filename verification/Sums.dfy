/** Sums over sequences, which do not depend on order. */
module Sums {
  function Sum<T>(s: seq<T>, cost: T -> int): int {
    if s == [] then 0 else Sum(s[..|s| - 1], cost) + cost(s[|s| - 1])
  }

  lemma {:induction false} SumAppend<T>(a: seq<T>, b: seq<T>, cost: T -> int)
    ensures Sum(a + b, cost) == Sum(a, cost) + Sum(b, cost)
  {
    if b == [] {
      assert a + b == a;
    } else {
      assert (a + b)[..|a + b| - 1] == a + b[..|b| - 1];
      SumAppend(a, b[..|b| - 1], cost);
    }
  }

  lemma MultisetRemove<T>(s: seq<T>, k: nat)
    requires k < |s|
    ensures multiset(s) == multiset(s[..k] + s[k + 1..]) + multiset{s[k]}
  {
    assert s == s[..k] + [s[k]] + s[k + 1..];
  }

  lemma SumRemove<T>(s: seq<T>, k: nat, cost: T -> int)
    requires k < |s|
    ensures Sum(s, cost) == Sum(s[..k] + s[k + 1..], cost) + cost(s[k])
  {
    assert s == s[..k] + [s[k]] + s[k + 1..];
    SumAppend(s[..k], s[k + 1..], cost);
    SumAppend(s[..k] + [s[k]], s[k + 1..], cost);
    assert (s[..k] + [s[k]])[..k] == s[..k];
  }

  lemma {:induction false} SumPermutation<T>(a: seq<T>, b: seq<T>, cost: T -> int)
    requires multiset(a) == multiset(b)
    ensures Sum(a, cost) == Sum(b, cost)
  {
    if a == [] {
      assert |multiset(b)| == 0;
    } else {
      var n := |a| - 1;
      assert a[n] in multiset(b);
      var k :| 0 <= k < |b| && b[k] == a[n];
      var b' := b[..k] + b[k + 1..];
      SumRemove(b, k, cost);
      MultisetRemove(b, k);
      assert a == a[..n] + [a[n]];
      assert multiset(a) == multiset(a[..n]) + multiset{a[n]};
      assert multiset(a[..n]) == multiset(a) - multiset{a[n]};
      assert multiset(b') == multiset(b) - multiset{b[k]};
      SumPermutation(a[..n], b', cost);
    }
  }

  /** The sum of a sequence split in two as multisets. */
  lemma SumSplit<T>(whole: seq<T>, left: seq<T>, right: seq<T>, cost: T -> int)
    requires multiset(whole) == multiset(left) + multiset(right)
    ensures Sum(whole, cost) == Sum(left, cost) + Sum(right, cost)
  {
    assert multiset(left + right) == multiset(left) + multiset(right);
    SumPermutation(whole, left + right, cost);
    SumAppend(left, right, cost);
  }

  lemma SumOne<T>(x: T, cost: T -> int)
    ensures Sum([x], cost) == cost(x)
  {
    assert [x][..0] == [];
  }

  lemma {:induction false} SumNonNegative<T>(s: seq<T>, cost: T -> int)
    requires forall x | x in s :: cost(x) >= 0
    ensures Sum(s, cost) >= 0
  {
    if s != [] {
      SumNonNegative(s[..|s| - 1], cost);
    }
  }
}
