/** Lexicographic order of sequences under a numeric rank of their elements. */
module LexOrder {
  const CHAR_RANK: char -> int := (c: char) => c as int

  predicate LexLess<T>(a: seq<T>, b: seq<T>, rank: T -> int) {
    if a == [] || b == [] then |a| < |b|
    else if rank(a[0]) != rank(b[0]) then rank(a[0]) < rank(b[0])
    else LexLess(a[1..], b[1..], rank)
  }

  lemma {:induction false} LexAsymmetric<T>(a: seq<T>, b: seq<T>, rank: T -> int)
    ensures !(LexLess(a, b, rank) && LexLess(b, a, rank))
  {
    if a != [] && b != [] {
      LexAsymmetric(a[1..], b[1..], rank);
    }
  }

  lemma {:induction false} LexNegativelyTransitive<T>(a: seq<T>, b: seq<T>, c: seq<T>, rank: T -> int)
    requires !LexLess(a, b, rank) && !LexLess(b, c, rank)
    ensures !LexLess(a, c, rank)
  {
    if a != [] && b != [] && c != [] {
      if rank(a[0]) == rank(b[0]) == rank(c[0]) {
        LexNegativelyTransitive(a[1..], b[1..], c[1..], rank);
      }
    }
  }

  lemma LexTransitive<T>(a: seq<T>, b: seq<T>, c: seq<T>, rank: T -> int)
    requires LexLess(a, b, rank) && LexLess(b, c, rank)
    ensures LexLess(a, c, rank)
  {
    LexAsymmetric(b, c, rank);
    if !LexLess(a, c, rank) {
      LexNegativelyTransitive(a, c, b, rank);
    }
  }

  /** With an injective rank, different sequences are always ordered one way. */
  lemma {:induction false} LexTotal<T(!new)>(a: seq<T>, b: seq<T>, rank: T -> int)
    requires forall x, y :: rank(x) == rank(y) ==> x == y
    requires !LexLess(a, b, rank) && !LexLess(b, a, rank)
    ensures a == b
  {
    if a != [] && b != [] {
      LexTotal(a[1..], b[1..], rank);
      assert a == [a[0]] + a[1..] && b == [b[0]] + b[1..];
    }
  }
}
