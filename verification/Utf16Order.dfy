/** utf16Less: the member order of section 3.2.3 of RFC 8785, which compares UTF-16 code units. */
module Utf16Order {
  import LexOrder
  import opened Listings
  import opened Multisets
  import StableSort

  /** The code units of one character: two for a character beyond the basic plane. */
  function Units(c: char): seq<int> {
    var n := c as int;
    if n < 0x10000 then [n] else [0xD800 + (n - 0x10000) / 0x400, 0xDC00 + (n - 0x10000) % 0x400]
  }

  function Encode(s: string): seq<int> {
    if s == [] then [] else Units(s[0]) + Encode(s[1..])
  }

  const CODE_UNIT: int -> int := (u: int) => u

  predicate Utf16Less(left: string, right: string) {
    LexOrder.LexLess(Encode(left), Encode(right), CODE_UNIT)
  }

  /** The loop over both encodings. */
  method CompareUtf16(left: string, right: string) returns (less: bool)
    ensures less == Utf16Less(left, right)
  {
    var a, b := Encode(left), Encode(right);
    var i := 0;
    while i < |a| && i < |b|
      invariant i <= |a| && i <= |b|
      invariant LexOrder.LexLess(a, b, CODE_UNIT) == LexOrder.LexLess(a[i..], b[i..], CODE_UNIT)
    {
      if a[i] != b[i] {
        return a[i] < b[i];
      }
      i := i + 1;
    }
    less := |a| < |b|;
  }

  /** The units of one character are never those of another followed by anything. */
  lemma UnitsInjective(c: char, d: char, a: seq<int>, b: seq<int>)
    requires Units(c) + a == Units(d) + b
    ensures c == d && a == b
  {
    assert (Units(c) + a)[0] == (Units(d) + b)[0];
    assert |Units(c)| == |Units(d)|;
    if |Units(c)| == 2 {
      assert (Units(c) + a)[1] == (Units(d) + b)[1];
    }
    assert a == (Units(c) + a)[|Units(c)|..] && b == (Units(d) + b)[|Units(d)|..];
  }

  lemma {:induction false} EncodeInjective(s: string, t: string)
    requires Encode(s) == Encode(t)
    ensures s == t
  {
    if s != [] && t != [] {
      UnitsInjective(s[0], t[0], Encode(s[1..]), Encode(t[1..]));
      EncodeInjective(s[1..], t[1..]);
      assert s == [s[0]] + s[1..] && t == [t[0]] + t[1..];
    }
  }

  const UTF16_ORDER: (string, string) -> bool := (a, b) => Utf16Less(a, b)

  /** utf16Less is a strict total order on strings. */
  lemma StrictTotal(a: string, b: string, c: string)
    ensures !Utf16Less(a, a)
    ensures Utf16Less(a, b) ==> !Utf16Less(b, a)
    ensures Utf16Less(a, b) && Utf16Less(b, c) ==> Utf16Less(a, c)
    ensures a == b || Utf16Less(a, b) || Utf16Less(b, a)
  {
    LexOrder.LexAsymmetric(Encode(a), Encode(a), CODE_UNIT);
    LexOrder.LexAsymmetric(Encode(a), Encode(b), CODE_UNIT);
    if Utf16Less(a, b) && Utf16Less(b, c) && !Utf16Less(a, c) {
      LexOrder.LexAsymmetric(Encode(b), Encode(c), CODE_UNIT);
      LexOrder.LexNegativelyTransitive(Encode(a), Encode(c), Encode(b), CODE_UNIT);
    }
    if !Utf16Less(a, b) && !Utf16Less(b, a) {
      LexOrder.LexTotal(Encode(a), Encode(b), CODE_UNIT);
      EncodeInjective(a, b);
    }
  }

  lemma IsStrictOrder()
    ensures StrictOrder(UTF16_ORDER)
  {
    forall a ensures !UTF16_ORDER(a, a) {
      StrictTotal(a, a, a);
    }
    forall a, b, c | UTF16_ORDER(a, b) && UTF16_ORDER(b, c) ensures UTF16_ORDER(a, c) {
      StrictTotal(a, b, c);
    }
    forall a, b ensures a == b || UTF16_ORDER(a, b) || UTF16_ORDER(b, a) {
      StrictTotal(a, b, a);
    }
  }

  /** It is not the order of code points: a supplementary character sorts before U+FF5E. */
  lemma NotCodePointOrder()
    ensures Utf16Less("\U{10000}", "\U{FF5E}") && !Utf16Less("\U{FF5E}", "\U{10000}")
    ensures ('\U{FF5E}' as int) < ('\U{10000}' as int)
  {
    assert "\U{10000}"[1..] == [] && "\U{FF5E}"[1..] == [];
    assert Encode("\U{10000}") == [0xD800, 0xDC00] + [] && Encode("\U{FF5E}") == [0xFF5E] + [];
    StrictTotal("\U{10000}", "\U{FF5E}", "");
  }

  // ---- Sorted keys ----

  predicate StrictlySorted(keys: seq<string>) {
    forall i, j | 0 <= i < j < |keys| :: Utf16Less(keys[i], keys[j])
  }

  function Elements(keys: seq<string>): set<string> {
    set k | k in keys
  }

  lemma ElementsEmpty(keys: seq<string>)
    ensures Elements(keys) == {} <==> keys == []
  {
    if keys != [] {
      assert keys[0] in Elements(keys);
    }
  }

  /** A set has one sorted listing, so the order in which a map yields its keys cannot matter. */
  lemma ListingUnique(a: seq<string>, b: seq<string>)
    requires StrictlySorted(a) && StrictlySorted(b) && Elements(a) == Elements(b)
    ensures a == b
  {
    IsStrictOrder();
    assert forall k :: k in a <==> k in Elements(a);
    assert forall k :: k in b <==> k in Elements(b);
    Listings.ListingUnique(a, b, UTF16_ORDER);
  }

  /** Sorting any listing of distinct keys gives the sorted listing. */
  lemma SortedListing(keys: seq<string>)
    requires Distinct(keys)
    ensures StrictlySorted(StableSort.Sort(keys, UTF16_ORDER)) && Elements(StableSort.Sort(keys, UTF16_ORDER)) == Elements(keys)
  {
    IsStrictOrder();
    SortAscends(keys, UTF16_ORDER);
  }
}
