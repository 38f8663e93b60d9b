/** ScriptEstimator: the fixed ruler of one compile, over real numbers. */
module TokenRuler {
  import opened Text

  const PUNCTUATION := "{}[]():,;\"'`=<>/\\|+-*"

  datatype Class = Foreign | Space | Mark | Letter

  function ClassOf(c: char): Class {
    if c as int > 127 then Foreign
    else if IsSpace(c) then Space
    else if c in PUNCTUATION then Mark
    else Letter
  }

  function CountClass(text: string, k: Class): nat {
    if text == [] then 0 else CountClass(text[..|text| - 1], k) + (if ClassOf(text[|text| - 1]) == k then 1 else 0)
  }

  datatype Parts = Parts(ascii: nat, foreign: nat)

  function PartsOf(text: string): Parts {
    Parts((CountClass(text, Letter) + CountClass(text, Space) + 3) / 4 + (CountClass(text, Mark) + 2) / 3,
          CountClass(text, Foreign))
  }

  /** HeuristicParts: one pass over the text. */
  method HeuristicParts(text: string) returns (parts: Parts)
    ensures parts == PartsOf(text)
  {
    var letters, spaces, marks, foreign := 0, 0, 0, 0;
    for i := 0 to |text|
      invariant letters == CountClass(text[..i], Letter) && spaces == CountClass(text[..i], Space)
      invariant marks == CountClass(text[..i], Mark) && foreign == CountClass(text[..i], Foreign)
    {
      assert text[..i + 1][..i] == text[..i];
      match ClassOf(text[i]) {
        case Foreign => foreign := foreign + 1;
        case Space => spaces := spaces + 1;
        case Mark => marks := marks + 1;
        case Letter => letters := letters + 1;
      }
    }
    assert text[..|text|] == text;
    parts := Parts((letters + spaces + 3) / 4 + (marks + 2) / 3, foreign);
  }

  function Ceiling(x: real): int {
    -((-x).Floor)
  }

  function Positive(x: real): real {
    if x <= 0.0 then 1.0 else x
  }

  function Measure(ascii: nat, foreign: nat, rate: real, scale: real): real {
    (ascii as real + rate * (foreign as real)) * scale
  }

  /** ScriptEstimator.Count; a rate or a scale that was never measured counts as one. */
  function Count(rate: real, scale: real, text: string): int {
    var count := Ceiling(Measure(PartsOf(text).ascii, PartsOf(text).foreign, Positive(rate), Positive(scale)));
    if count == 0 && text != "" then 1 else count
  }

  lemma {:induction false} EveryCharacterCounts(text: string)
    ensures CountClass(text, Letter) + CountClass(text, Space) + CountClass(text, Mark) + CountClass(text, Foreign) == |text|
  {
    if text != [] {
      EveryCharacterCounts(text[..|text| - 1]);
    }
  }

  lemma ProductNotNegative(a: real, b: real)
    requires a >= 0.0 && b >= 0.0
    ensures a * b >= 0.0
  {
  }

  lemma MeasureNotNegative(ascii: nat, foreign: nat, rate: real, scale: real)
    requires rate > 0.0 && scale > 0.0
    ensures Measure(ascii, foreign, rate, scale) >= 0.0
    ensures Measure(0, 0, rate, scale) == 0.0
  {
    ProductNotNegative(rate, foreign as real);
    ProductNotNegative(ascii as real + rate * (foreign as real), scale);
  }

  lemma CeilingNotNegative(x: real)
    requires x >= 0.0
    ensures Ceiling(x) >= 0 && Ceiling(0.0) == 0
  {
  }

  /** A ruler a compile may use: never negative, and nothing exactly for the empty text. */
  lemma CountIsRuler(rate: real, scale: real, text: string)
    ensures Count(rate, scale, text) >= 0
    ensures Count(rate, scale, text) == 0 <==> text == ""
  {
    var parts := PartsOf(text);
    MeasureNotNegative(parts.ascii, parts.foreign, Positive(rate), Positive(scale));
    CeilingNotNegative(Measure(parts.ascii, parts.foreign, Positive(rate), Positive(scale)));
  }

  lemma {:induction false} CountClassGrows(a: string, b: string, k: Class)
    ensures CountClass(a, k) <= CountClass(a + b, k)
  {
    if b == [] {
      assert a + b == a;
    } else {
      assert (a + b)[..|a + b| - 1] == a + b[..|b| - 1];
      CountClassGrows(a, b[..|b| - 1], k);
    }
  }

  lemma ProductGrows(x: real, y: real, factor: real)
    requires x <= y && factor >= 0.0
    ensures factor * x <= factor * y && x * factor <= y * factor
  {
  }

  lemma MeasureGrows(a: nat, f: nat, more: nat, further: nat, rate: real, scale: real)
    requires a <= more && f <= further && rate > 0.0 && scale > 0.0
    ensures Measure(a, f, rate, scale) <= Measure(more, further, rate, scale)
  {
    ProductGrows(f as real, further as real, rate);
    ProductGrows(a as real + rate * (f as real), more as real + rate * (further as real), scale);
  }

  lemma CeilingGrows(x: real, y: real)
    requires x <= y
    ensures Ceiling(x) <= Ceiling(y)
  {
  }

  lemma PartsGrow(a: string, b: string)
    ensures PartsOf(a).ascii <= PartsOf(a + b).ascii && PartsOf(a).foreign <= PartsOf(a + b).foreign
  {
    CountClassGrows(a, b, Letter);
    CountClassGrows(a, b, Space);
    CountClassGrows(a, b, Mark);
    CountClassGrows(a, b, Foreign);
  }

  /** More text never measures less, so the longest prefix that fits can be found by bisection. */
  lemma CountGrows(rate: real, scale: real, a: string, b: string)
    ensures Count(rate, scale, a) <= Count(rate, scale, a + b)
  {
    var p, q := PartsOf(a), PartsOf(a + b);
    PartsGrow(a, b);
    MeasureGrows(p.ascii, p.foreign, q.ascii, q.foreign, Positive(rate), Positive(scale));
    CeilingGrows(Measure(p.ascii, p.foreign, Positive(rate), Positive(scale)),
                 Measure(q.ascii, q.foreign, Positive(rate), Positive(scale)));
    CountIsRuler(rate, scale, a);
    CountIsRuler(rate, scale, a + b);
  }
}
