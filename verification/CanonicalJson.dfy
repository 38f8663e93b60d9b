/** CanonicalizeJSON is a normal form: reading it back gives the value, and equal values have equal texts. */
module CanonicalJson {
  import opened Wrappers
  import opened Utf16Order
  import opened JsonValue
  import opened JsonReader

  /** Text after a value that cannot prolong a number. */
  predicate Ends(rest: string) {
    rest == [] || !NumberChar(rest[0])
  }

  // ---- Strings read back ----

  lemma HexRead(n: int)
    requires 0 <= n < 16
    ensures IsHex(HexDigit(n)) && HexValue(HexDigit(n)) == n
  {
  }

  lemma EscapeRead(c: char, rest: string)
    ensures Escape(c) != [] && Escape(c)[0] != QUOTE
    ensures ReadChar(Escape(c) + rest) == Good(c, rest)
  {
    var s := Escape(c) + rest;
    assert s[|Escape(c)|..] == rest;
    if |Escape(c)| == 6 {
      HexRead(c as int / 16);
      HexRead(c as int % 16);
      HexRead(0);
      assert HexDigit(0) == '0';
      assert s[0] == BACKSLASH && s[1] == 'u' && s[2] == '0' && s[3] == '0';
      assert s[4] == HexDigit(c as int / 16) && s[5] == HexDigit(c as int % 16);
      assert CodeUnit(s) == c as int;
    }
  }

  lemma {:induction false} CharsRead(s: string, rest: string)
    ensures ReadChars(Escaped(s) + [QUOTE] + rest) == Good(s, rest)
  {
    var text := Escaped(s) + [QUOTE] + rest;
    if s == [] {
      assert text[1..] == rest;
    } else {
      var tail := Escaped(s[1..]) + [QUOTE] + rest;
      assert text == Escape(s[0]) + tail;
      EscapeRead(s[0], tail);
      CharsRead(s[1..], rest);
      assert s == [s[0]] + s[1..];
    }
  }

  // ---- Numbers read back ----

  lemma {:induction false} SpanIs(token: string, rest: string)
    requires forall i | 0 <= i < |token| :: NumberChar(token[i])
    requires Ends(rest)
    ensures NumberSpan(token + rest) == |token|
  {
    if token == [] {
      assert token + rest == rest;
    } else {
      assert (token + rest)[1..] == token[1..] + rest;
      SpanIs(token[1..], rest);
    }
  }

  lemma {:induction false} DigitSpanIs(digits: string)
    requires AllDigits(digits)
    ensures DigitSpan(digits) == |digits|
  {
    if digits != [] {
      DigitSpanIs(digits[1..]);
    }
  }

  lemma IntegerIsNumber(token: string)
    requires ValidInteger(token)
    ensures IsNumber(token) && token != [] && (IsDigit(token[0]) || token[0] == '-')
    ensures forall i | 0 <= i < |token| :: NumberChar(token[i])
  {
    var digits := Unsigned(token);
    if token == "0" {
      assert digits[1..] == [];
    } else {
      DigitSpanIs(digits);
      assert digits[|digits|..] == [];
      assert token == digits || token == ['-'] + digits;
    }
  }

  lemma NumberRead(token: string, rest: string)
    requires ValidInteger(token) && Ends(rest)
    ensures ReadNumber(token + rest) == Good(Num(token), rest)
  {
    IntegerIsNumber(token);
    SpanIs(token, rest);
    assert (token + rest)[..|token|] == token && (token + rest)[|token|..] == rest;
  }

  // ---- Values read back ----

  /** A written value starts with its own kind of character. */
  lemma WriteHead(v: Value)
    requires Writable(v)
    ensures Write(v) != [] && !IsBlank(Write(v)[0]) && Write(v)[0] != ']' && Write(v)[0] != '}'
  {
    if v.Num? {
      IntegerIsNumber(WrittenNumber(v.token));
    }
  }

  lemma SkipsNone(s: string)
    requires s == [] || !IsBlank(s[0])
    ensures SkipBlanks(s) == s
  {
  }

  lemma ReadString(s: string, rest: string)
    ensures ReadValue(Quoted(s) + rest) == Good(Str(s), rest)
  {
    var text := Quoted(s) + rest;
    QuotedText(s, rest);
    SkipsNone(text);
    CharsRead(s, rest);
  }

  lemma QuotedText(s: string, rest: string)
    ensures Quoted(s) + rest != [] && (Quoted(s) + rest)[0] == QUOTE
    ensures (Quoted(s) + rest)[1..] == Escaped(s) + [QUOTE] + rest
  {
  }

  lemma ReadInteger(token: string, rest: string)
    requires ValidInteger(token) && Ends(rest)
    ensures ReadValue(token + rest) == Good(Num(token), rest)
  {
    var text := token + rest;
    IntegerIsNumber(token);
    assert text[0] == token[0];
    SkipsNone(text);
    NumberRead(token, rest);
    assert text[0] != QUOTE && text[0] != '[' && text[0] != '{' && text[0] != 'n' && text[0] != 't' && text[0] != 'f';
  }

  lemma ReadConstant(v: Value, rest: string)
    requires v.Null? || v.Bool?
    ensures ReadValue(Write(v) + rest) == Good(v, rest)
  {
    var text := Write(v) + rest;
    SkipsNone(text);
    assert text[|Write(v)|..] == rest && text[..|Write(v)|] == Write(v);
  }

  /** Reading what was written gives the value, whatever follows. */
  lemma {:induction false} ReadWrite(v: Value, rest: string)
    requires Writable(v) && Ends(rest)
    ensures ReadValue(Write(v) + rest) == Good(Norm(v), rest)
    decreases v, 2, 0
  {
    match v {
      case Arr(items) => ReadArray(v, rest);
      case Obj(fields) => ReadObject(v, rest);
      case Str(s) => ReadString(s, rest);
      case Num(token) => ReadInteger(WrittenNumber(token), rest);
      case Null => ReadConstant(v, rest);
      case Bool(b) => ReadConstant(v, rest);
    }
  }

  lemma ItemLast(s: string, v: Value, rest: string, done: seq<Value>)
    requires ReadValue(s) == Good(v, "]" + rest)
    ensures ReadItems(s, done) == Good(Arr(done + [v]), rest)
  {
    assert ("]" + rest)[1..] == rest;
  }

  lemma ItemMore(s: string, v: Value, tail: string, done: seq<Value>)
    requires ReadValue(s) == Good(v, "," + tail)
    ensures ReadItems(s, done) == ReadItems(tail, done + [v])
  {
    assert ("," + tail)[1..] == tail;
  }

  lemma ReadArray(v: Value, rest: string)
    requires v.Arr? && Writable(v)
    ensures ReadValue(Write(v) + rest) == Good(Norm(v), rest)
    decreases v, 1, 0
  {
    var text := Write(v) + rest;
    var inner := WriteItems(v.items) + "]" + rest;
    SkipsNone(text);
    assert text == "[" + inner;
    assert text[1..] == inner;
    if v.items == [] {
      assert inner == "]" + rest;
      assert inner[1..] == rest;
    } else {
      WriteHead(v.items[0]);
      assert inner[0] == Write(v.items[0])[0];
      SkipsNone(inner);
      assert v.items[0..] == v.items && [] + NormItems(v.items) == NormItems(v.items);
      ReadAllItems(v, 0, [], rest);
    }
  }

  /** What follows the first written item: the end of the array, or a comma and the other items. */
  ghost function AfterItem(items: seq<Value>, rest: string): string
    requires items != []
  {
    if |items| == 1 then "]" + rest else "," + (WriteItems(items[1..]) + "]" + rest)
  }

  lemma ItemsText(items: seq<Value>, rest: string)
    requires items != []
    ensures WriteItems(items) + "]" + rest == Write(items[0]) + AfterItem(items, rest) && Ends(AfterItem(items, rest))
  {
    if |items| > 1 {
      Reassociate(Write(items[0]), WriteItems(items[1..]), "]", rest);
    }
  }

  lemma {:induction false} ReadAllItems(v: Value, from: nat, done: seq<Value>, rest: string)
    requires v.Arr? && Writable(v) && from < |v.items|
    ensures ReadItems(WriteItems(v.items[from..]) + "]" + rest, done) ==
      Good(Arr(done + NormItems(v.items[from..])), rest)
    decreases v, 0, |v.items| - from
  {
    var items := v.items[from..];
    var first, after := v.items[from], AfterItem(v.items[from..], rest);
    ItemsText(items, rest);
    ReadWrite(first, after);
    if |items| == 1 {
      ItemLast(Write(first) + after, Norm(first), rest, done);
      assert NormItems(items) == [Norm(first)];
    } else {
      assert items[1..] == v.items[from + 1..];
      ItemMore(Write(first) + after, Norm(first), WriteItems(items[1..]) + "]" + rest, done);
      ReadAllItems(v, from + 1, done + [Norm(first)], rest);
      assert done + [Norm(first)] + NormItems(items[1..]) == done + NormItems(items);
    }
  }

  /** The fields of an object under some of its names, normalised. */
  function NormFields(v: Value, names: set<string>): map<string, Value>
    requires v.Obj?
  {
    map k | k in names && k in v.fields :: Norm(v.fields[k])
  }

  lemma MembersHead(v: Value, keys: seq<string>)
    requires v.Obj? && Elements(keys) <= v.fields.Keys && keys != []
    ensures WriteMembers(v, keys) != [] && WriteMembers(v, keys)[0] == QUOTE
  {
    assert keys[0] in Elements(keys);
  }

  lemma ReadObject(v: Value, rest: string)
    requires v.Obj? && Writable(v)
    ensures ReadValue(Write(v) + rest) == Good(Norm(v), rest)
    decreases v, 1, 0
  {
    var keys := Listing(v.fields.Keys);
    ElementsEmpty(keys);
    if keys == [] {
      ReadEmptyObject(v, rest);
    } else {
      ReadAllMembers(v, keys, 0, rest);
      assert keys[0..] == keys && NormFields(v, Elements(keys[..0])) == map[];
      assert NormFields(v, Elements(keys)) == Norm(v).fields;
      OpenObject(v, keys, rest);
    }
  }

  lemma ReadEmptyObject(v: Value, rest: string)
    requires v.Obj? && Listing(v.fields.Keys) == []
    ensures ReadValue(Write(v) + rest) == Good(Norm(v), rest)
  {
    var text := Write(v) + rest;
    ElementsEmpty([]);
    assert v.fields == map[] && Norm(v) == Obj(map[]);
    assert text == "{" + ("}" + rest);
    SkipsNone(text);
    assert text[1..] == "}" + rest;
    SkipsNone("}" + rest);
    assert ("}" + rest)[1..] == rest;
  }

  lemma OpenObject(v: Value, keys: seq<string>, rest: string)
    requires v.Obj? && keys == Listing(v.fields.Keys) && keys != []
    ensures ReadValue(Write(v) + rest) == ReadMembers(WriteMembers(v, keys) + "}" + rest, map[])
  {
    var text := Write(v) + rest;
    var inner := WriteMembers(v, keys) + "}" + rest;
    assert text == "{" + inner;
    SkipsNone(text);
    assert text[1..] == inner;
    MembersHead(v, keys);
    SkipsNone(inner);
  }

  lemma NameRead(key: string, rest: string)
    ensures ReadName(Quoted(key) + ":" + rest) == Good(key, rest)
  {
    var text := Quoted(key) + ":" + rest;
    assert text == Quoted(key) + (":" + rest);
    QuotedText(key, ":" + rest);
    CharsRead(key, ":" + rest);
    SkipsNone(text);
    SkipsNone(":" + rest);
    assert (":" + rest)[1..] == rest;
  }

  ghost function AfterMember(v: Value, keys: seq<string>, rest: string): string
    requires v.Obj? && Elements(keys) <= v.fields.Keys && keys != []
  {
    if |keys| == 1 then "}" + rest
    else
      assert Elements(keys[1..]) <= Elements(keys);
      "," + (WriteMembers(v, keys[1..]) + "}" + rest)
  }

  lemma MembersText(v: Value, keys: seq<string>, rest: string)
    requires v.Obj? && Elements(keys) <= v.fields.Keys && keys != []
    ensures keys[0] in v.fields && Ends(AfterMember(v, keys, rest))
    ensures WriteMembers(v, keys) + "}" + rest == WriteMember(v, keys[0]) + AfterMember(v, keys, rest)
  {
    assert keys[0] in Elements(keys);
    assert Elements(keys[1..]) <= Elements(keys);
    if |keys| > 1 {
      Reassociate(WriteMember(v, keys[0]), WriteMembers(v, keys[1..]), "}", rest);
    }
  }

  lemma Reassociate(first: string, others: string, close: string, rest: string)
    ensures first + "," + others + close + rest == first + ("," + (others + close + rest))
  {
  }

  lemma {:induction false} ReadAllMembers(v: Value, keys: seq<string>, from: nat, rest: string)
    requires v.Obj? && Writable(v) && StrictlySorted(keys) && Elements(keys) <= v.fields.Keys && from < |keys|
    ensures Elements(keys[from..]) <= v.fields.Keys
    ensures ReadMembers(WriteMembers(v, keys[from..]) + "}" + rest, NormFields(v, Elements(keys[..from]))) ==
      Good(Obj(NormFields(v, Elements(keys))), rest)
    decreases v, 0, |keys| - from
  {
    SomeElements(keys, from);
    var left, key := keys[from..], keys[from];
    var before, after := NormFields(v, Elements(keys[..from])), AfterMember(v, keys[from..], rest);
    MembersText(v, left, rest);
    NewName(keys, from);
    NextFields(v, keys, from);
    OneMember(v, key, after, before);
    var text, tail, value := WriteMember(v, key) + after, Write(v.fields[key]) + after, Norm(v.fields[key]);
    if |left| == 1 {
      MemberLast(text, key, tail, value, rest, before);
      assert keys[..from + 1] == keys;
    } else {
      assert left[1..] == keys[from + 1..];
      ReadAllMembers(v, keys, from + 1, rest);
      MemberMore(text, key, tail, value, WriteMembers(v, left[1..]) + "}" + rest, before);
    }
  }

  lemma MemberLast(s: string, key: string, after: string, v: Value, rest: string, before: map<string, Value>)
    requires ReadName(s) == Good(key, after) && key !in before && ReadValue(after) == Good(v, "}" + rest)
    ensures ReadMembers(s, before) == Good(Obj(before[key := v]), rest)
  {
    assert ("}" + rest)[1..] == rest;
  }

  lemma MemberMore(s: string, key: string, after: string, v: Value, tail: string, before: map<string, Value>)
    requires ReadName(s) == Good(key, after) && key !in before && ReadValue(after) == Good(v, "," + tail)
    ensures ReadMembers(s, before) == ReadMembers(tail, before[key := v])
  {
    assert ("," + tail)[1..] == tail;
  }

  /** Reading one written member: its name, its value, and what follows. */
  lemma OneMember(v: Value, key: string, more: string, before: map<string, Value>)
    requires v.Obj? && Writable(v) && key in v.fields && key !in before && Ends(more)
    ensures ReadName(WriteMember(v, key) + more) == Good(key, Write(v.fields[key]) + more)
    ensures ReadValue(Write(v.fields[key]) + more) == Good(Norm(v.fields[key]), more)
    decreases v, 0, 0
  {
    NameRead(key, Write(v.fields[key]) + more);
    NameAndRest(Quoted(key), Write(v.fields[key]), more);
    ReadWrite(v.fields[key], more);
  }

  lemma NameAndRest(name: string, value: string, more: string)
    ensures name + ":" + value + more == name + ":" + (value + more)
  {
  }

  lemma SomeElements(keys: seq<string>, from: nat)
    requires from <= |keys|
    ensures Elements(keys[from..]) <= Elements(keys) && Elements(keys[..from]) <= Elements(keys)
  {
  }

  lemma NewName(keys: seq<string>, from: nat)
    requires StrictlySorted(keys) && from < |keys|
    ensures keys[from] !in Elements(keys[..from])
    ensures Elements(keys[..from + 1]) == Elements(keys[..from]) + {keys[from]}
  {
    assert keys[..from + 1] == keys[..from] + [keys[from]];
    forall i | 0 <= i < from ensures keys[i] != keys[from] {
      StrictTotal(keys[i], keys[i], keys[i]);
    }
  }

  lemma NextFields(v: Value, keys: seq<string>, from: nat)
    requires v.Obj? && StrictlySorted(keys) && from < |keys| && keys[from] in v.fields
    ensures NormFields(v, Elements(keys[..from + 1])) ==
      NormFields(v, Elements(keys[..from]))[keys[from] := Norm(v.fields[keys[from]])]
  {
    NewName(keys, from);
  }

  // ---- Normal form ----

  lemma {:induction false} WriteNorm(v: Value)
    requires Writable(v)
    ensures Writable(Norm(v)) && Norm(Norm(v)) == Norm(v) && Write(Norm(v)) == Write(v)
    decreases v, 1, 0
  {
    match v {
      case Arr(items) => ItemsNorm(items);
      case Obj(fields) =>
        forall k | k in fields ensures Writable(Norm(fields[k])) && Norm(Norm(fields[k])) == Norm(fields[k]) {
          WriteNorm(fields[k]);
        }
        assert Norm(v).fields.Keys == fields.Keys;
        MembersNorm(v, Listing(fields.Keys));
        assert Norm(Norm(v)).fields == Norm(v).fields;
      case _ =>
    }
  }

  lemma {:induction false} ItemsNorm(items: seq<Value>)
    requires forall i | 0 <= i < |items| :: Writable(items[i])
    ensures forall i | 0 <= i < |items| :: Writable(NormItems(items)[i])
    ensures NormItems(NormItems(items)) == NormItems(items) && WriteItems(NormItems(items)) == WriteItems(items)
    decreases items, 0, 0
  {
    if items != [] {
      WriteNorm(items[0]);
      ItemsNorm(items[1..]);
      assert NormItems(items)[1..] == NormItems(items[1..]);
      forall i | 0 <= i < |items| ensures Writable(NormItems(items)[i]) {
        if i > 0 {
          assert NormItems(items)[i] == NormItems(items[1..])[i - 1];
        }
      }
    }
  }

  lemma {:induction false} MembersNorm(v: Value, keys: seq<string>)
    requires v.Obj? && Writable(v) && Elements(keys) <= v.fields.Keys
    ensures Norm(v).Obj? && Norm(v).fields.Keys == v.fields.Keys
    ensures WriteMembers(Norm(v), keys) == WriteMembers(v, keys)
    decreases v, 0, |keys|
  {
    assert Norm(v).fields.Keys == v.fields.Keys;
    if keys != [] {
      assert keys[0] in Elements(keys);
      assert Elements(keys[1..]) <= Elements(keys);
      WriteNorm(v.fields[keys[0]]);
      MembersNorm(v, keys[1..]);
    }
  }

  /** A text with nothing but blanks after its value. */
  function ReadText(text: string): Option<Value> {
    match ReadValue(text)
    case Bad => None
    case Good(v, rest) => if SkipBlanks(rest) == [] then Some(v) else None
  }

  /** CanonicalizeJSON: None where it returns an error. */
  ghost function Canonicalize(text: string): Option<string> {
    match ReadText(text)
    case None => None
    case Some(v) => if Writable(v) then Some(Write(v)) else None
  }

  /** Reading the written text gives back the value, with -0 as 0. */
  lemma RoundTrip(v: Value)
    requires Writable(v)
    ensures ReadText(Write(v)) == Some(Norm(v))
  {
    ReadWrite(v, "");
    assert Write(v) + "" == Write(v);
  }

  /** Writing is idempotent: canonical text is its own canonical text. */
  lemma CanonicalIsStable(text: string)
    requires Canonicalize(text).Some?
    ensures Canonicalize(Canonicalize(text).value) == Canonicalize(text)
  {
    var v := ReadText(text).value;
    RoundTrip(v);
    WriteNorm(v);
  }

  /** Two texts have the same canonical text exactly when their values are the same, whatever their member order. */
  lemma SameTextSameValue(a: string, b: string)
    requires Canonicalize(a).Some? && Canonicalize(b).Some?
    ensures Canonicalize(a) == Canonicalize(b) <==> Norm(ReadText(a).value) == Norm(ReadText(b).value)
  {
    RoundTrip(ReadText(a).value);
    RoundTrip(ReadText(b).value);
    WriteNorm(ReadText(a).value);
    WriteNorm(ReadText(b).value);
  }

  /** So a digest of the canonical text, by a function without collisions, identifies the value. */
  lemma DigestIdentifies(digest: string -> string, a: string, b: string)
    requires forall x, y | digest(x) == digest(y) :: x == y
    requires Canonicalize(a).Some? && Canonicalize(b).Some?
    ensures digest(Canonicalize(a).value) == digest(Canonicalize(b).value) <==>
      Norm(ReadText(a).value) == Norm(ReadText(b).value)
  {
    SameTextSameValue(a, b);
  }
}
