/** The writer over its output buffer: what it appends is the canonical text, whatever order a map yields its names. */
module JsonWriter {
  import opened Wrappers
  import opened Utf16Order
  import opened JsonValue
  import opened CanonicalJson
  import StableSort

  class Buffer {
    var text: string

    constructor ()
      ensures text == ""
    {
      text := "";
    }

    method WriteString(s: string)
      modifies this
      ensures text == old(text) + s
    {
      text := text + s;
    }
  }

  lemma Regroup(a: string, b: string, c: string, d: string)
    ensures a + b + c + d == a + (b + c + d)
  {
  }

  function Comma(i: nat): string {
    if i > 0 then "," else ""
  }

  method WriteComma(out: Buffer, i: nat)
    modifies out
    ensures out.text == old(out.text) + Comma(i)
  {
    if i > 0 {
      out.WriteString(",");
    }
  }

  lemma EscapedNext(left: string, piece: string, rest: string)
    requires left != [] && piece == Escape(left[0]) && rest == Escaped(left[1..])
    ensures Escaped(left) == piece + rest
  {
  }

  lemma Appended(a: string, b: string, c: string)
    ensures a + (b + c) == a + b + c
  {
  }

  method WriteEscape(out: Buffer, left: string, ghost goal: string)
    requires left != [] && out.text + Escaped(left) == goal
    modifies out
    ensures out.text + Escaped(left[1..]) == goal
  {
    var piece := Escape(left[0]);
    ghost var rest := Escaped(left[1..]);
    EscapedNext(left, piece, rest);
    Appended(out.text, piece, rest);
    out.WriteString(piece);
  }

  method WriteJSONString(out: Buffer, value: string)
    modifies out
    ensures out.text == old(out.text) + Quoted(value)
  {
    ghost var goal := out.text + [QUOTE] + Escaped(value);
    out.WriteString([QUOTE]);
    var left := value;
    while left != []
      invariant out.text + Escaped(left) == goal
      decreases |left|
    {
      WriteEscape(out, left, goal);
      left := left[1..];
    }
    assert out.text == goal;
    out.WriteString([QUOTE]);
    Regroup(old(out.text), [QUOTE], Escaped(value), [QUOTE]);
  }

  /** The names in whatever order iteration gives them, sorted. */
  method SortedNames(names: set<string>) returns (keys: seq<string>)
    ensures keys == Listing(names)
  {
    keys := [];
    var left := names;
    while left != {}
      invariant left <= names && Elements(keys) == names - left
      invariant forall i, j | 0 <= i < j < |keys| :: keys[i] != keys[j]
      decreases left
    {
      var k :| k in left;
      assert k !in Elements(keys);
      assert Elements(keys + [k]) == Elements(keys) + {k};
      keys, left := keys + [k], left - {k};
    }
    SortedListing(keys);
    keys := StableSort.Sort(keys, UTF16_ORDER);
    ListingUnique(keys, Listing(names));
  }

  method WriteCanonical(out: Buffer, v: Value) returns (ok: bool)
    modifies out
    ensures ok <==> Writable(v)
    ensures ok ==> out.text == old(out.text) + Write(v)
    decreases v, 1, 0
  {
    match v {
      case Null => out.WriteString("null");
      case Bool(b) => out.WriteString(if b then "true" else "false");
      case Str(s) => WriteJSONString(out, s);
      case Num(token) =>
        var number := WrittenNumber(token);
        if !ValidInteger(number) {
          return false;
        }
        out.WriteString(number);
      case Arr(items) =>
        ok := WriteArray(out, v);
        return;
      case Obj(fields) =>
        ok := WriteObject(out, v);
        return;
    }
    ok := true;
  }

  /** What is still to be written before item i: its comma, itself, and the rest. */
  ghost function ItemsFrom(items: seq<Value>, i: nat): string
    requires i <= |items|
  {
    if i == |items| then "" else Comma(i) + WriteItems(items[i..])
  }

  lemma ItemNext(items: seq<Value>, i: nat)
    requires i < |items|
    ensures ItemsFrom(items, i) == Comma(i) + Write(items[i]) + ItemsFrom(items, i + 1)
  {
    var rest := items[i..];
    assert rest[1..] == items[i + 1..] && rest[0] == items[i];
    if |rest| == 1 {
      assert WriteItems(rest) == Write(items[i]);
    } else {
      assert WriteItems(rest) == Write(items[i]) + "," + WriteItems(items[i + 1..]);
      Appended(Comma(i), Write(items[i]), "," + WriteItems(items[i + 1..]));
      Appended(Write(items[i]), ",", WriteItems(items[i + 1..]));
    }
  }

  method WriteItemAt(out: Buffer, items: seq<Value>, i: nat, ghost goal: string) returns (ok: bool)
    requires i < |items| && out.text + ItemsFrom(items, i) == goal
    modifies out
    ensures ok <==> Writable(items[i])
    ensures ok ==> out.text + ItemsFrom(items, i + 1) == goal
    decreases items, 0, 0
  {
    ghost var before := out.text;
    ItemNext(items, i);
    WriteComma(out, i);
    ok := WriteCanonical(out, items[i]);
    Regroup(before, Comma(i), Write(items[i]), ItemsFrom(items, i + 1));
  }

  method WriteArray(out: Buffer, v: Value) returns (ok: bool)
    requires v.Arr?
    modifies out
    ensures ok <==> Writable(v)
    ensures ok ==> out.text == old(out.text) + Write(v)
    decreases v, 0, 0
  {
    ghost var goal := out.text + "[" + WriteItems(v.items);
    out.WriteString("[");
    for i := 0 to |v.items|
      invariant out.text + ItemsFrom(v.items, i) == goal
      invariant forall j | 0 <= j < i :: Writable(v.items[j])
    {
      ok := WriteItemAt(out, v.items, i, goal);
      if !ok {
        return;
      }
    }
    assert out.text == goal;
    out.WriteString("]");
    Regroup(old(out.text), "[", WriteItems(v.items), "]");
    ok := true;
  }

  ghost function MembersFrom(v: Value, keys: seq<string>, i: nat): string
    requires v.Obj? && Elements(keys) <= v.fields.Keys && i <= |keys|
  {
    if i == |keys| then ""
    else
      assert Elements(keys[i..]) <= Elements(keys);
      Comma(i) + WriteMembers(v, keys[i..])
  }

  lemma MemberNext(v: Value, keys: seq<string>, i: nat)
    requires v.Obj? && Elements(keys) <= v.fields.Keys && i < |keys|
    ensures keys[i] in v.fields
    ensures MembersFrom(v, keys, i) == Comma(i) + WriteMember(v, keys[i]) + MembersFrom(v, keys, i + 1)
  {
    assert keys[i] in Elements(keys);
    assert Elements(keys[i..]) <= Elements(keys) && Elements(keys[i + 1..]) <= Elements(keys);
    assert keys[i..][1..] == keys[i + 1..] && keys[i..][0] == keys[i];
  }

  method WriteOneMember(out: Buffer, v: Value, key: string) returns (ok: bool)
    requires v.Obj? && key in v.fields
    modifies out
    ensures ok <==> Writable(v.fields[key])
    ensures ok ==> out.text == old(out.text) + WriteMember(v, key)
    decreases v, 0, 0
  {
    ghost var start := out.text;
    WriteJSONString(out, key);
    out.WriteString(":");
    ok := WriteCanonical(out, v.fields[key]);
    Regroup(start, Quoted(key), ":", Write(v.fields[key]));
  }

  method WriteMemberAt(out: Buffer, v: Value, keys: seq<string>, i: nat, ghost goal: string) returns (ok: bool)
    requires v.Obj? && Elements(keys) <= v.fields.Keys && i < |keys| && out.text + MembersFrom(v, keys, i) == goal
    modifies out
    ensures keys[i] in v.fields && (ok <==> Writable(v.fields[keys[i]]))
    ensures ok ==> out.text + MembersFrom(v, keys, i + 1) == goal
    decreases v, 0, 1
  {
    ghost var before := out.text;
    MemberNext(v, keys, i);
    WriteComma(out, i);
    ok := WriteOneMember(out, v, keys[i]);
    Regroup(before, Comma(i), WriteMember(v, keys[i]), MembersFrom(v, keys, i + 1));
  }

  method WriteObject(out: Buffer, v: Value) returns (ok: bool)
    requires v.Obj?
    modifies out
    ensures ok <==> Writable(v)
    ensures ok ==> out.text == old(out.text) + Write(v)
    decreases v, 0, 3
  {
    var keys := SortedNames(v.fields.Keys);
    out.WriteString("{");
    ok := WriteAllMembers(out, v, keys);
    if ok {
      out.WriteString("}");
      Regroup(old(out.text), "{", WriteMembers(v, keys), "}");
    }
  }

  method WriteAllMembers(out: Buffer, v: Value, keys: seq<string>) returns (ok: bool)
    requires v.Obj? && Elements(keys) == v.fields.Keys
    modifies out
    ensures ok <==> Writable(v)
    ensures ok ==> out.text == old(out.text) + WriteMembers(v, keys)
    decreases v, 0, 2
  {
    ghost var goal := out.text + WriteMembers(v, keys);
    assert keys[0..] == keys;
    for i := 0 to |keys|
      invariant out.text + MembersFrom(v, keys, i) == goal
      invariant forall j | 0 <= j < i :: keys[j] in v.fields && Writable(v.fields[keys[j]])
    {
      ok := WriteMemberAt(out, v, keys, i, goal);
      if !ok {
        return;
      }
    }
    AllWritable(v, keys);
    assert out.text == goal;
    ok := true;
  }

  lemma AllWritable(v: Value, keys: seq<string>)
    requires v.Obj? && Elements(keys) == v.fields.Keys
    requires forall j | 0 <= j < |keys| :: keys[j] in v.fields && Writable(v.fields[keys[j]])
    ensures Writable(v)
  {
    forall k | k in v.fields ensures Writable(v.fields[k]) {
      assert k in Elements(keys);
    }
  }

  /** CanonicalizeJSON, on the characters of a text. */
  method CanonicalizeJSON(text: string) returns (canonical: Option<string>)
    ensures canonical == Canonicalize(text)
  {
    var value := ReadText(text);
    if value.None? {
      return None;
    }
    var out := new Buffer();
    var ok := WriteCanonical(out, value.value);
    if !ok {
      return None;
    }
    assert out.text == "" + Write(value.value) == Write(value.value);
    return Some(out.text);
  }
}
