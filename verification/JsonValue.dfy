/** JSON values and the canonical text of section 3.2 of RFC 8785, for integer numbers. */
module JsonValue {
  import opened Wrappers
  import opened Utf16Order
  import StableSort

  /** A number keeps its token, as the source's decoder does. */
  datatype Value =
    | Null | Bool(b: bool) | Num(token: string) | Str(s: string) | Arr(items: seq<Value>)
    | Obj(fields: map<string, Value>)

  // ---- Numbers ----

  const LARGEST := 9007199254740991

  predicate IsDigit(c: char) {
    '0' <= c <= '9'
  }

  predicate AllDigits(s: string) {
    forall i | 0 <= i < |s| :: IsDigit(s[i])
  }

  function Magnitude(digits: string): nat
    requires AllDigits(digits)
  {
    if digits == [] then 0
    else Magnitude(digits[..|digits| - 1]) * 10 + (digits[|digits| - 1] as int - '0' as int)
  }

  function Unsigned(token: string): string {
    if token != [] && token[0] == '-' then token[1..] else token
  }

  /** validInteger: no sign on zero, no leading zero, and exactly representable in a double. */
  predicate ValidInteger(token: string) {
    token == "0" ||
    var digits := Unsigned(token);
    digits != [] && digits[0] != '0' && AllDigits(digits) && Magnitude(digits) <= LARGEST
  }

  function WrittenNumber(token: string): string {
    if token == "-0" then "0" else token
  }

  // ---- Normal form ----

  /** Every number in the value may be written. */
  predicate Writable(v: Value) {
    match v
    case Num(token) => ValidInteger(WrittenNumber(token))
    case Arr(items) => forall i | 0 <= i < |items| :: Writable(items[i])
    case Obj(fields) => forall k | k in fields :: Writable(fields[k])
    case _ => true
  }

  /** The value with -0 written as 0. */
  function Norm(v: Value): Value {
    match v
    case Num(token) => Num(WrittenNumber(token))
    case Arr(items) => Arr(NormItems(items))
    case Obj(fields) => Obj(map k | k in fields :: Norm(fields[k]))
    case _ => v
  }

  function NormItems(items: seq<Value>): (r: seq<Value>)
    ensures |r| == |items|
  {
    if items == [] then [] else [Norm(items[0])] + NormItems(items[1..])
  }

  // ---- Strings ----

  const QUOTE: char := '"'
  const BACKSLASH: char := '\\'
  const BACKSPACE: char := '\U{08}'
  const FORM_FEED: char := '\U{0C}'

  function HexDigit(n: int): char
    requires 0 <= n < 16
  {
    if n < 10 then ('0' as int + n) as char else ('a' as int + n - 10) as char
  }

  function Escape(c: char): string {
    if c == QUOTE || c == BACKSLASH then [BACKSLASH, c]
    else if c == BACKSPACE then [BACKSLASH, 'b']
    else if c == '\t' then [BACKSLASH, 't']
    else if c == '\n' then [BACKSLASH, 'n']
    else if c == FORM_FEED then [BACKSLASH, 'f']
    else if c == '\r' then [BACKSLASH, 'r']
    else if c as int < 0x20 then [BACKSLASH, 'u', '0', '0', HexDigit(c as int / 16), HexDigit(c as int % 16)]
    else [c]
  }

  function Escaped(s: string): string {
    if s == [] then [] else Escape(s[0]) + Escaped(s[1..])
  }

  function Quoted(s: string): string {
    [QUOTE] + Escaped(s) + [QUOTE]
  }

  // ---- The canonical text ----

  ghost predicate IsListing(keys: seq<string>, names: set<string>) {
    StrictlySorted(keys) && Elements(keys) == names
  }

  lemma {:induction false} ListingExists(names: set<string>) returns (keys: seq<string>)
    ensures IsListing(keys, names)
  {
    var some := [];
    var left := names;
    while left != {}
      invariant left <= names && Elements(some) == names - left
      invariant forall i, j | 0 <= i < j < |some| :: some[i] != some[j]
      decreases left
    {
      var k :| k in left;
      assert k !in Elements(some);
      assert Elements(some + [k]) == Elements(some) + {k};
      some, left := some + [k], left - {k};
    }
    SortedListing(some);
    keys := StableSort.Sort(some, UTF16_ORDER);
  }

  /** The names of an object in canonical order. */
  ghost function Listing(names: set<string>): (keys: seq<string>)
    ensures IsListing(keys, names)
  {
    assert exists keys :: IsListing(keys, names) by {
      var keys := ListingExists(names);
    }
    var keys :| IsListing(keys, names);
    keys
  }

  ghost function Write(v: Value): string
    decreases v, 1, 0
  {
    match v
    case Null => "null"
    case Bool(b) => if b then "true" else "false"
    case Num(token) => WrittenNumber(token)
    case Str(s) => Quoted(s)
    case Arr(items) => "[" + WriteItems(items) + "]"
    case Obj(fields) => "{" + WriteMembers(v, Listing(fields.Keys)) + "}"
  }

  ghost function WriteItems(items: seq<Value>): string
    decreases items, 0, 0
  {
    if items == [] then ""
    else if |items| == 1 then Write(items[0])
    else Write(items[0]) + "," + WriteItems(items[1..])
  }

  ghost function WriteMember(v: Value, key: string): string
    requires v.Obj? && key in v.fields
    decreases v, 0, 0
  {
    Quoted(key) + ":" + Write(v.fields[key])
  }

  ghost function WriteMembers(v: Value, keys: seq<string>): string
    requires v.Obj? && Elements(keys) <= v.fields.Keys
    decreases v, 0, |keys| + 1
  {
    if keys == [] then ""
    else
      assert keys[0] in Elements(keys);
      assert Elements(keys[1..]) <= Elements(keys);
      if |keys| == 1 then WriteMember(v, keys[0])
      else WriteMember(v, keys[0]) + "," + WriteMembers(v, keys[1..])
  }
}
