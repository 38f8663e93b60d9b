/**
 * A reference reader of JSON texts (RFC 8259) into values with unique names: what decodeUnique accepts, over
 * characters rather than their UTF-8 bytes.
 */
module JsonReader {
  import opened JsonValue

  datatype Parsed<+T> = Bad | Good(value: T, rest: string)

  predicate IsBlank(c: char) {
    c == ' ' || c == '\t' || c == '\n' || c == '\r'
  }

  function SkipBlanks(s: string): (r: string)
    ensures |r| <= |s|
  {
    if s != [] && IsBlank(s[0]) then SkipBlanks(s[1..]) else s
  }

  // ---- Numbers ----

  predicate NumberChar(c: char) {
    IsDigit(c) || c == '-' || c == '+' || c == '.' || c == 'e' || c == 'E'
  }

  function NumberSpan(s: string): (n: nat)
    ensures n <= |s|
  {
    if s != [] && NumberChar(s[0]) then 1 + NumberSpan(s[1..]) else 0
  }

  function DigitSpan(s: string): (n: nat)
    ensures n <= |s|
  {
    if s != [] && IsDigit(s[0]) then 1 + DigitSpan(s[1..]) else 0
  }

  /** The exponent part of section 6 of RFC 8259, which may be absent. */
  predicate IsExponent(s: string) {
    s == [] ||
    ((s[0] == 'e' || s[0] == 'E') &&
     var t := s[1..];
     var u := if t != [] && (t[0] == '+' || t[0] == '-') then t[1..] else t;
     u != [] && AllDigits(u))
  }

  predicate IsFraction(s: string) {
    if s != [] && s[0] == '.'
    then DigitSpan(s[1..]) > 0 && IsExponent(s[1..][DigitSpan(s[1..])..])
    else IsExponent(s)
  }

  /** The number grammar of section 6 of RFC 8259. */
  predicate IsNumber(token: string) {
    var s := Unsigned(token);
    && s != [] && IsDigit(s[0])
    && (if s[0] == '0' then IsFraction(s[1..]) else IsFraction(s[DigitSpan(s)..]))
  }

  function ReadNumber(s: string): (r: Parsed<Value>)
    ensures r.Good? ==> |r.rest| < |s|
  {
    var n := NumberSpan(s);
    if n > 0 && IsNumber(s[..n]) then Good(Num(s[..n]), s[n..]) else Bad
  }

  // ---- Strings ----

  predicate IsHex(c: char) {
    IsDigit(c) || 'a' <= c <= 'f' || 'A' <= c <= 'F'
  }

  function HexValue(c: char): (n: int)
    requires IsHex(c)
    ensures 0 <= n < 16
  {
    if IsDigit(c) then c as int - '0' as int
    else if c >= 'a' then c as int - 'a' as int + 10
    else c as int - 'A' as int + 10
  }

  /** The code unit of a \u escape at the head of s. */
  function CodeUnit(s: string): (u: int)
    ensures -1 <= u < 0x10000
  {
    if |s| >= 6 && s[0] == BACKSLASH && s[1] == 'u' && IsHex(s[2]) && IsHex(s[3]) && IsHex(s[4]) && IsHex(s[5])
    then ((HexValue(s[2]) * 16 + HexValue(s[3])) * 16 + HexValue(s[4])) * 16 + HexValue(s[5])
    else -1
  }

  const REPLACEMENT: char := '\U{FFFD}'

  /** A \u escape: a surrogate pair is one character, and half of one becomes the replacement character. */
  function ReadUnit(s: string): (r: Parsed<char>)
    ensures r.Good? ==> |r.rest| < |s|
  {
    var u := CodeUnit(s);
    if u < 0 then Bad
    else if !(0xD800 <= u < 0xE000) then Good(u as char, s[6..])
    else
      var low := CodeUnit(s[6..]);
      if u < 0xDC00 && 0xDC00 <= low < 0xE000
      then Good((0x10000 + (u - 0xD800) * 0x400 + (low - 0xDC00)) as char, s[12..])
      else Good(REPLACEMENT, s[6..])
  }

  function ReadChar(s: string): (r: Parsed<char>)
    requires s != []
    ensures r.Good? ==> |r.rest| < |s|
  {
    if s[0] == BACKSLASH then
      if |s| == 1 then Bad
      else if s[1] == QUOTE || s[1] == BACKSLASH || s[1] == '/' then Good(s[1], s[2..])
      else if s[1] == 'b' then Good(BACKSPACE, s[2..])
      else if s[1] == 't' then Good('\t', s[2..])
      else if s[1] == 'n' then Good('\n', s[2..])
      else if s[1] == 'f' then Good(FORM_FEED, s[2..])
      else if s[1] == 'r' then Good('\r', s[2..])
      else if s[1] == 'u' then ReadUnit(s)
      else Bad
    else if s[0] as int < 0x20 then Bad
    else Good(s[0], s[1..])
  }

  /** The characters of a string after its opening quote. */
  function ReadChars(s: string): (r: Parsed<string>)
    ensures r.Good? ==> |r.rest| < |s|
  {
    if s == [] then Bad
    else if s[0] == QUOTE then Good("", s[1..])
    else
      match ReadChar(s)
      case Bad => Bad
      case Good(c, rest) =>
        match ReadChars(rest)
        case Bad => Bad
        case Good(more, tail) => Good([c] + more, tail)
  }

  // ---- Values ----

  function ReadWord(s: string, word: string, v: Value): (r: Parsed<Value>)
    requires word != []
    ensures r.Good? ==> |r.rest| < |s|
  {
    if word <= s then Good(v, s[|word|..]) else Bad
  }

  function ReadValue(s: string): (r: Parsed<Value>)
    ensures r.Good? ==> |r.rest| < |s|
    decreases |s|, 2
  {
    var t := SkipBlanks(s);
    if t == [] then Bad
    else if t[0] == QUOTE then
      match ReadChars(t[1..])
      case Bad => Bad
      case Good(text, rest) => Good(Str(text), rest)
    else if t[0] == '[' then
      var u := SkipBlanks(t[1..]);
      if u != [] && u[0] == ']' then Good(Arr([]), u[1..]) else ReadItems(u, [])
    else if t[0] == '{' then
      var u := SkipBlanks(t[1..]);
      if u != [] && u[0] == '}' then Good(Obj(map[]), u[1..]) else ReadMembers(u, map[])
    else if t[0] == 'n' then ReadWord(t, "null", Null)
    else if t[0] == 't' then ReadWord(t, "true", Bool(true))
    else if t[0] == 'f' then ReadWord(t, "false", Bool(false))
    else ReadNumber(t)
  }

  /** One item, and after a comma the next. */
  function ReadItems(s: string, items: seq<Value>): (r: Parsed<Value>)
    ensures r.Good? ==> |r.rest| < |s|
    decreases |s|, 3
  {
    match ReadValue(s)
    case Bad => Bad
    case Good(v, rest) =>
      var t := SkipBlanks(rest);
      if t == [] then Bad
      else if t[0] == ']' then Good(Arr(items + [v]), t[1..])
      else if t[0] == ',' then ReadItems(t[1..], items + [v])
      else Bad
  }

  function ReadName(s: string): (r: Parsed<string>)
    ensures r.Good? ==> |r.rest| < |s|
  {
    var t := SkipBlanks(s);
    if t == [] || t[0] != QUOTE then Bad
    else
      match ReadChars(t[1..])
      case Bad => Bad
      case Good(name, rest) =>
        var u := SkipBlanks(rest);
        if u == [] || u[0] != ':' then Bad else Good(name, u[1..])
  }

  /** One member under a name not seen before, and after a comma the next. */
  function ReadMembers(s: string, fields: map<string, Value>): (r: Parsed<Value>)
    ensures r.Good? ==> |r.rest| < |s|
    decreases |s|, 3
  {
    match ReadName(s)
    case Bad => Bad
    case Good(name, after) =>
      if name in fields then Bad
      else
        match ReadValue(after)
        case Bad => Bad
        case Good(v, rest) =>
          var t := SkipBlanks(rest);
          if t == [] then Bad
          else if t[0] == '}' then Good(Obj(fields[name := v]), t[1..])
          else if t[0] == ',' then ReadMembers(t[1..], fields[name := v])
          else Bad
  }
}
