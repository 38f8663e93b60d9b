/** The text primitives of the context package, over sequences of Unicode scalar values. */
module Text {
  const NEWLINE: char := '\n'

  /** unicode.IsSpace. */
  predicate IsSpace(c: char) {
    c == ' ' || '\t' <= c <= '\r' || c == '\U{85}' || c == '\U{A0}' || c == '\U{1680}' ||
    '\U{2000}' <= c <= '\U{200A}' || c == '\U{2028}' || c == '\U{2029}' || c == '\U{202F}' ||
    c == '\U{205F}' || c == '\U{3000}'
  }

  function TrimRight(s: string): string {
    if s != [] && IsSpace(s[|s| - 1]) then TrimRight(s[..|s| - 1]) else s
  }

  function TrimLeft(s: string): string {
    if s != [] && IsSpace(s[0]) then TrimLeft(s[1..]) else s
  }

  /** strings.TrimSpace. */
  function TrimSpace(s: string): string {
    TrimRight(TrimLeft(s))
  }

  predicate OccursAt(s: string, part: string, i: int) {
    0 <= i <= |s| - |part| && s[i..i + |part|] == part
  }

  /** strings.Contains. */
  predicate Contains(s: string, part: string) {
    exists i | 0 <= i <= |s| :: OccursAt(s, part, i)
  }

  /** strings.Index for one character; |s| stands for "absent". */
  function IndexOf(s: string, c: char): (i: nat)
    ensures i <= |s|
    ensures i < |s| ==> s[i] == c
    ensures c !in s[..i]
  {
    if s == [] || s[0] == c then 0 else 1 + IndexOf(s[1..], c)
  }

  /** strings.Split on a newline: always at least one piece. */
  function Split(s: string): (lines: seq<string>)
    ensures |lines| > 0
  {
    if s == [] then [""]
    else
      var rest := Split(s[1..]);
      if s[0] == NEWLINE then [""] + rest else [[s[0]] + rest[0]] + rest[1..]
  }

  /** strings.Join. */
  function Join(parts: seq<string>, separator: string): string {
    if parts == [] then ""
    else if |parts| == 1 then parts[0]
    else parts[0] + separator + Join(parts[1..], separator)
  }

  /** Every line followed by its newline. */
  function Unlines(lines: seq<string>): string {
    if lines == [] then "" else lines[0] + [NEWLINE] + Unlines(lines[1..])
  }

  /** strings.Fields: the maximal runs of non-space characters. */
  function Fields(s: string): (words: seq<string>)
    ensures forall w | w in words :: w != [] && forall c | c in w :: !IsSpace(c)
    decreases |s|
  {
    var t := TrimLeft(s);
    TrimLeftShorter(s);
    if t == [] then []
    else
      var end := WordEnd(t);
      [t[..end]] + Fields(t[end..])
  }

  function WordEnd(s: string): (end: nat)
    ensures end <= |s|
    ensures s != [] && !IsSpace(s[0]) ==> end > 0
    ensures forall c | c in s[..end] :: !IsSpace(c)
    ensures end < |s| ==> IsSpace(s[end])
  {
    if s == [] || IsSpace(s[0]) then 0 else 1 + WordEnd(s[1..])
  }

  lemma TrimLeftShorter(s: string)
    ensures |TrimLeft(s)| <= |s|
    ensures TrimLeft(s) != [] ==> !IsSpace(TrimLeft(s)[0])
  {
  }

  /** compactWhitespace: every run of white space becomes one space. */
  function CompactWhitespace(s: string): string {
    Join(Fields(s), " ")
  }

  /** The decimal digits fmt's %d writes. */
  function Decimal(n: int): (digits: string)
    ensures forall c | c in digits :: c == '-' || '0' <= c <= '9'
    decreases n < 0, if n < 0 then -n else n
  {
    if n < 0 then "-" + Decimal(-n)
    else if n < 10 then [('0' as int + n) as char]
    else Decimal(n / 10) + Decimal(n % 10)
  }

  // ---- Joining, splitting and trimming agree ----

  predicate NoNewline(s: string) {
    NEWLINE !in s
  }

  lemma {:induction false} SplitLine(line: string, rest: string)
    requires NoNewline(line)
    ensures Split(line + [NEWLINE] + rest) == [line] + Split(rest)
  {
    var s := line + [NEWLINE] + rest;
    if line == [] {
      assert s[1..] == rest;
    } else {
      assert s[1..] == line[1..] + [NEWLINE] + rest;
      SplitLine(line[1..], rest);
      assert [line[0]] + line[1..] == line;
    }
  }

  /** Splitting undoes Unlines, up to the empty piece after the last newline. */
  lemma {:induction false} SplitUnlines(lines: seq<string>)
    requires forall line | line in lines :: NoNewline(line)
    ensures Split(Unlines(lines)) == lines + [""]
  {
    if lines != [] {
      SplitUnlines(lines[1..]);
      SplitLine(lines[0], Unlines(lines[1..]));
      assert lines == [lines[0]] + lines[1..];
    }
  }

  /** A newline at the end opens one more, empty, piece. */
  lemma {:induction false} SplitSnocNewline(s: string)
    ensures Split(s + [NEWLINE]) == Split(s) + [""]
  {
    var t := s + [NEWLINE];
    if s == [] {
      assert t[1..] == s;
    } else {
      assert t[1..] == s[1..] + [NEWLINE];
      SplitSnocNewline(s[1..]);
    }
  }

  /** Any other character at the end extends the last piece. */
  lemma {:induction false} SplitSnocChar(s: string, c: char)
    requires c != NEWLINE
    ensures |Split(s + [c])| == |Split(s)|
    ensures forall k | 0 <= k < |Split(s)| ::
      Split(s + [c])[k] == if k == |Split(s)| - 1 then Split(s)[k] + [c] else Split(s)[k]
  {
    var t := s + [c];
    if s == [] {
      assert t[1..] == s;
      assert Split(t)[0] == [c];
    } else {
      assert t[1..] == s[1..] + [c];
      SplitSnocChar(s[1..], c);
      var rest, rest' := Split(s[1..]), Split(t[1..]);
      if s[0] != NEWLINE && |rest| == 1 {
        assert Split(t)[0] == [s[0]] + (rest[0] + [c]) == ([s[0]] + rest[0]) + [c];
      }
    }
  }

  lemma {:induction false} UnlinesAppend(a: seq<string>, b: seq<string>)
    ensures Unlines(a + b) == Unlines(a) + Unlines(b)
  {
    if a == [] {
      assert a + b == b;
    } else {
      UnlinesAppend(a[1..], b);
      assert (a + b)[1..] == a[1..] + b;
    }
  }

  /** A non-empty block joined by newlines and closed by one is its Unlines. */
  lemma {:induction false} JoinIsUnlines(lines: seq<string>)
    requires lines != []
    ensures Join(lines, [NEWLINE]) + [NEWLINE] == Unlines(lines)
  {
    if |lines| == 1 {
      assert lines[1..] == [];
    } else {
      JoinIsUnlines(lines[1..]);
    }
  }

  lemma {:induction false} TrimRightSpace(s: string, c: char)
    requires IsSpace(c)
    ensures TrimSpace(s + [c]) == TrimSpace(s)
  {
    if s == [] {
      assert s + [c] == [c];
      assert TrimLeft([c]) == TrimLeft([]);
    } else if IsSpace(s[0]) {
      assert (s + [c])[1..] == s[1..] + [c];
      TrimRightSpace(s[1..], c);
    } else {
      assert (s + [c])[..|s|] == s;
    }
  }

  lemma {:induction false} TrimRightIsPrefix(s: string)
    ensures TrimRight(s) <= s
    ensures forall k | |TrimRight(s)| <= k < |s| :: IsSpace(s[k])
  {
    if s != [] && IsSpace(s[|s| - 1]) {
      TrimRightIsPrefix(s[..|s| - 1]);
    }
  }

  /** A part that does not end in white space survives right-trimming. */
  lemma ContainsAfterTrim(s: string, part: string)
    requires part != [] && !IsSpace(part[|part| - 1])
    ensures Contains(TrimRight(s), part) <==> Contains(s, part)
  {
    TrimRightIsPrefix(s);
    var t := TrimRight(s);
    if Contains(t, part) {
      var i :| 0 <= i <= |t| && OccursAt(t, part, i);
      assert OccursAt(s, part, i);
    }
    if Contains(s, part) {
      var i :| 0 <= i <= |s| && OccursAt(s, part, i);
      assert s[i + |part| - 1] == part[|part| - 1];
      assert OccursAt(t, part, i);
    }
  }

  lemma ContainsAppend(a: string, b: string, part: string)
    requires Contains(a, part) || Contains(b, part)
    ensures Contains(a + b, part)
  {
    if Contains(a, part) {
      var i :| 0 <= i <= |a| && OccursAt(a, part, i);
      assert OccursAt(a + b, part, i);
    } else {
      var i :| 0 <= i <= |b| && OccursAt(b, part, i);
      assert OccursAt(a + b, part, |a| + i);
    }
  }

  /** A part spanning an occurrence of c contains c. */
  lemma ContainsAcross(a: string, c: char, b: string, part: string)
    requires part != []
    requires Contains(a + [c] + b, part)
    ensures c in part || Contains(a, part) || Contains(b, part)
  {
    var s := a + [c] + b;
    var i :| 0 <= i <= |s| && OccursAt(s, part, i);
    if i + |part| <= |a| {
      assert OccursAt(a, part, i);
    } else if i <= |a| {
      assert part[|a| - i] == s[|a|];
    } else {
      var j := i - |a| - 1;
      assert b == s[|a| + 1..|s|];
      SliceOfSlice(s, |a| + 1, |s|, j, j + |part|);
      assert OccursAt(b, part, j);
    }
  }

  /** A newline-free part occurs in the lines exactly when it occurs in one line. */
  lemma {:induction false} ContainsUnlines(lines: seq<string>, part: string)
    requires part != [] && NoNewline(part)
    ensures Contains(Unlines(lines), part) <==> exists k | 0 <= k < |lines| :: Contains(lines[k], part)
  {
    if lines != [] {
      var rest := lines[1..];
      ContainsUnlines(rest, part);
      if Contains(Unlines(lines), part) {
        ContainsAcross(lines[0], NEWLINE, Unlines(rest), part);
        if !Contains(lines[0], part) {
          var k :| 0 <= k < |rest| && Contains(rest[k], part);
          assert Contains(lines[k + 1], part);
        }
      }
      if k :| 0 <= k < |lines| && Contains(lines[k], part) {
        if k > 0 {
          assert Contains(rest[k - 1], part);
        }
        if Contains(lines[0], part) {
          ContainsAppend(lines[0], [NEWLINE], part);
        }
        ContainsAppend(lines[0] + [NEWLINE], Unlines(rest), part);
      }
    }
  }

  lemma {:induction false} JoinHasNoNewline(parts: seq<string>)
    requires forall p | p in parts :: NoNewline(p)
    ensures NoNewline(Join(parts, " "))
  {
    if |parts| == 1 {
      assert parts[0] in parts;
    } else if parts != [] {
      assert NoNewline(parts[0]);
      JoinHasNoNewline(parts[1..]);
    }
  }

  lemma CompactHasNoNewline(s: string)
    ensures NoNewline(CompactWhitespace(s))
  {
    assert IsSpace(NEWLINE);
    JoinHasNoNewline(Fields(s));
  }

  // ---- Parts of texts ----

  lemma SliceOfSlice<T>(s: seq<T>, start: nat, stop: nat, from: nat, to: nat)
    requires start <= stop <= |s| && from <= to <= stop - start
    ensures s[start..stop][from..to] == s[start + from..start + to]
  {
    var a, b := s[start..stop][from..to], s[start + from..start + to];
    assert |a| == |b| && forall k | 0 <= k < |a| :: a[k] == b[k];
  }

  lemma ContainsTransitive(s: string, part: string, inner: string)
    requires Contains(s, part) && Contains(part, inner)
    ensures Contains(s, inner)
  {
    var i :| 0 <= i <= |s| && OccursAt(s, part, i);
    var j :| 0 <= j <= |part| && OccursAt(part, inner, j);
    SliceOfSlice(s, i, i + |part|, j, j + |inner|);
    assert OccursAt(s, inner, i + j);
  }

  lemma SliceOccurs(s: string, start: nat, stop: nat)
    requires start <= stop <= |s|
    ensures Contains(s, s[start..stop])
  {
    assert OccursAt(s, s[start..stop], start);
  }

  /** What a window of a text contains, the text contains. */
  lemma WindowContains(s: string, start: nat, stop: nat, part: string)
    requires start <= stop <= |s| && Contains(s[start..stop], part)
    ensures Contains(s, part)
  {
    SliceOccurs(s, start, stop);
    ContainsTransitive(s, s[start..stop], part);
  }

  /** A text that lacks a character of a part lacks the part. */
  lemma LacksPart(s: string, part: string, k: nat)
    requires k < |part| && part[k] !in s
    ensures !Contains(s, part)
  {
    forall i | 0 <= i <= |s| ensures !OccursAt(s, part, i) {
      if i + |part| <= |s| {
        assert s[i..i + |part|][k] == s[i + k];
      }
    }
  }

  /** A part that cannot begin in the first text lies in the second. */
  lemma ContainsAfter(a: string, b: string, part: string)
    requires part != [] && part[0] !in a && Contains(a + b, part)
    ensures Contains(b, part)
  {
    var s := a + b;
    var i :| 0 <= i <= |s| && OccursAt(s, part, i);
    assert s[i..i + |part|][0] == s[i];
    assert i >= |a| && b == s[|a|..|s|];
    SliceOfSlice(s, |a|, |s|, i - |a|, i - |a| + |part|);
    assert OccursAt(b, part, i - |a|);
  }

  /** Every field is a piece of the text. */
  lemma {:induction false} FieldOccurs(s: string, w: string)
    requires w in Fields(s)
    ensures Contains(s, w)
    decreases |s|
  {
    var t := TrimLeft(s);
    TrimLeftShorter(s);
    TrimLeftIsSuffix(s);
    var end := WordEnd(t);
    if w == t[..end] {
      SliceOccurs(t, 0, end);
    } else {
      FieldOccurs(t[end..], w);
      assert t[end..] == t[end..|t|];
      WindowContains(t, end, |t|, w);
    }
    WindowContains(s, |s| - |t|, |s|, w);
  }

  lemma {:induction false} TrimLeftIsSuffix(s: string)
    ensures |TrimLeft(s)| <= |s| && TrimLeft(s) == s[|s| - |TrimLeft(s)|..|s|]
  {
    if s != [] && IsSpace(s[0]) {
      TrimLeftIsSuffix(s[1..]);
      var t := TrimLeft(s);
      SliceOfSlice(s, 1, |s|, |s| - 1 - |t|, |s| - 1);
      assert s[1..] == s[1..|s|];
    }
  }

  lemma {:induction false} JoinContains(words: seq<string>, part: string) returns (w: string)
    requires part != [] && ' ' !in part && Contains(Join(words, " "), part)
    ensures w in words && Contains(w, part)
  {
    LacksPartEmpty(part);
    assert words != [];
    if |words| == 1 {
      w := words[0];
    } else {
      assert Join(words, " ") == words[0] + [' '] + Join(words[1..], " ");
      ContainsAcross(words[0], ' ', Join(words[1..], " "), part);
      if Contains(words[0], part) {
        w := words[0];
      } else {
        w := JoinContains(words[1..], part);
      }
    }
  }

  lemma LacksPartEmpty(part: string)
    requires part != []
    ensures !Contains("", part)
  {
  }

  /** Compacting white space cannot make a part appear that has none. */
  lemma CompactContains(s: string, part: string)
    requires part != [] && ' ' !in part && Contains(CompactWhitespace(s), part)
    ensures Contains(s, part)
  {
    var w := JoinContains(Fields(s), part);
    FieldOccurs(s, w);
    ContainsTransitive(s, w, part);
  }
}
