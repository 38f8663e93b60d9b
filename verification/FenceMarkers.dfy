/** stripBrowserFenceMarkers: a page cannot put a fence marker into the text of a stripped field. */
module FenceMarkers {
  import opened Text

  const OPEN := "<<<BEGIN UNTRUSTED PAGE CONTENT>>>"
  const CLOSE := "<<<END UNTRUSTED PAGE CONTENT>>>"
  const REDACTION := "[fence marker removed]"

  /** Left to right, occurrences that do not overlap. */
  function ReplaceAll(s: string, marker: string, replacement: string): string
    requires marker != []
  {
    if s == [] then []
    else if marker <= s then replacement + ReplaceAll(s[|marker|..], marker, replacement)
    else [s[0]] + ReplaceAll(s[1..], marker, replacement)
  }

  function StripFenceMarkers(s: string): string {
    ReplaceAll(ReplaceAll(s, OPEN, REDACTION), CLOSE, REDACTION)
  }

  /** The replacement can neither begin a marker nor stand inside one. */
  predicate Inert(marker: string, replacement: string) {
    marker != [] && replacement != [] && marker[0] !in replacement && replacement[0] !in marker
  }

  lemma ReplacedHead(s: string, marker: string, replacement: string)
    requires marker != [] && replacement != [] && marker <= s
    ensures ReplaceAll(s, marker, replacement) != [] && ReplaceAll(s, marker, replacement)[0] == replacement[0]
  {
  }

  /** What the output starts with the input started with, unless it needs the replacement. */
  lemma {:induction false} OutputPrefix(s: string, marker: string, replacement: string, p: string)
    requires marker != [] && replacement != [] && replacement[0] !in p
    ensures p <= ReplaceAll(s, marker, replacement) ==> p <= s
  {
    var out := ReplaceAll(s, marker, replacement);
    if p == [] || s == [] {
    } else if marker <= s {
      ReplacedHead(s, marker, replacement);
      assert p[0] in p;
      assert out[0] != p[0];
    } else {
      OutputPrefix(s[1..], marker, replacement, p[1..]);
      assert out[1..] == ReplaceAll(s[1..], marker, replacement);
      assert p == [p[0]] + p[1..] && s == [s[0]] + s[1..];
      if p <= out {
        assert p[1..] == out[1..][..|p| - 1];
      }
    }
  }

  predicate Free(s: string, marker: string) {
    forall i | 0 <= i <= |s| :: !OccursAt(s, marker, i)
  }

  lemma FreeTail(s: string, marker: string, n: nat)
    requires Free(s, marker) && n <= |s|
    ensures Free(s[n..], marker)
  {
    forall i | 0 <= i <= |s[n..]| ensures !OccursAt(s[n..], marker, i) {
      assert s[n..][i..] == s[n + i..];
      assert !OccursAt(s, marker, n + i);
    }
  }

  lemma FreeAfterReplacement(replacement: string, rest: string, target: string)
    requires Inert(target, replacement) && Free(rest, target)
    ensures Free(replacement + rest, target)
  {
    var out := replacement + rest;
    forall i | 0 <= i <= |out| ensures !OccursAt(out, target, i) {
      if i < |replacement| {
        assert out[i] == replacement[i];
      } else {
        assert !OccursAt(rest, target, i - |replacement|);
        assert i <= |out| - |target| ==> out[i..i + |target|] == rest[i - |replacement|..i - |replacement| + |target|];
      }
    }
  }

  lemma FreeAfterChar(c: char, rest: string, target: string)
    requires target != [] && Free(rest, target) && !(target <= [c] + rest)
    ensures Free([c] + rest, target)
  {
    var out := [c] + rest;
    forall i | 0 <= i <= |out| ensures !OccursAt(out, target, i) {
      if i > 0 {
        assert !OccursAt(rest, target, i - 1);
        assert i <= |out| - |target| ==> out[i..i + |target|] == rest[i - 1..i - 1 + |target|];
      }
    }
  }

  /** The output has no marker that is either being replaced or was not there before. */
  lemma {:induction false} OutputFree(s: string, marker: string, replacement: string, target: string)
    requires marker != [] && Inert(target, replacement)
    requires target == marker || Free(s, target)
    ensures Free(ReplaceAll(s, marker, replacement), target)
  {
    if s == [] {
    } else if marker <= s {
      if target != marker {
        FreeTail(s, target, |marker|);
      }
      OutputFree(s[|marker|..], marker, replacement, target);
      FreeAfterReplacement(replacement, ReplaceAll(s[|marker|..], marker, replacement), target);
    } else {
      if target != marker {
        assert !OccursAt(s, target, 0);
        FreeTail(s, target, 1);
      }
      OutputFree(s[1..], marker, replacement, target);
      OutputPrefix(s, marker, replacement, target);
      FreeAfterChar(s[0], ReplaceAll(s[1..], marker, replacement), target);
    }
  }

  lemma {:induction false} NothingToReplace(s: string, marker: string, replacement: string)
    requires marker != [] && Free(s, marker)
    ensures ReplaceAll(s, marker, replacement) == s
  {
    if s != [] {
      assert s[0..] == s && !OccursAt(s, marker, 0);
      FreeTail(s, marker, 1);
      NothingToReplace(s[1..], marker, replacement);
      assert s == [s[0]] + s[1..];
    }
  }

  lemma MarkersInert()
    ensures Inert(OPEN, REDACTION) && Inert(CLOSE, REDACTION)
  {
  }

  /** For every input the stripped text contains neither fence marker. */
  lemma StrippedIsFree(s: string)
    ensures Free(StripFenceMarkers(s), OPEN) && Free(StripFenceMarkers(s), CLOSE)
  {
    MarkersInert();
    var once := ReplaceAll(s, OPEN, REDACTION);
    OutputFree(s, OPEN, REDACTION, OPEN);
    OutputFree(once, CLOSE, REDACTION, OPEN);
    OutputFree(once, CLOSE, REDACTION, CLOSE);
  }

  /** Text without markers is unchanged, and only such text is. */
  lemma StripIdentity(s: string)
    ensures StripFenceMarkers(s) == s <==> Free(s, OPEN) && Free(s, CLOSE)
  {
    if Free(s, OPEN) && Free(s, CLOSE) {
      NothingToReplace(s, OPEN, REDACTION);
      NothingToReplace(s, CLOSE, REDACTION);
    }
    StrippedIsFree(s);
  }

  lemma StripIdempotent(s: string)
    ensures StripFenceMarkers(StripFenceMarkers(s)) == StripFenceMarkers(s)
  {
    StrippedIsFree(s);
    StripIdentity(StripFenceMarkers(s));
  }

  lemma SpliceAround(marker: string, k: nat)
    requires 0 < k < |marker| && marker[k - 1] != marker[k]
    ensures ReplaceAll(marker[..1] + marker + marker[1..], marker, "") == marker
  {
    var tail := marker + marker[1..];
    var s := marker[..1] + tail;
    assert s == marker[..1] + marker + marker[1..];
    assert s[k] == marker[k - 1];
    assert s[1..] == tail && tail[|marker|..] == marker[1..];
    ShorterIsKept(marker[1..], marker);
    assert [s[0]] + marker[1..] == marker;
  }

  /** Deleting instead would splice: what is left around a deleted marker can be a marker itself. */
  lemma DeletionSplices()
    ensures ReplaceAll(CLOSE[..1] + CLOSE + CLOSE[1..], CLOSE, "") == CLOSE
  {
    SpliceAround(CLOSE, 3);
  }

  lemma ShorterIsKept(s: string, marker: string)
    requires |s| < |marker|
    ensures ReplaceAll(s, marker, "") == s
  {
    forall i | 0 <= i <= |s| ensures !OccursAt(s, marker, i) {
    }
    NothingToReplace(s, marker, "");
  }
}
