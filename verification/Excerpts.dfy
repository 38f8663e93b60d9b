/** Bounded excerpts of a fragment (hintedExcerpt, focusedExcerpt, evenSlices) and the chunk spans that aim them. */
module Excerpts {
  import opened Wrappers
  import opened Text
  import opened ContextTypes
  import Preparation

  const ELLIPSIS := "\U{2026}"

  /** Where the lexical search wants the window: around a term, at a start, or no preference. */
  datatype Anchor = Mark(at: nat) | WindowAt(start: nat) | Nowhere

  datatype Span = Span(start: nat, stop: nat)

  predicate InText(span: Span, length: nat) {
    span.start <= span.stop <= length
  }

  /** A window of the text, with a mark on every side where something is missing. */
  function Cut(content: string, span: Span): string
    requires InText(span, |content|)
  {
    (if span.start > 0 then ELLIPSIS + " " else "") + content[span.start..span.stop]
    + (if span.stop < |content| then " " + ELLIPSIS else "")
  }

  function SlideIntoText(start: nat, width: nat, length: nat): (span: Span)
    requires width <= length
    ensures InText(span, length) && span.stop - span.start == width
  {
    if start + width > length then Span(length - width, length) else Span(start, start + width)
  }

  predicate Usable(hint: SemanticHint, length: nat) {
    hint.end > hint.start >= 0 && hint.start < length
  }

  /** The window hintedExcerpt opens for a usable hint in a text longer than the limit. */
  function HintWindow(hint: SemanticHint, maxRunes: nat, length: nat): (span: Span)
    requires maxRunes <= length && Usable(hint, length)
    ensures InText(span, length) && span.stop - span.start == maxRunes
  {
    var passage := Min(hint.end, length) - hint.start;
    var lead := if passage < maxRunes then (maxRunes - passage) / 2 else 0;
    SlideIntoText(if hint.start > lead then hint.start - lead else if lead > 0 then 0 else hint.start, maxRunes, length)
  }

  function EvenSlices(content: string, maxRunes: nat): string {
    if |content| <= maxRunes then content
    else
      var width := maxRunes / 3;
      if width < 1 then Preparation.HeadTail(content, maxRunes)
      else
        var middle, last := (|content| - width) / 2, |content| - width;
        content[..width] + " " + ELLIPSIS + " " + content[middle..middle + width]
        + " " + ELLIPSIS + " " + content[last..]
  }

  function FocusedExcerpt(content: string, maxRunes: nat, anchor: Anchor): string {
    if |content| <= maxRunes then content
    else
      match anchor
      case Mark(at) =>
        var start := if at > maxRunes / 2 then at - maxRunes / 2 else 0;
        Cut(content, SlideIntoText(start, maxRunes, |content|))
      case WindowAt(start) => Cut(content, SlideIntoText(start, maxRunes, |content|))
      case Nowhere => EvenSlices(content, maxRunes)
  }

  function HintedExcerpt(content: string, maxRunes: nat, hint: SemanticHint, anchor: Anchor): string {
    if |content| <= maxRunes then content
    else if Usable(hint, |content|) then Cut(content, HintWindow(hint, maxRunes, |content|))
    else FocusedExcerpt(content, maxRunes, anchor)
  }

  /** An excerpt never introduces a line break. */
  lemma ExcerptHasNoNewline(content: string, maxRunes: nat, hint: SemanticHint, anchor: Anchor)
    requires NoNewline(content)
    ensures NoNewline(HintedExcerpt(content, maxRunes, hint, anchor))
  {
    forall span | InText(span, |content|) ensures NoNewline(Cut(content, span)) {
      CutHasNoNewline(content, span);
    }
    SlicesHaveNoNewline(content, maxRunes);
  }

  lemma CutHasNoNewline(content: string, span: Span)
    requires NoNewline(content) && InText(span, |content|)
    ensures NoNewline(Cut(content, span))
  {
  }

  lemma SlicesHaveNoNewline(content: string, maxRunes: nat)
    requires NoNewline(content)
    ensures NoNewline(EvenSlices(content, maxRunes))
  {
  }

  // ---- Chunk spans ----

  const CHUNK_RUNES := 500
  const CHUNK_OVERLAP := 100
  const STRIDE := CHUNK_RUNES - CHUNK_OVERLAP

  /** ChunkSpan: the rune range of a chunk index. */
  function ChunkSpan(index: int, length: nat): (span: Span)
    ensures InText(span, length)
  {
    var start := if index <= 0 then 0 else index * STRIDE;
    var clamped := if start > length then length else start;
    Span(clamped, Min(clamped + CHUNK_RUNES, length))
  }

  function ChunkCount(length: nat): (n: nat)
    ensures n > 0
  {
    if length <= CHUNK_RUNES then 1 else 1 + (length - CHUNK_RUNES + STRIDE - 1) / STRIDE
  }

  /** Chunk: overlapping windows, each exactly the range ChunkSpan names. */
  method Chunk(text: string) returns (chunks: seq<string>)
    ensures |chunks| == ChunkCount(|text|)
    ensures forall i | 0 <= i < |chunks| ::
      chunks[i] == text[ChunkSpan(i, |text|).start..ChunkSpan(i, |text|).stop]
  {
    if |text| <= CHUNK_RUNES {
      assert text[..|text|] == text;
      return [text];
    }
    chunks := [];
    var start := 0;
    while start < |text|
      invariant start == |chunks| * STRIDE
      invariant start + CHUNK_OVERLAP < |text|
      invariant forall i | 0 <= i < |chunks| ::
        chunks[i] == text[ChunkSpan(i, |text|).start..ChunkSpan(i, |text|).stop]
      decreases |text| - start
    {
      var end := start + CHUNK_RUNES;
      if end >= |text| {
        chunks := chunks + [text[start..]];
        break;
      }
      chunks := chunks + [text[start..end]];
      start := start + STRIDE;
    }
  }

  /** Any passage no longer than the overlap lies whole inside one chunk. */
  lemma PassageInOneChunk(length: nat, from: nat, to: nat) returns (i: nat)
    requires from <= to <= length && to - from <= CHUNK_OVERLAP
    ensures i < ChunkCount(length)
    ensures ChunkSpan(i, length).start <= from && to <= ChunkSpan(i, length).stop
  {
    if to <= CHUNK_RUNES {
      i := 0;
    } else {
      i := (to - CHUNK_RUNES + STRIDE - 1) / STRIDE;
    }
  }

  /**
   * The passage a hint names survives the cut: whole when it fits the limit, and otherwise
   * the window is exactly its first maxRunes.
   */
  lemma HintKeepsPassage(hint: SemanticHint, maxRunes: nat, length: nat)
    requires maxRunes < length && Usable(hint, length)
    ensures
      var passage := Span(hint.start, Min(hint.end, length));
      var window := HintWindow(hint, maxRunes, length);
      if passage.stop - passage.start <= maxRunes
      then window.start <= passage.start && passage.stop <= window.stop
      else window == Span(passage.start, passage.start + maxRunes)
  {
  }

  /** The same for a chunk that matched: its text appears in the excerpt, up to the limit. */
  lemma ChunkSurvivesExcerpt(content: string, i: nat, score: real, maxRunes: nat, anchor: Anchor)
    requires i < ChunkCount(|content|) && maxRunes < |content|
    ensures
      var span := ChunkSpan(i, |content|);
      var kept := content[span.start..Min(span.stop, span.start + maxRunes)];
      Contains(HintedExcerpt(content, maxRunes, SemanticHint(score, span.start, span.stop), anchor), kept)
  {
    var span := ChunkSpan(i, |content|);
    var hint := SemanticHint(score, span.start, span.stop);
    HintKeepsPassage(hint, maxRunes, |content|);
    CutContains(content, HintWindow(hint, maxRunes, |content|), Span(span.start, Min(span.stop, span.start + maxRunes)));
  }

  /** A cut holds every passage inside its window. */
  lemma CutContains(content: string, window: Span, passage: Span)
    requires InText(window, |content|) && window.start <= passage.start <= passage.stop <= window.stop
    ensures Contains(Cut(content, window), content[passage.start..passage.stop])
  {
    var head := if window.start > 0 then ELLIPSIS + " " else "";
    var inner := content[window.start..window.stop];
    var kept := content[passage.start..passage.stop];
    var at := |head| + passage.start - window.start;
    var excerpt := Cut(content, window);
    assert excerpt[|head|..|head| + |inner|] == inner;
    SliceOfSlice(content, window.start, window.stop, passage.start - window.start, passage.stop - window.start);
    SliceOfSlice(excerpt, |head|, |head| + |inner|, passage.start - window.start, passage.stop - window.start);
    assert OccursAt(excerpt, kept, at);
  }
}
