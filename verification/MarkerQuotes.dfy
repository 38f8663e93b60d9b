/** Which texts quote a source marker: none that shortening, compacting or spilling makes of a text that does not. */
module MarkerQuotes {
  import opened Wrappers
  import opened Text
  import opened ContextTypes
  import opened Preparation
  import opened Excerpts
  import opened Checkpoint
  import CheckpointEvidence

  /** How the marker of a source of this kind begins. */
  function MarkerHead(kind: Kind): string {
    "[" + KindName(kind) + ":"
  }

  ghost predicate HasHead(text: string) {
    exists kind: Kind :: Contains(text, MarkerHead(kind))
  }

  /** The text reads like the beginning of a source marker. */
  ghost predicate QuotesMarker(text: string) {
    HasHead(CompactWhitespace(text))
  }

  /** A text that is more than one character long and has no space. */
  predicate Solid(part: string) {
    |part| > 1 && ' ' !in part
  }

  lemma EllipsisSolid(part: string)
    requires Solid(part)
    ensures !Contains(ELLIPSIS, part)
  {
  }

  lemma CutContains(content: string, span: Span, part: string)
    requires InText(span, |content|) && Solid(part) && Contains(Cut(content, span), part)
    ensures Contains(content, part)
  {
    var window := content[span.start..span.stop];
    var tail := if span.stop < |content| then " " + ELLIPSIS else "";
    EllipsisSolid(part);
    if span.start > 0 {
      assert Cut(content, span) == ELLIPSIS + [' '] + (window + tail);
      ContainsAcross(ELLIPSIS, ' ', window + tail, part);
    } else {
      assert Cut(content, span) == window + tail;
    }
    if span.stop < |content| {
      assert window + tail == window + [' '] + ELLIPSIS;
      ContainsAcross(window, ' ', ELLIPSIS, part);
    } else {
      assert window + tail == window;
    }
    WindowContains(content, span.start, span.stop, part);
  }

  /** Three texts with marks between them. */
  function Marked3(a: string, b: string, c: string): string {
    a + [' '] + (ELLIPSIS + [' '] + (b + [' '] + (ELLIPSIS + [' '] + c)))
  }

  lemma MarkedText(a: string, b: string, c: string)
    ensures a + " " + ELLIPSIS + " " + b + " " + ELLIPSIS + " " + c == Marked3(a, b, c)
  {
    var tail := ELLIPSIS + [' '] + c;
    assert " " == [' '];
    Shift(a + " " + ELLIPSIS + " " + b, ELLIPSIS, c);
    Shift(a, ELLIPSIS, b + [' '] + tail);
    Nested(a + " " + ELLIPSIS + " ", b, tail);
  }

  lemma Shift(a: string, mark: string, b: string)
    ensures a + " " + mark + " " + b == a + [' '] + (mark + [' '] + b)
  {
  }

  lemma Nested(a: string, b: string, c: string)
    ensures a + b + [' '] + c == a + (b + [' '] + c)
  {
  }

  lemma MarkedContains(a: string, b: string, c: string, part: string)
    requires Solid(part) && Contains(Marked3(a, b, c), part)
    ensures Contains(a, part) || Contains(b, part) || Contains(c, part)
  {
    var tail := ELLIPSIS + [' '] + c;
    var rest := b + [' '] + tail;
    EllipsisSolid(part);
    ContainsAcross(a, ' ', ELLIPSIS + [' '] + rest, part);
    if !Contains(a, part) {
      ContainsAcross(ELLIPSIS, ' ', rest, part);
      ContainsAcross(b, ' ', tail, part);
      if !Contains(b, part) {
        ContainsAcross(ELLIPSIS, ' ', c, part);
      }
    }
  }

  /** The three slices of a long text, with the marks between them. */
  lemma SlicesMarked(content: string, maxRunes: nat, middle: nat, last: nat)
    requires |content| > maxRunes >= 3
    requires middle == (|content| - maxRunes / 3) / 2 && last == |content| - maxRunes / 3
    ensures EvenSlices(content, maxRunes)
         == Marked3(content[0..maxRunes / 3], content[middle..middle + maxRunes / 3], content[last..|content|])
  {
    var width := maxRunes / 3;
    var a, b, c := content[0..width], content[middle..middle + width], content[last..|content|];
    assert a == content[..width] && c == content[last..];
    assert EvenSlices(content, maxRunes) == a + " " + ELLIPSIS + " " + b + " " + ELLIPSIS + " " + c;
    MarkedText(a, b, c);
  }

  lemma SlicesContain(content: string, maxRunes: nat, part: string)
    requires maxRunes >= 3 && Solid(part) && Contains(EvenSlices(content, maxRunes), part)
    ensures Contains(content, part)
  {
    if |content| > maxRunes {
      var width := maxRunes / 3;
      var middle, last := (|content| - width) / 2, |content| - width;
      SlicesMarked(content, maxRunes, middle, last);
      AnySlice(content, width, middle, last, part);
    }
  }

  lemma AnySlice(content: string, width: nat, middle: nat, last: nat, part: string)
    requires width <= |content| && middle + width <= |content| && last <= |content| && Solid(part)
    requires Contains(Marked3(content[0..width], content[middle..middle + width], content[last..|content|]), part)
    ensures Contains(content, part)
  {
    var a, b, c := content[0..width], content[middle..middle + width], content[last..|content|];
    MarkedContains(a, b, c, part);
    if Contains(a, part) {
      WindowContains(content, 0, width, part);
    } else if Contains(b, part) {
      WindowContains(content, middle, middle + width, part);
    } else {
      WindowContains(content, last, |content|, part);
    }
  }

  /** Shortening a text cannot make a part appear that has no space. */
  lemma ExcerptContains(content: string, maxRunes: nat, hint: SemanticHint, anchor: Anchor, part: string)
    requires maxRunes >= 3 && Solid(part) && Contains(HintedExcerpt(content, maxRunes, hint, anchor), part)
    ensures Contains(content, part)
  {
    if |content| > maxRunes {
      if Usable(hint, |content|) {
        CutContains(content, HintWindow(hint, maxRunes, |content|), part);
      } else if anchor.Nowhere? {
        SlicesContain(content, maxRunes, part);
      } else {
        FocusedCut(content, maxRunes, anchor, part);
      }
    }
  }

  lemma FocusedCut(content: string, maxRunes: nat, anchor: Anchor, part: string)
    requires |content| > maxRunes && !anchor.Nowhere? && Solid(part)
    requires Contains(FocusedExcerpt(content, maxRunes, anchor), part)
    ensures Contains(content, part)
  {
    var start :=
      if anchor.WindowAt? then anchor.start else if anchor.at > maxRunes / 2 then anchor.at - maxRunes / 2 else 0;
    CutContains(content, SlideIntoText(start, maxRunes, |content|), part);
  }

  lemma HeadSolid(kind: Kind)
    ensures Solid(MarkerHead(kind))
  {
    CheckpointEvidence.KindNamePlain(kind);
    assert forall c | c in MarkerHead(kind) :: c == '[' || c == ':' || CheckpointEvidence.NameChar(c);
  }

  lemma HeadBegins(g: Fragment)
    ensures Contains(Marker(g), MarkerHead(g.kind))
  {
    var head := MarkerHead(g.kind);
    assert Marker(g)[0..|head|] == head;
    assert OccursAt(Marker(g), head, 0);
  }

  /** A text that does not read like a marker yields no extract that quotes one. */
  lemma ExtractUnquoted(h: Heuristics, request: CompactRequest, f: Fragment, g: Fragment)
    requires !QuotesMarker(f.content)
    ensures !Contains(Extract(h, request, f), Marker(g))
  {
    if Contains(Extract(h, request, f), Marker(g)) {
      var content, head, extract := CompactWhitespace(f.content), MarkerHead(g.kind), Extract(h, request, f);
      HeadBegins(g);
      ContainsTransitive(extract, Marker(g), head);
      HeadSolid(g.kind);
      ExcerptContains(
        content, ExtractLimit(f.kind), HintFor(request, f), h.anchorOf(content, request.focus), head);
    }
  }

  // ---- Receipts of spilled tool results ----

  lemma MarkBetween(a: string, mark: string, b: string)
    ensures a + ([' '] + mark + [' ']) + b == a + [' '] + (mark + [' '] + b)
  {
  }

  lemma HeadTailContains(value: string, maxRunes: nat, part: string)
    requires Solid(part) && Contains(HeadTail(value, maxRunes), part)
    ensures Contains(value, part)
  {
    if |value| > maxRunes {
      var head := maxRunes * 2 / 3;
      var from := |value| - (maxRunes - head);
      var a, b := value[..head], value[from..|value|];
      assert " \U{2026} " == [' '] + ELLIPSIS + [' '] && b == value[from..];
      MarkBetween(a, ELLIPSIS, b);
      EllipsisSolid(part);
      ContainsAcross(a, ' ', ELLIPSIS + [' '] + b, part);
      if Contains(a, part) {
        WindowContains(value, 0, head, part);
      } else {
        ContainsAcross(ELLIPSIS, ' ', b, part);
        WindowContains(value, from, |value|, part);
      }
    }
  }

  /** The last part of a receipt: the source and a preview of what was spilled. */
  lemma PreviewContains(id: string, preview: string, part: string)
    requires Solid(part) && part[0] == '[' && '[' !in id
    requires Contains("source=" + id + "]\nPreview:" + [' '] + preview, part)
    ensures Contains(preview, part)
  {
    var tag := "source=" + id + "]\nPreview:";
    assert '[' !in tag;
    LacksPart(tag, part, 0);
    ContainsAcross(tag, ' ', preview, part);
  }

  /** The middle of a receipt: its size and its checksum. */
  lemma SumContains(bytes: string, checksum: string, rest: string, part: string)
    requires Solid(part) && part[0] == '[' && '[' !in bytes
    requires Contains("bytes=" + bytes + [' '] + ("sha256=" + checksum + [' '] + rest), part)
    ensures Contains(checksum, part) || Contains(rest, part)
  {
    LacksPart("bytes=" + bytes, part, 0);
    ContainsAcross("bytes=" + bytes, ' ', "sha256=" + checksum + [' '] + rest, part);
    ContainsAcross("sha256=" + checksum, ' ', rest, part);
    if Contains("sha256=" + checksum, part) {
      ContainsAfter("sha256=", checksum, part);
    }
  }

  lemma ReferenceContains(ref: string, rest: string, part: string)
    requires Solid(part) && part[0] == '[' && ':' in part
    requires Contains("[artifact" + [' '] + ("ref=" + ref + [' '] + rest), part)
    ensures Contains(ref, part) || Contains(rest, part)
  {
    var k :| 0 <= k < |part| && part[k] == ':';
    LacksPart("[artifact", part, k);
    ContainsAcross("[artifact", ' ', "ref=" + ref + [' '] + rest, part);
    ContainsAcross("ref=" + ref, ' ', rest, part);
    if Contains("ref=" + ref, part) {
      ContainsAfter("ref=", ref, part);
    }
  }

  lemma FieldSplit(before: string, name: string, value: string, rest: string)
    ensures before + ([' '] + name) + value + [' '] + rest == before + [' '] + (name + value + [' '] + rest)
  {
  }

  lemma LastSplit(before: string, id: string, preview: string)
    ensures before + " source=" + id + "]\nPreview: " + preview ==
      before + [' '] + ("source=" + id + "]\nPreview:" + [' '] + preview)
  {
    assert " source=" == [' '] + "source=" && "]\nPreview: " == "]\nPreview:" + [' '];
  }

  /** The text of a receipt, in the parts between its spaces. */
  lemma ReceiptText(ref: string, bytes: string, checksum: string, id: string, preview: string)
    ensures
      var source := "source=" + id + "]\nPreview:" + [' '] + preview;
      var sum := "bytes=" + bytes + [' '] + ("sha256=" + checksum + [' '] + source);
      "[artifact ref=" + ref + " bytes=" + bytes + " sha256=" + checksum + " source=" + id + "]\nPreview: " + preview ==
        "[artifact" + [' '] + ("ref=" + ref + [' '] + sum)
  {
    var source := "source=" + id + "]\nPreview:" + [' '] + preview;
    var digest := "sha256=" + checksum + [' '] + source;
    var a := "[artifact ref=" + ref;
    var b := a + " bytes=" + bytes;
    LastSplit(b + " sha256=" + checksum, id, preview);
    assert " sha256=" == [' '] + "sha256=";
    FieldSplit(b, "sha256=", checksum, source);
    assert " bytes=" == [' '] + "bytes=";
    FieldSplit(a, "bytes=", bytes, digest);
    assert "[artifact ref=" == "[artifact" + ([' '] + "ref=");
    FieldSplit("[artifact", "ref=", ref, "bytes=" + bytes + [' '] + digest);
  }

  /** What a receipt contains, its reference, its checksum or the spilled text does. */
  lemma ReceiptContains(f: Fragment, receipt: SpillReceipt, part: string)
    requires Solid(part) && part[0] == '[' && ':' in part && '[' !in f.id
    requires Contains(SpillReference(f, receipt).content, part)
    ensures Contains(receipt.ref, part) || Contains(receipt.checksum, part) || Contains(CompactWhitespace(f.content), part)
  {
    var preview := HeadTail(CompactWhitespace(f.content), 900);
    var bytes := Decimal(receipt.bytes);
    var source := "source=" + f.id + "]\nPreview:" + [' '] + preview;
    var sum := "bytes=" + bytes + [' '] + ("sha256=" + receipt.checksum + [' '] + source);
    ReceiptText(receipt.ref, bytes, receipt.checksum, f.id, preview);
    ReferenceContains(receipt.ref, sum, part);
    if Contains(sum, part) {
      SumContains(bytes, receipt.checksum, source, part);
      if Contains(source, part) {
        PreviewContains(f.id, preview, part);
        HeadTailContains(CompactWhitespace(f.content), 900, part);
      }
    }
  }

  /** So a receipt quotes a marker only if its reference, its checksum or the spilled text does. */
  lemma ReceiptUnquoted(f: Fragment, receipt: SpillReceipt)
    requires '[' !in f.id && !QuotesMarker(f.content) && !HasHead(receipt.ref) && !HasHead(receipt.checksum)
    ensures !QuotesMarker(SpillReference(f, receipt).content)
  {
    var content := SpillReference(f, receipt).content;
    if QuotesMarker(content) {
      var kind :| Contains(CompactWhitespace(content), MarkerHead(kind));
      HeadSolid(kind);
      CompactContains(content, MarkerHead(kind));
      ReceiptContains(f, receipt, MarkerHead(kind));
    }
  }

  /** And a receipt is not blank. */
  lemma ReceiptNotBlank(f: Fragment, receipt: SpillReceipt)
    ensures !Blank(SpillReference(f, receipt))
  {
    var content := SpillReference(f, receipt).content;
    assert content[0] == '[' && TrimLeft(content) == content;
    var words := Fields(content);
    assert words != [] && words[0] in words && words[0] != [];
    assert |Join(words, " ")| >= |words[0]|;
  }
}
