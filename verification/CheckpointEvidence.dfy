/** The extractive compactor always satisfies the evidence contract it is the fallback for. */
module CheckpointEvidence {
  import opened Wrappers
  import opened Text
  import opened ContextTypes
  import opened Excerpts
  import opened Checkpoint
  import Selection
  import StableSort

  // ---- Markers ----

  predicate PlainId(id: string) {
    '[' !in id && ']' !in id && NEWLINE !in id
  }

  predicate NameChar(c: char) {
    c == '_' || 'a' <= c <= 'z'
  }

  lemma KindNamePlain(kind: Kind)
    ensures forall c | c in KindName(kind) :: NameChar(c)
  {
    match kind
    case Identity => case Policy => case UserGoal => case ProjectInstruction => case ProjectKnowledge =>
    case SelectedSkill => case Conversation => case ToolCall => case ToolResult => case Decision =>
    case OpenTask => case ArtifactReceipt => case Checkpoint =>
  }

  /** Which characters a marker has where. */
  predicate MarkerShape(m: string) {
    && |m| >= 3 && m[0] == '[' && m[|m| - 1] == ']'
    && '[' !in m[1..] && ']' !in m[..|m| - 1] && NEWLINE !in m
  }

  lemma PlainMarker(f: Fragment)
    requires PlainId(f.id)
    ensures MarkerShape(Marker(f))
  {
    KindNamePlain(f.kind);
    var inner := KindName(f.kind) + ":" + f.id;
    assert forall c | c in inner :: c !in "[]\n";
    assert Marker(f) == "[" + inner + "]";
    assert Marker(f)[1..] == inner + "]" && Marker(f)[..|Marker(f)| - 1] == "[" + inner;
  }

  lemma {:induction false} IndexOfSplit(a: string, c: char, b: string)
    requires c !in a
    ensures IndexOf(a + [c] + b, c) == |a|
  {
    var s := a + [c] + b;
    if a != [] {
      IndexOfSplit(a[1..], c, b);
      assert s[1..] == a[1..] + [c] + b;
    }
  }

  /** A marker determines its source ID. */
  lemma MarkerInjective(f: Fragment, g: Fragment)
    requires Marker(f) == Marker(g)
    ensures f.id == g.id
  {
    KindNamePlain(f.kind);
    KindNamePlain(g.kind);
    var a, b := "[" + KindName(f.kind), "[" + KindName(g.kind);
    assert Marker(f) == a + [':'] + (f.id + "]") && Marker(g) == b + [':'] + (g.id + "]");
    IndexOfSplit(a, ':', f.id + "]");
    IndexOfSplit(b, ':', g.id + "]");
    assert Marker(f)[|a| + 1..|Marker(f)| - 1] == f.id;
    assert Marker(g)[|b| + 1..|Marker(g)| - 1] == g.id;
  }

  lemma {:induction false} TrimRightKeeps(s: string, prefix: string)
    requires prefix != [] && prefix <= s && !IsSpace(prefix[|prefix| - 1])
    ensures prefix <= TrimRight(s)
  {
    if |s| > |prefix| && IsSpace(s[|s| - 1]) {
      TrimRightKeeps(s[..|s| - 1], prefix);
    } else if |s| == |prefix| {
      assert s == prefix;
    }
  }

  lemma MarkedLineCited(source: seq<Fragment>, m: string, extract: string)
    requires MarkerShape(m) && Known(source, m)
    ensures LineCited(source, Line(m, extract))
  {
    var raw := Line(m, extract);
    var head := "- " + m;
    TrimRightKeeps(raw, head);
    var line := TrimSpace(raw);
    var rest := line[|head|..];
    assert line == head + rest;
    LineOpens(m, rest);
  }

  /** A line that opens with a marker has it up to its first closing bracket. */
  lemma LineOpens(m: string, rest: string)
    requires MarkerShape(m)
    ensures
      var line := "- " + m + rest;
      "- [" <= line && IndexOf(line, ']') == |m| + 1 && line[2..|m| + 2] == m
  {
    var line, inner := "- " + m + rest, "- " + m[..|m| - 1];
    assert line == inner + [']'] + rest;
    assert ']' !in inner;
    IndexOfSplit(inner, ']', rest);
    assert line[2] == m[0];
  }

  /** A line quotes another marker only by being that source's line, or inside its extract. */
  lemma LineQuotes(m: string, extract: string, other: string)
    requires MarkerShape(m) && MarkerShape(other)
    requires Contains(Line(m, extract), other)
    ensures m == other || Contains(extract, other)
  {
    var line := Line(m, extract);
    var i :| 0 <= i <= |line| && OccursAt(line, other, i);
    var at := |m| + 3;
    assert line[i] == '[';
    assert line[at..] == extract && line[2..] == m + " " + extract;
    if i >= at {
      assert line[i..i + |other|] == extract[i - at..i - at + |other|];
      assert OccursAt(extract, other, i - at);
    } else {
      assert forall k | 3 <= k < |m| + 2 :: line[k] == m[1..][k - 3];
      assert i == 2;
      SamePrefixMarker(line[2..], m, other);
    }
  }

  lemma SamePrefixMarker(s: string, m: string, other: string)
    requires MarkerShape(m) && MarkerShape(other) && m <= s && other <= s
    ensures m == other
  {
    assert m == m[..|m| - 1] + [']'] && other == other[..|other| - 1] + [']'];
    assert s == m[..|m| - 1] + [']'] + s[|m|..] && s == other[..|other| - 1] + [']'] + s[|other|..];
    IndexOfSplit(m[..|m| - 1], ']', s[|m|..]);
    IndexOfSplit(other[..|other| - 1], ']', s[|other|..]);
  }

  lemma OwnLine(m: string, extract: string)
    ensures Contains(Line(m, extract), m)
  {
    assert OccursAt(Line(m, extract), m, 2);
  }

  // ---- Exchanges and their lines ----

  predicate LineFrom(h: Heuristics, request: CompactRequest, members: seq<Fragment>, line: string) {
    exists f | f in members :: !Blank(f) && LineOf(h, request, f) == line
  }

  lemma {:induction false} DigestLines(h: Heuristics, request: CompactRequest, members: seq<Fragment>, line: string)
    ensures line in Digest(h, request, members).lines <==> LineFrom(h, request, members, line)
  {
    if members != [] {
      var n := |members| - 1;
      DigestLines(h, request, members[..n], line);
      assert members == members[..n] + [members[n]];
    }
  }

  lemma {:induction false} ExchangeSource(h: Heuristics, request: CompactRequest, keys: seq<string>, e: Exchange)
    requires e in Exchanges(h, request, keys)
    ensures exists key | key in keys :: e == Digest(h, request, Selection.Members(request.fragments, key))
  {
    var n := |keys| - 1;
    if e in Exchanges(h, request, keys[..n]) {
      ExchangeSource(h, request, keys[..n], e);
    } else {
      assert keys[n] in keys;
    }
  }

  lemma {:induction false} FillSubset(fits: seq<Exchange> -> bool, ranked: seq<Exchange>, n: nat, e: Exchange)
    requires n <= |ranked| && e in Fill(fits, ranked, n)
    ensures e in ranked
  {
    if e in Fill(fits, ranked, n - 1) {
      FillSubset(fits, ranked, n - 1, e);
    }
  }

  lemma {:induction false} MembersAre(fragments: seq<Fragment>, key: string, f: Fragment)
    ensures f in Selection.Members(fragments, key) <==> f in fragments && UnitKey(f) == key
  {
    if fragments != [] {
      var n := |fragments| - 1;
      assert fragments == fragments[..n] + [fragments[n]];
      MembersAre(fragments[..n], key, f);
    }
  }

  function AllLines(exchanges: seq<Exchange>): seq<string> {
    if exchanges == [] then [] else exchanges[0].lines + AllLines(exchanges[1..])
  }

  lemma {:induction false} BodyIsUnlines(exchanges: seq<Exchange>)
    requires forall e | e in exchanges :: e.lines != []
    ensures Body(exchanges) == Unlines(AllLines(exchanges))
  {
    if exchanges != [] {
      JoinIsUnlines(exchanges[0].lines);
      BodyIsUnlines(exchanges[1..]);
      UnlinesAppend(exchanges[0].lines, AllLines(exchanges[1..]));
    }
  }

  lemma {:induction false} AllLinesMember(exchanges: seq<Exchange>, line: string)
    ensures line in AllLines(exchanges) <==> exists e | e in exchanges :: line in e.lines
  {
    if exchanges != [] {
      assert exchanges == [exchanges[0]] + exchanges[1..];
      AllLinesMember(exchanges[1..], line);
    }
  }

  // ---- The contract ----

  predicate PairMixed(f: Fragment, g: Fragment) {
    f.pairId != "" && f.pairId == g.pairId && Blank(f) && !Blank(g)
  }

  /** No pair has both a blank and a non-blank member. */
  predicate NoMixedPair(fragments: seq<Fragment>) {
    forall f, g | f in fragments && g in fragments :: !PairMixed(f, g)
  }

  /** IDs are unique and free of brackets and line breaks, and no extract quotes a source marker. */
  predicate Quotable(h: Heuristics, request: CompactRequest) {
    && UniqueIds(request.fragments)
    && (forall f | f in request.fragments :: PlainId(f.id))
    && (forall f, g | f in request.fragments && g in request.fragments ::
          !Contains(Extract(h, request, f), Marker(g)))
  }

  /** The kept exchanges, as a set of evidence lines. */
  predicate KeptLine(h: Heuristics, request: CompactRequest, kept: seq<Exchange>, f: Fragment) {
    exists e | e in kept :: LineOf(h, request, f) in e.lines
  }

  ghost predicate FromSource(h: Heuristics, request: CompactRequest, e: Exchange) {
    exists key :: e == Digest(h, request, Selection.Members(request.fragments, key)) && e.lines != []
  }

  /** Every kept exchange is a digest of one unit. */
  lemma KeptFromSource(h: Heuristics, request: CompactRequest, e: Exchange)
    requires
      var ranked := Ranked(h, request);
      e in Fill(FitsTarget(request, |ranked|), ranked, |ranked|)
    ensures FromSource(h, request, e)
  {
    var keys := Selection.KeyOrder(request.fragments);
    var ranked := Ranked(h, request);
    FillSubset(FitsTarget(request, |ranked|), ranked, |ranked|, e);
    assert e in multiset(ranked) && e in multiset(Exchanges(h, request, keys));
    ExchangeSource(h, request, keys, e);
  }

  /** If one member of a pair has its line kept, so have all of them. */
  lemma PairKept(h: Heuristics, request: CompactRequest, kept: seq<Exchange>, f: Fragment, g: Fragment)
    requires Quotable(h, request) && NoMixedPair(request.fragments)
    requires forall e | e in kept :: FromSource(h, request, e)
    requires f in request.fragments && g in request.fragments && f.pairId != "" && f.pairId == g.pairId
    requires KeptLine(h, request, kept, f)
    ensures KeptLine(h, request, kept, g)
  {
    var e :| e in kept && LineOf(h, request, f) in e.lines;
    var key :| e == Digest(h, request, Selection.Members(request.fragments, key)) && e.lines != [];
    var members := Selection.Members(request.fragments, key);
    DigestLines(h, request, members, LineOf(h, request, f));
    var f' :| f' in members && !Blank(f') && LineOf(h, request, f') == LineOf(h, request, f);
    MembersAre(request.fragments, key, f');
    SameLineSameSource(h, request, f, f');
    assert !PairMixed(g, f);
    MembersAre(request.fragments, key, g);
    DigestLines(h, request, members, LineOf(h, request, g));
  }

  lemma SameLineSameSource(h: Heuristics, request: CompactRequest, f: Fragment, g: Fragment)
    requires Quotable(h, request) && f in request.fragments && g in request.fragments
    requires LineOf(h, request, f) == LineOf(h, request, g)
    ensures f == g
  {
    OwnLine(Marker(f), Extract(h, request, f));
    EvidenceOfOne(h, request, g, f);
  }

  // ---- The rendered text ----

  function Physical(kept: seq<Exchange>, total: nat): seq<string> {
    Preamble(total - |kept|) + AllLines(StableSort.Sort(kept, BY_CREATION))
  }

  lemma TextIsUnlines(preamble: seq<string>, kept: seq<Exchange>)
    requires preamble != [] && preamble[0] != "" && !IsSpace(preamble[0][0])
    requires forall e | e in kept :: e.lines != []
    ensures
      var ordered := StableSort.Sort(kept, BY_CREATION);
      TrimSpace(Unlines(preamble) + Body(ordered)) == TrimRight(Unlines(preamble + AllLines(ordered)))
  {
    var ordered := StableSort.Sort(kept, BY_CREATION);
    forall e | e in ordered ensures e.lines != [] {
      assert e in multiset(ordered);
    }
    BodyIsUnlines(ordered);
    UnlinesAppend(preamble, AllLines(ordered));
    assert Unlines(preamble)[0] == preamble[0][0];
  }

  lemma RenderIsPhysical(kept: seq<Exchange>, total: nat)
    requires forall e | e in kept :: e.lines != []
    ensures Render(kept, total) == TrimRight(Unlines(Physical(kept, total)))
  {
    var preamble := Preamble(total - |kept|);
    PreambleLines(total - |kept|);
    assert preamble[0] in preamble;
    TextIsUnlines(preamble, kept);
  }

  predicate NoticeLine(line: string) {
    && IsPreamble(line) && line != "" && !IsSpace(line[0]) && !IsSpace(line[|line| - 1])
    && '[' !in line && NEWLINE !in line
  }

  lemma TitleIsNotice()
    ensures NoticeLine(TITLE)
  {
  }

  lemma ProvenanceIsNotice()
    ensures NoticeLine(PROVENANCE_NOTE)
  {
  }

  lemma ExtractsNote()
    ensures '[' !in EXTRACTS_NOTE && NEWLINE !in EXTRACTS_NOTE
    ensures "> " <= EXTRACTS_NOTE
  {
  }

  lemma ShorteningNote()
    ensures '[' !in SHORTENING_NOTE && NEWLINE !in SHORTENING_NOTE
  {
  }

  lemma SearchNote()
    ensures '[' !in SEARCH_NOTE && NEWLINE !in SEARCH_NOTE
  {
  }

  lemma AnswerNote()
    ensures '[' !in ANSWER_NOTE && NEWLINE !in ANSWER_NOTE
    ensures ANSWER_NOTE != "" && !IsSpace(ANSWER_NOTE[|ANSWER_NOTE| - 1])
  {
  }

  lemma RetrievalIsNotice()
    ensures NoticeLine(RETRIEVAL_NOTE)
  {
    ExtractsNote();
    ShorteningNote();
    SearchNote();
    AnswerNote();
    NoticeFrom(EXTRACTS_NOTE + SHORTENING_NOTE + SEARCH_NOTE, ANSWER_NOTE);
  }

  lemma NoticeFrom(head: string, tail: string)
    requires '[' !in head && NEWLINE !in head && "> " <= head
    requires '[' !in tail && NEWLINE !in tail && tail != "" && !IsSpace(tail[|tail| - 1])
    ensures NoticeLine(head + tail)
  {
    var note := head + tail;
    assert note[|note| - 1] == tail[|tail| - 1] && "> " <= note && note[0] == head[0] == '>';
  }

  lemma OmissionTail()
    ensures '[' !in OMISSION_TAIL && NEWLINE !in OMISSION_TAIL
    ensures OMISSION_TAIL != "" && !IsSpace(OMISSION_TAIL[|OMISSION_TAIL| - 1])
  {
  }

  lemma OmissionIsNotice(digits: string)
    requires '[' !in digits && NEWLINE !in digits
    ensures NoticeLine("> " + digits + OMISSION_TAIL)
  {
    OmissionTail();
    NoticeFrom("> " + digits, OMISSION_TAIL);
  }

  lemma PreambleLines(omitted: int)
    ensures forall line | line in Preamble(omitted) :: NoticeLine(line)
  {
    TitleIsNotice();
    ProvenanceIsNotice();
    RetrievalIsNotice();
    OmissionIsNotice(Decimal(omitted));
  }

  lemma NoticeCited(source: seq<Fragment>, line: string)
    requires NoticeLine(line)
    ensures LineCited(source, line)
  {
    assert TrimSpace(line) == line;
  }

  // ---- Citations survive rendering ----

  lemma {:induction false} TrimKeepsCitations(source: seq<Fragment>, s: string)
    requires forall line | line in Split(s) :: LineCited(source, line)
    ensures forall line | line in Split(TrimRight(s)) :: LineCited(source, line)
  {
    if s != [] && IsSpace(s[|s| - 1]) {
      var t, c := s[..|s| - 1], s[|s| - 1];
      assert s == t + [c];
      forall line | line in Split(t) ensures LineCited(source, line) {
        ShorterPieceCited(source, t, c, line);
      }
      TrimKeepsCitations(source, t);
    }
  }

  lemma ShorterPieceCited(source: seq<Fragment>, t: string, c: char, line: string)
    requires IsSpace(c) && line in Split(t)
    requires forall l | l in Split(t + [c]) :: LineCited(source, l)
    ensures LineCited(source, line)
  {
    if c == NEWLINE {
      SplitSnocNewline(t);
      assert line in Split(t + [c]);
    } else {
      SplitSnocChar(t, c);
      var k :| 0 <= k < |Split(t)| && Split(t)[k] == line;
      var longer := Split(t + [c])[k];
      assert LineCited(source, longer);
      if k == |Split(t)| - 1 {
        TrimRightSpace(line, c);
      }
    }
  }

  lemma EvidenceLineShape(h: Heuristics, request: CompactRequest, f: Fragment)
    requires Quotable(h, request) && f in request.fragments
    ensures LineCited(request.fragments, LineOf(h, request, f)) && NoNewline(LineOf(h, request, f))
  {
    PlainMarker(f);
    CompactHasNoNewline(f.content);
    var content := CompactWhitespace(f.content);
    ExcerptHasNoNewline(content, ExtractLimit(f.kind), HintFor(request, f), h.anchorOf(content, request.focus));
    MarkedLineCited(request.fragments, Marker(f), Extract(h, request, f));
  }

  lemma KeptLinesAreEvidence(h: Heuristics, request: CompactRequest, kept: seq<Exchange>, line: string)
    requires forall e | e in kept :: FromSource(h, request, e)
    requires line in AllLines(StableSort.Sort(kept, BY_CREATION))
    ensures exists f | f in request.fragments :: LineOf(h, request, f) == line && KeptLine(h, request, kept, f)
  {
    var ordered := StableSort.Sort(kept, BY_CREATION);
    AllLinesMember(ordered, line);
    var e :| e in ordered && line in e.lines;
    assert e in multiset(ordered) && e in multiset(kept);
    assert FromSource(h, request, e);
    var key :| e == Digest(h, request, Selection.Members(request.fragments, key)) && e.lines != [];
    var members := Selection.Members(request.fragments, key);
    DigestLines(h, request, members, line);
    var f :| f in members && !Blank(f) && LineOf(h, request, f) == line;
    MembersAre(request.fragments, key, f);
  }

  /** Every line of a rendered checkpoint is a notice or carries a known marker. */
  lemma RenderedLinesCited(h: Heuristics, request: CompactRequest, kept: seq<Exchange>, total: nat)
    requires Quotable(h, request)
    requires forall e | e in kept :: FromSource(h, request, e)
    ensures forall line | line in Split(Render(kept, total)) :: LineCited(request.fragments, line)
  {
    var lines := Physical(kept, total);
    PreambleLines(total - |kept|);
    forall line | line in lines ensures LineCited(request.fragments, line) && NoNewline(line) {
      if line in Preamble(total - |kept|) {
        NoticeCited(request.fragments, line);
      } else {
        KeptLinesAreEvidence(h, request, kept, line);
        var f :| f in request.fragments && LineOf(h, request, f) == line;
        EvidenceLineShape(h, request, f);
      }
    }
    SplitUnlines(lines);
    assert LineCited(request.fragments, "");
    TrimKeepsCitations(request.fragments, Unlines(lines));
    RenderIsPhysical(kept, total);
  }

  /** A source marker occurs in the rendered text exactly when that source's line was kept. */
  lemma RenderedMarkers(h: Heuristics, request: CompactRequest, kept: seq<Exchange>, total: nat, f: Fragment)
    requires Quotable(h, request) && f in request.fragments
    requires forall e | e in kept :: FromSource(h, request, e)
    ensures Contains(Render(kept, total), Marker(f)) <==> KeptLine(h, request, kept, f)
  {
    var lines := Physical(kept, total);
    var m := Marker(f);
    PlainMarker(f);
    RenderIsPhysical(kept, total);
    ContainsAfterTrim(Unlines(lines), m);
    ContainsUnlines(lines, m);
    if k :| 0 <= k < |lines| && Contains(lines[k], m) {
      MarkedPhysicalLine(h, request, kept, total, k, f);
    }
    if KeptLine(h, request, kept, f) {
      var ordered := StableSort.Sort(kept, BY_CREATION);
      var e :| e in kept && LineOf(h, request, f) in e.lines;
      assert e in multiset(kept) && e in multiset(ordered);
      AllLinesMember(ordered, LineOf(h, request, f));
      assert LineOf(h, request, f) in lines;
      OwnLine(m, Extract(h, request, f));
    }
  }

  lemma MarkedPhysicalLine(h: Heuristics, request: CompactRequest, kept: seq<Exchange>, total: nat, k: nat, f: Fragment)
    requires Quotable(h, request) && f in request.fragments
    requires forall e | e in kept :: FromSource(h, request, e)
    requires k < |Physical(kept, total)| && Contains(Physical(kept, total)[k], Marker(f))
    ensures KeptLine(h, request, kept, f)
  {
    var line := Physical(kept, total)[k];
    PlainMarker(f);
    BracketLine(kept, total, k, Marker(f));
    KeptLinesAreEvidence(h, request, kept, line);
    var g :| g in request.fragments && LineOf(h, request, g) == line && KeptLine(h, request, kept, g);
    EvidenceOfOne(h, request, g, f);
  }

  lemma BracketLine(kept: seq<Exchange>, total: nat, k: nat, m: string)
    requires MarkerShape(m)
    requires k < |Physical(kept, total)| && Contains(Physical(kept, total)[k], m)
    ensures Physical(kept, total)[k] in AllLines(StableSort.Sort(kept, BY_CREATION))
  {
    NoBracketInPreamble(total - |kept|);
    HasBracket(Physical(kept, total)[k], m);
    InSecond(Preamble(total - |kept|), AllLines(StableSort.Sort(kept, BY_CREATION)), k);
  }

  lemma NoBracketInPreamble(omitted: int)
    ensures forall line | line in Preamble(omitted) :: '[' !in line
  {
    PreambleLines(omitted);
  }

  lemma InSecond(first: seq<string>, second: seq<string>, k: nat)
    requires k < |first + second| && '[' in (first + second)[k]
    requires forall line | line in first :: '[' !in line
    ensures (first + second)[k] in second
  {
  }

  lemma HasBracket(line: string, m: string)
    requires MarkerShape(m) && Contains(line, m)
    ensures '[' in line
  {
    var i :| 0 <= i <= |line| && OccursAt(line, m, i);
    assert line[i] == line[i..i + |m|][0];
  }

  lemma EvidenceOfOne(h: Heuristics, request: CompactRequest, g: Fragment, f: Fragment)
    requires Quotable(h, request) && f in request.fragments && g in request.fragments
    requires Contains(LineOf(h, request, g), Marker(f))
    ensures f == g
  {
    PlainMarker(f);
    PlainMarker(g);
    LineQuotes(Marker(g), Extract(h, request, g), Marker(f));
    assert !Contains(Extract(h, request, g), Marker(f));
    MarkerInjective(f, g);
  }

  /** The fallback's checkpoint passes verification, for every estimator, target and heuristic. */
  lemma StructuredPasses(h: Heuristics, request: CompactRequest)
    requires Quotable(h, request) && NoMixedPair(request.fragments)
    ensures EvidenceHolds(StructuredCompact(h, request).content, request.fragments)
  {
    if request.targetTokens > 0 && request.fragments != [] {
      var ranked := Ranked(h, request);
      var kept := Fill(FitsTarget(request, |ranked|), ranked, |ranked|);
      forall e | e in kept ensures FromSource(h, request, e) {
        KeptFromSource(h, request, e);
      }
      RenderedEvidence(h, request, kept, |ranked|);
    }
  }

  lemma RenderedEvidence(h: Heuristics, request: CompactRequest, kept: seq<Exchange>, total: nat)
    requires Quotable(h, request) && NoMixedPair(request.fragments)
    requires forall e | e in kept :: FromSource(h, request, e)
    ensures EvidenceHolds(Render(kept, total), request.fragments)
  {
    var content := Render(kept, total);
    RenderedLinesCited(h, request, kept, total);
    forall f, g | f in request.fragments && g in request.fragments && f.pairId != "" && f.pairId == g.pairId
      ensures Contains(content, Marker(f)) <==> Contains(content, Marker(g))
    {
      RenderedMarkers(h, request, kept, total, f);
      RenderedMarkers(h, request, kept, total, g);
      if KeptLine(h, request, kept, f) {
        PairKept(h, request, kept, f, g);
      }
      if KeptLine(h, request, kept, g) {
        PairKept(h, request, kept, g, f);
      }
    }
  }

  /** So with the extractive fallback behind it, verified compaction never fails. */
  lemma VerifiedNeverFails(primary: Compactor, h: Heuristics, request: CompactRequest)
    requires Quotable(h, request) && NoMixedPair(request.fragments)
    ensures VerifiedCompact(primary, h, request).Ok?
  {
    StructuredPasses(h, request);
  }

  // ---- The condition is exact ----

  function WithBudget(request: CompactRequest, estimator: Estimator, target: int): CompactRequest {
    request.(estimator := estimator, targetTokens := target)
  }

  lemma {:induction false} FillEverything(fits: seq<Exchange> -> bool, ranked: seq<Exchange>, n: nat)
    requires n <= |ranked| && forall kept :: fits(kept)
    ensures Fill(fits, ranked, n) == ranked[..n]
  {
    if n > 0 {
      FillEverything(fits, ranked, n - 1);
    }
  }

  lemma {:induction false} ExchangeListed(
      h: Heuristics, request: CompactRequest, keys: seq<string>, key: string, e: Exchange)
    requires key in keys
    requires e.lines != [] && e == Digest(h, request, Selection.Members(request.fragments, key))
    ensures e in Exchanges(h, request, keys)
  {
    var n := |keys| - 1;
    ExchangesLast(h, request, keys, e);
    if keys[n] != key {
      KeyBefore(keys, key);
      ExchangeListed(h, request, keys[..n], key, e);
    }
  }

  lemma KeyBefore(keys: seq<string>, key: string)
    requires key in keys && keys[|keys| - 1] != key
    ensures key in keys[..|keys| - 1]
  {
  }

  lemma ExchangesLast(h: Heuristics, request: CompactRequest, keys: seq<string>, e: Exchange)
    requires keys != []
    ensures
      var n := |keys| - 1;
      e in Exchanges(h, request, keys[..n])
      || (e.lines != [] && e == Digest(h, request, Selection.Members(request.fragments, keys[n])))
      ==> e in Exchanges(h, request, keys)
  {
  }

  /** With nothing to limit it, the checkpoint keeps a line for every non-blank source. */
  lemma EverythingKept(h: Heuristics, request: CompactRequest, g: Fragment)
    requires g in request.fragments && !Blank(g)
    ensures KeptLine(h, request, Ranked(h, request), g)
  {
    var keys, key := Selection.KeyOrder(request.fragments), UnitKey(g);
    var e := Digest(h, request, Selection.Members(request.fragments, key));
    Selection.KeyOrderComplete(request.fragments, g);
    MembersAre(request.fragments, key, g);
    DigestLines(h, request, Selection.Members(request.fragments, key), LineOf(h, request, g));
    ExchangeListed(h, request, keys, key, e);
    assert e in multiset(Exchanges(h, request, keys)) && e in multiset(Ranked(h, request));
  }

  /** A blank source never has a line. */
  lemma BlankNotKept(h: Heuristics, request: CompactRequest, kept: seq<Exchange>, f: Fragment)
    requires Quotable(h, request) && f in request.fragments && Blank(f)
    requires forall e | e in kept :: FromSource(h, request, e)
    ensures !KeptLine(h, request, kept, f)
  {
    if KeptLine(h, request, kept, f) {
      var e :| e in kept && LineOf(h, request, f) in e.lines;
      assert FromSource(h, request, e);
      var key :| e == Digest(h, request, Selection.Members(request.fragments, key)) && e.lines != [];
      var members := Selection.Members(request.fragments, key);
      DigestLines(h, request, members, LineOf(h, request, f));
      var f' :| f' in members && !Blank(f') && LineOf(h, request, f') == LineOf(h, request, f);
      MembersAre(request.fragments, key, f');
      SameLineSameSource(h, request, f, f');
    }
  }

  const FREE: Estimator := (text: string) => 0

  /** A pair with a blank and a non-blank member makes the fallback break its own contract once it is kept. */
  lemma MixedPairFails(h: Heuristics, request: CompactRequest, f: Fragment, g: Fragment)
    requires Quotable(h, request)
    requires f in request.fragments && g in request.fragments && PairMixed(f, g)
    ensures !EvidenceHolds(StructuredCompact(h, WithBudget(request, FREE, 1)).content, request.fragments)
  {
    var free := WithBudget(request, FREE, 1);
    var ranked := Ranked(h, free);
    SameQuotable(h, request, free);
    UnlimitedKeepsAll(h, free);
    EverythingKept(h, free, g);
    forall e | e in ranked ensures FromSource(h, free, e) {
      KeptFromSource(h, free, e);
    }
    MixedPairBreaks(h, free, ranked, f, g);
  }

  lemma MixedPairBreaks(h: Heuristics, free: CompactRequest, kept: seq<Exchange>, f: Fragment, g: Fragment)
    requires Quotable(h, free) && f in free.fragments && g in free.fragments && PairMixed(f, g)
    requires (forall e | e in kept :: FromSource(h, free, e)) && KeptLine(h, free, kept, g)
    ensures !EvidenceHolds(Render(kept, |kept|), free.fragments)
  {
    BlankNotKept(h, free, kept, f);
    RenderedMarkers(h, free, kept, |kept|, f);
    RenderedMarkers(h, free, kept, |kept|, g);
    MarkedIsNotEmpty(Render(kept, |kept|), g);
  }

  lemma MarkedIsNotEmpty(content: string, g: Fragment)
    requires Contains(content, Marker(g))
    ensures content != ""
  {
    assert Marker(g)[0] == '[';
  }

  lemma SameQuotable(h: Heuristics, request: CompactRequest, other: CompactRequest)
    requires Quotable(h, request) && other == WithBudget(request, other.estimator, other.targetTokens)
    ensures Quotable(h, other)
  {
    forall a | a in request.fragments ensures Extract(h, other, a) == Extract(h, request, a) {
    }
  }

  lemma UnlimitedKeepsAll(h: Heuristics, free: CompactRequest)
    requires free.estimator == FREE && free.targetTokens == 1
    ensures
      var ranked := Ranked(h, free);
      && Fill(FitsTarget(free, |ranked|), ranked, |ranked|) == ranked
      && (free.fragments != [] && ranked != [] ==> StructuredCompact(h, free).content == Render(ranked, |ranked|))
  {
    var ranked := Ranked(h, free);
    FillEverything(FitsTarget(free, |ranked|), ranked, |ranked|);
    assert ranked[..|ranked|] == ranked;
  }

  /**
   * For sources with plain unique IDs and no quoted markers, the fallback honours the evidence
   * contract under every budget exactly when no pair mixes a blank with a non-blank member.
   */
  lemma FallbackContract(h: Heuristics, request: CompactRequest)
    requires Quotable(h, request)
    ensures NoMixedPair(request.fragments) <==>
      forall estimator: Estimator, target: int ::
        EvidenceHolds(StructuredCompact(h, WithBudget(request, estimator, target)).content, request.fragments)
  {
    if NoMixedPair(request.fragments) {
      forall estimator: Estimator, target: int
        ensures EvidenceHolds(StructuredCompact(h, WithBudget(request, estimator, target)).content, request.fragments)
      {
        SameQuotable(h, request, WithBudget(request, estimator, target));
        StructuredPasses(h, WithBudget(request, estimator, target));
      }
    } else {
      var f, g :| f in request.fragments && g in request.fragments && PairMixed(f, g);
      MixedPairFails(h, request, f, g);
    }
  }
}
