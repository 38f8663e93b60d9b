/** Checkpoint compaction: the extractive compactor and the evidence boundary around any other one. */
module Checkpoint {
  import opened Wrappers
  import opened Text
  import opened ContextTypes
  import opened Excerpts
  import Selection
  import StableSort

  datatype CompactRequest = CompactRequest(
    fragments: seq<Fragment>, targetTokens: int, estimator: Estimator, focus: string,
    semanticRelevance: Option<string -> SemanticHint>)

  type Compactor = CompactRequest -> Result<Fragment, string>

  /** The lexical heuristics, left open: a relevance score and where a window should open. */
  datatype Heuristics = Heuristics(relevanceOf: (string, string) -> int, anchorOf: (string, string) -> Anchor)

  /** The evidence marker of a source. */
  function Marker(f: Fragment): string {
    "[" + KindName(f.kind) + ":" + f.id + "]"
  }

  // ---- The extractive compactor ----

  function ExtractLimit(kind: Kind): nat {
    if kind == Decision || kind == OpenTask || kind == ToolResult then 520 else 360
  }

  function HintFor(request: CompactRequest, f: Fragment): SemanticHint {
    if request.semanticRelevance == None then SemanticHint(0.0, 0, 0) else request.semanticRelevance.value(f.id)
  }

  predicate Blank(f: Fragment) {
    CompactWhitespace(f.content) == ""
  }

  function Extract(h: Heuristics, request: CompactRequest, f: Fragment): string {
    var content := CompactWhitespace(f.content);
    HintedExcerpt(content, ExtractLimit(f.kind), HintFor(request, f), h.anchorOf(content, request.focus))
  }

  const SEMANTIC_WEIGHT := 24.0

  function Truncate(r: real): int {
    if r >= 0.0 then r.Floor else -(-r).Floor
  }

  function Relevance(h: Heuristics, request: CompactRequest, f: Fragment): int {
    h.relevanceOf(Extract(h, request, f), request.focus) + Truncate(SEMANTIC_WEIGHT * HintFor(request, f).score)
  }

  function Line(marker: string, extract: string): string {
    "- " + marker + " " + extract
  }

  function LineOf(h: Heuristics, request: CompactRequest, f: Fragment): string {
    Line(Marker(f), Extract(h, request, f))
  }

  /** One exchange: its rank and its evidence lines. */
  datatype Exchange = Exchange(priority: int, relevance: int, created: Time, lines: seq<string>) {
    function Text(): string { Join(lines, [NEWLINE]) }
  }

  function Digest(h: Heuristics, request: CompactRequest, members: seq<Fragment>): Exchange {
    if members == [] then Exchange(0, 0, 0, [])
    else
      var n := |members| - 1;
      Extended(h, request, Digest(h, request, members[..n]), members[n])
  }

  /** A non-blank fragment adds its rank and its line. */
  function Extended(h: Heuristics, request: CompactRequest, e: Exchange, f: Fragment): Exchange {
    if Blank(f) then e
    else Exchange(Max(e.priority, f.priority), e.relevance + Relevance(h, request, f),
                  Max(e.created, f.createdAt), e.lines + [LineOf(h, request, f)])
  }

  /** The non-empty exchanges of the first n unit keys. */
  function Exchanges(h: Heuristics, request: CompactRequest, keys: seq<string>): (exchanges: seq<Exchange>)
    ensures forall e | e in exchanges :: e.lines != []
  {
    if keys == [] then []
    else
      var init := Exchanges(h, request, keys[..|keys| - 1]);
      var e := Digest(h, request, Selection.Members(request.fragments, keys[|keys| - 1]));
      if e.lines == [] then init else init + [e]
  }

  predicate ExchangeBefore(a: Exchange, b: Exchange) {
    if a.priority != b.priority then a.priority > b.priority
    else if a.relevance != b.relevance then a.relevance > b.relevance
    else a.created > b.created
  }

  const EXCHANGE_RANK: (Exchange, Exchange) -> bool := (a, b) => ExchangeBefore(a, b)
  const BY_CREATION: (Exchange, Exchange) -> bool := (a: Exchange, b: Exchange) => a.created < b.created

  const TITLE := "# Compacted evidence"
  // The notes are spelled in phrases, because the solver reads a literal one character at a time.
  const PROVENANCE_NOTE := "Extractive checkpoint; " + "source IDs remain " + "authoritative."
  const OMISSION_TAIL := " earlier exchange(s) " + "are not shown here " + "at all."
  const EXTRACTS_NOTE := "> Lines below are " + "extracts; "
  const SHORTENING_NOTE := "shortening omits " + "the middle or other " + "material, marked \U{2026}; "
  const SEARCH_NOTE := "call context_search " + "with a keyword " + "or source ID "
  const ANSWER_NOTE := "to retrieve saved " + "evidence before " + "answering."
  const RETRIEVAL_NOTE := EXTRACTS_NOTE + SHORTENING_NOTE + SEARCH_NOTE + ANSWER_NOTE

  function OmissionNote(omitted: int): seq<string> {
    if omitted > 0 then ["> " + Decimal(omitted) + OMISSION_TAIL] else []
  }

  function Preamble(omitted: int): seq<string> {
    [TITLE, PROVENANCE_NOTE] + OmissionNote(omitted) + [RETRIEVAL_NOTE]
  }

  function Body(exchanges: seq<Exchange>): string {
    if exchanges == [] then "" else exchanges[0].Text() + [NEWLINE] + Body(exchanges[1..])
  }

  function Render(exchanges: seq<Exchange>, total: nat): string {
    TrimSpace(Unlines(Preamble(total - |exchanges|)) + Body(StableSort.Sort(exchanges, BY_CREATION)))
  }

  /** Whether the complete serialized checkpoint, preamble included, is within the target. */
  function FitsTarget(request: CompactRequest, total: nat): seq<Exchange> -> bool {
    (kept: seq<Exchange>) => request.estimator(Render(kept, total)) <= request.targetTokens
  }

  /** Keep every exchange, in rank order, with which the checkpoint still fits. */
  function Fill(fits: seq<Exchange> -> bool, ranked: seq<Exchange>, n: nat): (kept: seq<Exchange>)
    requires n <= |ranked|
    ensures kept != [] ==> fits(kept)
  {
    if n == 0 then []
    else
      var init := Fill(fits, ranked, n - 1);
      var candidate := init + [ranked[n - 1]];
      if fits(candidate) then candidate else init
  }

  function LatestTime(members: seq<Fragment>): Time {
    if members == [] then 0
    else
      var init := LatestTime(members[..|members| - 1]);
      var f := members[|members| - 1];
      if Blank(f) then init else Max(init, f.createdAt)
  }

  function CheckpointOf(content: string, created: Time): Fragment {
    Fragment("checkpoint:extractive", ContextTypes.Checkpoint, "session", "hermetrix:structured-compactor-v1",
             "derived", "v1", 85, false, "rolling", content, "", created, map[])
  }

  function Ranked(h: Heuristics, request: CompactRequest): seq<Exchange> {
    StableSort.Sort(Exchanges(h, request, Selection.KeyOrder(request.fragments)), EXCHANGE_RANK)
  }

  function StructuredCompact(h: Heuristics, request: CompactRequest): Fragment {
    if request.targetTokens <= 0 || request.fragments == [] then EMPTY_FRAGMENT
    else
      var ranked := Ranked(h, request);
      var kept := Fill(FitsTarget(request, |ranked|), ranked, |ranked|);
      if kept == [] then EMPTY_FRAGMENT
      else CheckpointOf(Render(kept, |ranked|), LatestTime(request.fragments))
  }

  method RunStructuredCompact(h: Heuristics, request: CompactRequest) returns (checkpoint: Fragment)
    ensures checkpoint == StructuredCompact(h, request)
  {
    if request.targetTokens <= 0 || request.fragments == [] {
      return EMPTY_FRAGMENT;
    }
    var byKey, keys := Selection.GroupByKey(request.fragments);
    var exchanges := [];
    for i := 0 to |keys|
      invariant exchanges == Exchanges(h, request, keys[..i])
    {
      assert keys[..i + 1][..i] == keys[..i];
      var e := RunDigest(h, request, byKey[keys[i]]);
      if e.lines != [] {
        exchanges := exchanges + [e];
      }
    }
    assert keys[..|keys|] == keys;
    var created := RunLatestTime(request.fragments);
    var ranked := StableSort.Sort(exchanges, EXCHANGE_RANK);
    var kept := RunFill(FitsTarget(request, |ranked|), ranked);
    if kept == [] {
      return EMPTY_FRAGMENT;
    }
    return CheckpointOf(Render(kept, |ranked|), created);
  }

  method RunFill(fits: seq<Exchange> -> bool, ranked: seq<Exchange>) returns (kept: seq<Exchange>)
    ensures kept == Fill(fits, ranked, |ranked|)
  {
    kept := [];
    for i := 0 to |ranked|
      invariant kept == Fill(fits, ranked, i)
    {
      if fits(kept + [ranked[i]]) {
        kept := kept + [ranked[i]];
      }
    }
  }

  method RunDigest(h: Heuristics, request: CompactRequest, members: seq<Fragment>) returns (e: Exchange)
    ensures e == Digest(h, request, members)
  {
    e := Exchange(0, 0, 0, []);
    for j := 0 to |members|
      invariant e == Digest(h, request, members[..j])
    {
      assert members[..j + 1][..j] == members[..j];
      e := Extended(h, request, e, members[j]);
    }
    assert members[..|members|] == members;
  }

  method RunLatestTime(fragments: seq<Fragment>) returns (created: Time)
    ensures created == LatestTime(fragments)
  {
    created := 0;
    for j := 0 to |fragments|
      invariant created == LatestTime(fragments[..j])
    {
      assert fragments[..j + 1][..j] == fragments[..j];
      if !Blank(fragments[j]) {
        created := Max(created, fragments[j].createdAt);
      }
    }
    assert fragments[..|fragments|] == fragments;
  }

  // ---- The evidence boundary ----

  /** Structure or self-description rather than a claim about the session. */
  predicate IsPreamble(line: string) {
    "#" <= line || "Extractive checkpoint;" <= line || "> " <= line
  }

  predicate Known(source: seq<Fragment>, marker: string) {
    exists f | f in source :: Marker(f) == marker
  }

  /** Blank and preamble lines pass; every other line must open with a known source marker. */
  predicate LineCited(source: seq<Fragment>, raw: string) {
    var line := TrimSpace(raw);
    line == "" || IsPreamble(line) ||
    ("- [" <= line && IndexOf(line, ']') < |line| && Known(source, line[2..IndexOf(line, ']') + 1]))
  }

  predicate PairsTogether(content: string, source: seq<Fragment>) {
    forall f, g | f in source && g in source && f.pairId != "" && f.pairId == g.pairId ::
      Contains(content, Marker(f)) <==> Contains(content, Marker(g))
  }

  /** verifyCheckpointEvidence: every statement is cited and no causal pair is split. */
  predicate EvidenceHolds(content: string, source: seq<Fragment>) {
    content == "" ||
    ((forall line | line in Split(content) :: LineCited(source, line)) && PairsTogether(content, source))
  }

  datatype EvidenceError = NoMarker | UnknownSource | SplitPair(pairId: string)

  method VerifyCheckpointEvidence(content: string, source: seq<Fragment>) returns (error: Option<EvidenceError>)
    ensures error == None <==> EvidenceHolds(content, source)
  {
    if content == "" {
      return None;
    }
    var known, pairs := CollectMarkers(source);
    error := CheckLines(source, known, Split(content));
    if error == None {
      error := CheckPairs(content, source, pairs);
    }
  }

  /** The markers of every pair, and of nothing else. */
  predicate PairMarkers(source: seq<Fragment>, pairs: map<string, seq<string>>) {
    && (forall p | p in pairs :: p != "")
    && (forall f | f in source && f.pairId != "" :: f.pairId in pairs && Marker(f) in pairs[f.pairId])
    && (forall p, m | p in pairs && m in pairs[p] :: exists f | f in source :: f.pairId == p && Marker(f) == m)
  }

  lemma PairMarkersMore(source: seq<Fragment>, pairs: map<string, seq<string>>, f: Fragment)
    requires PairMarkers(source, pairs)
    ensures
      var known := if f.pairId in pairs then pairs[f.pairId] else [];
      PairMarkers(source + [f], if f.pairId == "" then pairs else pairs[f.pairId := known + [Marker(f)]])
  {
    assert f in source + [f];
    forall p, m | p in pairs && m in pairs[p] ensures exists g | g in source + [f] :: g.pairId == p && Marker(g) == m {
      var g :| g in source && g.pairId == p && Marker(g) == m;
      assert g in source + [f];
    }
  }

  method CollectMarkers(source: seq<Fragment>) returns (known: set<string>, pairs: map<string, seq<string>>)
    ensures known == (set f | f in source :: Marker(f)) && PairMarkers(source, pairs)
  {
    known, pairs := {}, map[];
    for i := 0 to |source|
      invariant known == set f | f in source[..i] :: Marker(f)
      invariant PairMarkers(source[..i], pairs)
    {
      var f := source[i];
      assert source[..i + 1] == source[..i] + [f];
      known := known + {Marker(f)};
      PairMarkersMore(source[..i], pairs, f);
      if f.pairId != "" {
        pairs := pairs[f.pairId := (if f.pairId in pairs then pairs[f.pairId] else []) + [Marker(f)]];
      }
    }
    assert source[..|source|] == source;
  }

  method CheckLines(source: seq<Fragment>, known: set<string>, lines: seq<string>) returns (error: Option<EvidenceError>)
    requires known == set f | f in source :: Marker(f)
    ensures error == None <==> forall line | line in lines :: LineCited(source, line)
  {
    for i := 0 to |lines|
      invariant forall line | line in lines[..i] :: LineCited(source, line)
    {
      assert lines[..i + 1] == lines[..i] + [lines[i]];
      var line := TrimSpace(lines[i]);
      if line == "" || IsPreamble(line) {
        continue;
      }
      if !("- [" <= line) {
        assert !LineCited(source, lines[i]);
        return Some(NoMarker);
      }
      var end := IndexOf(line, ']');
      if end == |line| || line[2..end + 1] !in known {
        assert !LineCited(source, lines[i]);
        return Some(UnknownSource);
      }
    }
    assert lines[..|lines|] == lines;
    error := None;
  }

  method CheckPairs(content: string, source: seq<Fragment>, pairs: map<string, seq<string>>)
    returns (error: Option<EvidenceError>)
    requires PairMarkers(source, pairs)
    ensures error == None <==> PairsTogether(content, source)
  {
    var left := pairs.Keys;
    while left != {}
      invariant left <= pairs.Keys
      invariant forall p, a, b | p in pairs.Keys - left && a in pairs[p] && b in pairs[p] ::
        Contains(content, a) <==> Contains(content, b)
      decreases left
    {
      var p :| p in left;
      var present := CountPresent(content, pairs[p]);
      if present != 0 && present != |pairs[p]| {
        ghost var a :| a in pairs[p] && Contains(content, a);
        ghost var b :| b in pairs[p] && !Contains(content, b);
        ghost var f :| f in source && f.pairId == p && Marker(f) == a;
        ghost var g :| g in source && g.pairId == p && Marker(g) == b;
        assert !PairsTogether(content, source);
        return Some(SplitPair(p));
      }
      left := left - {p};
    }
    error := None;
  }

  method CountPresent(content: string, markers: seq<string>) returns (present: nat)
    ensures present <= |markers|
    ensures present == 0 <==> forall m | m in markers :: !Contains(content, m)
    ensures present == |markers| <==> forall m | m in markers :: Contains(content, m)
  {
    present := 0;
    for i := 0 to |markers|
      invariant present <= i
      invariant present == 0 <==> forall m | m in markers[..i] :: !Contains(content, m)
      invariant present == i <==> forall m | m in markers[..i] :: Contains(content, m)
    {
      assert markers[..i + 1] == markers[..i] + [markers[i]];
      if Contains(content, markers[i]) {
        present := present + 1;
      }
    }
    assert markers[..|markers|] == markers;
  }

  /** The primary's answer when it fits and verifies, otherwise the extractive fallback, verified too. */
  function VerifiedCompact(primary: Compactor, h: Heuristics, request: CompactRequest): Result<Fragment, string> {
    var attempt := primary(request);
    if attempt.Ok? && request.estimator(attempt.value.content) <= request.targetTokens
       && EvidenceHolds(attempt.value.content, request.fragments) then
      Ok(attempt.value.(provenance := attempt.value.provenance + ":verified"))
    else
      var fallback := StructuredCompact(h, request);
      if EvidenceHolds(fallback.content, request.fragments) then
        Ok(fallback.(provenance := fallback.provenance + ":verified-fallback"))
      else Err("deterministic fallback violated evidence contract")
  }

  function Verified(primary: Compactor, h: Heuristics): Compactor {
    (request: CompactRequest) => VerifiedCompact(primary, h, request)
  }

  method RunVerifiedCompact(primary: Compactor, h: Heuristics, request: CompactRequest)
    returns (result: Result<Fragment, string>)
    ensures result == VerifiedCompact(primary, h, request)
  {
    var attempt := primary(request);
    if attempt.Ok? && request.estimator(attempt.value.content) <= request.targetTokens {
      var error := VerifyCheckpointEvidence(attempt.value.content, request.fragments);
      if error == None {
        return Ok(attempt.value.(provenance := attempt.value.provenance + ":verified"));
      }
    }
    var fallback := RunStructuredCompact(h, request);
    var error := VerifyCheckpointEvidence(fallback.content, request.fragments);
    if error != None {
      return Err("deterministic fallback violated evidence contract");
    }
    return Ok(fallback.(provenance := fallback.provenance + ":verified-fallback"));
  }

  /** The extractive checkpoint is empty or within its target. */
  lemma StructuredFits(h: Heuristics, request: CompactRequest)
    ensures
      var content := StructuredCompact(h, request).content;
      content != "" ==> request.estimator(content) <= request.targetTokens
  {
    if request.targetTokens > 0 && request.fragments != [] {
      var ranked := Ranked(h, request);
      var kept := Fill(FitsTarget(request, |ranked|), ranked, |ranked|);
      if kept != [] {
        assert FitsTarget(request, |ranked|)(kept);
      }
    }
  }

  /** Whatever the primary answers, a checkpoint that leaves the boundary fits, is cited and splits no pair. */
  lemma VerifiedIsSound(primary: Compactor, h: Heuristics, request: CompactRequest)
    requires VerifiedCompact(primary, h, request).Ok?
    ensures
      var content := VerifiedCompact(primary, h, request).value.content;
      && (content != "" ==> request.estimator(content) <= request.targetTokens)
      && EvidenceHolds(content, request.fragments)
  {
    StructuredFits(h, request);
    var fallback := StructuredCompact(h, request);
    var attempt := primary(request);
    var content := VerifiedCompact(primary, h, request).value.content;
    assert content == fallback.content || (attempt.Ok? && content == attempt.value.content);
  }
}
