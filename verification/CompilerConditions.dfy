/** What a caller can check of a request before a compile, and when the final window guard can fire at all. */
module CompilerConditions {
  import opened Wrappers
  import opened Text
  import opened ContextTypes
  import opened Sums
  import opened Selection
  import opened Preparation
  import opened Excerpts
  import opened Checkpoint
  import opened Compiler
  import opened CompilerTheorems
  import opened MarkerQuotes
  import CheckpointEvidence

  // ---- A request the extractive fallback can always serve ----

  /** Unique plain IDs, pairs of tool kinds, no half-blank pair, no quoted marker, and no blank tool result to spill. */
  ghost predicate PlainRequest(estimator: Estimator, request: Request) {
    && WellPaired(request.fragments) && CheckpointEvidence.NoMixedPair(request.fragments)
    && forall f | f in request.fragments ::
         && CheckpointEvidence.PlainId(f.id) && !QuotesMarker(f.content)
         && !(Blank(f) && MustSpill(estimator, f, request.profile.maxInlineTool))
  }

  /** The references and checksums a spiller gives out do not read like markers. */
  ghost predicate PlainSpiller(spiller: Option<Spiller>, request: Request) {
    forall f | spiller.Some? && f in request.fragments && spiller.value(f.content).Ok? ::
      !HasHead(spiller.value(f.content).value.ref) && !HasHead(spiller.value(f.content).value.checksum)
  }

  /** The fragment is one of the request's, but for its pin, or the receipt of one. */
  predicate FromRequest(request: Request, g: Fragment) {
    exists u | u in request.fragments :: u.id == g.id && u.pairId == g.pairId && (Blank(u) <==> Blank(g))
  }

  lemma RepinnedFrom(estimator: Estimator, request: Request, u: Fragment, pinned: set<string>)
    requires PlainRequest(estimator, request) && u in request.fragments
    ensures
      var g := Repin(u, pinned);
      && g.id == u.id && g.pairId == u.pairId && g.content == u.content
      && !(Blank(g) && MustSpill(estimator, g, request.profile.maxInlineTool))
  {
  }

  /** What spilling makes of one fragment of a plain request. */
  lemma SpilledPlain(
      estimator: Estimator, request: Request, spiller: Option<Spiller>, u: Fragment, pinned: set<string>, g: Fragment)
    requires PlainRequest(estimator, request) && PlainSpiller(spiller, request) && u in request.fragments
    requires SpillOne(estimator, Repin(u, pinned), request.profile.maxInlineTool, spiller).Ok?
    requires g == SpillOne(estimator, Repin(u, pinned), request.profile.maxInlineTool, spiller).value.0
    ensures FromRequest(request, g) && CheckpointEvidence.PlainId(g.id) && !QuotesMarker(g.content)
  {
    var f := Repin(u, pinned);
    RepinnedFrom(estimator, request, u, pinned);
    if MustSpill(estimator, f, request.profile.maxInlineTool) {
      var receipt := spiller.value(f.content).value;
      ReceiptUnquoted(f, receipt);
      ReceiptNotBlank(f, receipt);
    }
  }

  lemma PreparedPlain(estimator: Estimator, request: Request, spiller: Option<Spiller>, g: Fragment)
    requires PlainRequest(estimator, request) && PlainSpiller(spiller, request)
    requires Prepare(estimator, request, spiller).Ok? && g in Prepare(estimator, request, spiller).value.fragments
    ensures FromRequest(request, g) && CheckpointEvidence.PlainId(g.id) && !QuotesMarker(g.content)
  {
    var unique, limit := Deduplicate(request.fragments), request.profile.maxInlineTool;
    var pinned := PropagatePairPins(unique);
    var out := SpillLargeTools(estimator, pinned, limit, spiller).value.fragments;
    var i :| 0 <= i < |out| && out[i] == g;
    SpillAt(estimator, pinned, limit, spiller, i);
    DeduplicateRepresents(request.fragments, BY_CONTENT);
    assert unique[i] in unique;
    SpilledPlain(estimator, request, spiller, unique[i], PinnedPairs(unique), g);
  }

  /** What is dropped of a plain request can be quoted as it is. */
  lemma DroppedPlain(estimator: Estimator, request: Request, spiller: Option<Spiller>, plan: Plan, f: Fragment)
    requires PlainRequest(estimator, request) && PlainSpiller(spiller, request)
    requires PlanOf(estimator, request, spiller) == Ok(plan)
    requires f in SelectActive(estimator, plan, request.profile.summaryTarget).dropped
    ensures FromRequest(request, f) && f in plan.prepared.fragments
    ensures CheckpointEvidence.PlainId(f.id) && !QuotesMarker(f.content)
  {
    var active := SelectActive(estimator, plan, request.profile.summaryTarget);
    PlanIsSound(estimator, request, spiller);
    ActiveIsSound(estimator, request, plan);
    assert f in multiset(active.dropped);
    assert f in multiset(plan.candidates);
    InSliceAre(plan.prepared.fragments, Active, f);
    PreparedPlain(estimator, request, spiller, f);
  }

  lemma PlainFallback(estimator: Estimator, request: Request, spiller: Option<Spiller>, plan: Plan, h: Heuristics)
    requires PlainRequest(estimator, request) && PlainSpiller(spiller, request)
    requires PlanOf(estimator, request, spiller) == Ok(plan)
    ensures FallbackApplies(estimator, request, plan, h)
  {
    var active := SelectActive(estimator, plan, request.profile.summaryTarget);
    var dropped := active.dropped;
    PlanIsSound(estimator, request, spiller);
    PrepareWellPaired(estimator, request, spiller);
    forall f | f in dropped
      ensures FromRequest(request, f) && f in plan.prepared.fragments
      ensures CheckpointEvidence.PlainId(f.id) && !QuotesMarker(f.content)
    {
      DroppedPlain(estimator, request, spiller, plan, f);
    }
    assert UniqueIds(dropped);
    PlainlyQuotable(h, CompactionOf(estimator, request, plan, active));
    forall f, g | f in dropped && g in dropped ensures !CheckpointEvidence.PairMixed(f, g) {
      NotMixed(request, f, g);
    }
  }

  lemma PlainlyQuotable(h: Heuristics, compaction: CompactRequest)
    requires UniqueIds(compaction.fragments)
    requires forall f | f in compaction.fragments :: CheckpointEvidence.PlainId(f.id) && !QuotesMarker(f.content)
    ensures CheckpointEvidence.Quotable(h, compaction)
  {
    forall f, g | f in compaction.fragments && g in compaction.fragments
      ensures !Contains(Extract(h, compaction, f), Marker(g))
    {
      ExtractUnquoted(h, compaction, f, g);
    }
  }

  lemma NotMixed(request: Request, f: Fragment, g: Fragment)
    requires CheckpointEvidence.NoMixedPair(request.fragments) && FromRequest(request, f) && FromRequest(request, g)
    ensures !CheckpointEvidence.PairMixed(f, g)
  {
    var u :| u in request.fragments && u.id == f.id && u.pairId == f.pairId && (Blank(u) <==> Blank(f));
    var v :| v in request.fragments && v.id == g.id && v.pairId == g.pairId && (Blank(v) <==> Blank(g));
    assert !CheckpointEvidence.PairMixed(u, v);
  }

  /**
   * The deployed compiler on a request its caller can check: whatever the primary compactor answers, the compile succeeds
   * exactly when the early checks pass.
   */
  lemma PlainRequestCompiles(
      estimator: Estimator, request: Request, spiller: Option<Spiller>, primary: Compactor, h: Heuristics)
    requires request.messageOverhead >= 0 && PlainRequest(estimator, request)
    requires PlainSpiller(spiller, request) && FreshNames(primary, request)
    ensures CompileResult(estimator, request, spiller, Some(Verified(primary, h))).Ok? <==>
      PlanOf(estimator, request, spiller).Ok?
  {
    var planned := PlanOf(estimator, request, spiller);
    if planned.Ok? {
      PlainFallback(estimator, request, spiller, planned.value, h);
    }
    DeployedCompileSucceeds(estimator, request, spiller, primary, h);
  }

  // ---- When the final window guard can fire ----

  const NOTE := EMPTY_FRAGMENT.(id := "note", content := "note")

  /** One message of history, whose overhead of -m the plan counts and the prompt without it does not. */
  function ShrinkingRequest(m: int): Request {
    Request(Profile("", 1, 0, 0, 0, 0, 0, 0, 1, 0, 0), [NOTE], [], 0, -m, 1 + m, None)
  }

  lemma NoteSlice(slice: Slice)
    ensures InSlice([NOTE], slice) == if slice == Active then [NOTE] else []
  {
    assert SliceFor(NOTE) == Active;
    assert [NOTE][..0] == [] && InSlice([], slice) == [];
  }

  lemma NoteUnique()
    ensures Deduplicate([NOTE]) == [NOTE]
  {
    assert DistinctKeys([NOTE], BY_CONTENT);
    DistinctSurvive([NOTE], BY_CONTENT, 1);
    assert [NOTE][..1] == [NOTE];
  }

  lemma NoteUnpaired()
    ensures PropagatePairPins([NOTE]) == [NOTE]
  {
    assert "" !in PinnedPairs([NOTE]);
    assert Repin(NOTE, PinnedPairs([NOTE])) == NOTE;
  }

  lemma NoteStays(estimator: Estimator)
    ensures SpillLargeTools(estimator, [NOTE], 0, None) == Ok(Spilled([NOTE], []))
  {
    var init, none: seq<SpillReceipt> := [], [];
    SpillMore(estimator, init, NOTE, 0, None);
    assert init + [NOTE] == [NOTE] && none + none == none;
  }

  lemma NotePrepared(estimator: Estimator, m: int)
    ensures Prepare(estimator, ShrinkingRequest(m), None) == Ok(Prepared([NOTE], [NOTE], []))
  {
    NoteUnique();
    NoteUnpaired();
    NoteStays(estimator);
  }

  lemma EmptySelection(estimator: Estimator, budget: int)
    ensures SelectWithin(estimator, [], budget) == Selected([], [], 0)
  {
    assert RankOrder([]) == [] && CanonicalOrder([]) == [];
  }

  /** A note that costs anything does not fit into nothing. */
  lemma NoteDropped(estimator: Estimator)
    requires estimator(NOTE.content) > 0
    ensures SelectWithin(estimator, [NOTE], 0) == Selected([], [NOTE], 0)
  {
    var r := SelectWithin(estimator, [NOTE], 0);
    SelectPartition(estimator, [NOTE], 0);
    SelectUsed(estimator, [NOTE], 0);
    assert |r.selected| + |r.dropped| == |multiset(r.selected) + multiset(r.dropped)| == |multiset([NOTE])| == 1;
    assert r.selected == [];
    assert r.dropped[0] in multiset(r.dropped);
    assert r.dropped == [NOTE];
  }

  const NOTHING := Selected([], [], 0)

  lemma NoteTransport(m: int)
    ensures TransportCost(ShrinkingRequest(m), [NOTE]) == 1 && TransportCost(ShrinkingRequest(m), []) == 1 + m
  {
    assert [NOTE][..0] == [] && NOTE in [NOTE] && !JoinsSystemMessage(NOTE);
    assert Messages([NOTE]) == 1 && Messages([]) == 0;
  }

  lemma NoteTokens(estimator: Estimator)
    ensures Tokens(estimator, [NOTE]) == estimator(NOTE.content) && Tokens(estimator, []) == 0
  {
    SumOne(NOTE, ContentCost(estimator));
  }

  function ShrinkingPlan(): Plan {
    Plan(Prepared([NOTE], [NOTE], []), NOTHING, NOTHING, NOTHING, [NOTE], 0, 0, 1, 1, 0)
  }

  lemma ShrinkingContext(estimator: Estimator, m: int)
    requires estimator(NOTE.content) > 0
    ensures
      FixedContext(estimator, ShrinkingRequest(m), 0, Prepared([NOTE], [NOTE], []), NOTHING, NOTHING, NOTHING, 0, [NOTE])
      == Ok(ShrinkingPlan())
  {
    NoteTransport(m);
    NoteTokens(estimator);
    assert NOTHING.selected + NOTHING.selected + NOTHING.selected + [NOTE] == [NOTE];
  }

  /** The plan of that request counts the note's overhead and leaves nothing for the note. */
  lemma ShrinkingPlanned(estimator: Estimator, m: int)
    requires estimator(NOTE.content) > 0
    ensures PlanOf(estimator, ShrinkingRequest(m), None) == Ok(ShrinkingPlan())
  {
    var request, prepared := ShrinkingRequest(m), Prepared([NOTE], [NOTE], []);
    NotePrepared(estimator, m);
    NoteSlice(System);
    NoteSlice(SkillsProject);
    NoteSlice(Pinned);
    NoteSlice(Active);
    EmptySelection(estimator, 0);
    NoteTokens(estimator);
    ShrinkingContext(estimator, m);
    assert PinnedBudgetOf(request, 0, 0, 0, 0) == Ok(0);
    assert PlanBudgets(estimator, request, 0, prepared) == Ok(ShrinkingPlan());
  }

  lemma ShrinkingSelected()
    ensures SelectedFragments(ShrinkingPlan(), Selected([], [NOTE], 0), EMPTY_FRAGMENT) == []
  {
    assert CheckpointList(EMPTY_FRAGMENT) == [];
    assert NOTHING.selected + NOTHING.selected + NOTHING.selected + CheckpointList(EMPTY_FRAGMENT) + [] == [];
  }

  lemma ShrinkingFinish(estimator: Estimator, m: int)
    requires m > 0
    ensures Finish(estimator, ShrinkingRequest(m), ShrinkingPlan(), Selected([], [NOTE], 0), EMPTY_FRAGMENT) ==
      Err(PredictedOverflow)
  {
    var request, plan, active := ShrinkingRequest(m), ShrinkingPlan(), Selected([], [NOTE], 0);
    ShrinkingSelected();
    NoteTransport(m);
    NoteTokens(estimator);
    assert ReportFor(estimator, request, plan, active, EMPTY_FRAGMENT).predictedInput == 1 + m;
  }

  /** Without a compactor a plan goes straight to the guards. */
  lemma NoCompactor(estimator: Estimator, request: Request, plan: Plan)
    ensures CompileFrom(estimator, request, plan, None) ==
      Finish(estimator, request, plan, SelectActive(estimator, plan, request.profile.summaryTarget), EMPTY_FRAGMENT)
  {
  }

  lemma PlannedCompile(estimator: Estimator, request: Request, plan: Plan)
    requires PlanOf(estimator, request, None) == Ok(plan)
    ensures CompileResult(estimator, request, None, None) == CompileFrom(estimator, request, plan, None)
  {
  }

  lemma NothingFits(estimator: Estimator)
    requires estimator(NOTE.content) > 0
    ensures SelectActive(estimator, ShrinkingPlan(), 0) == Selected([], [NOTE], 0)
  {
    NoteDropped(estimator);
    NoteTokens(estimator);
  }

  lemma ShrinkingOverflows(estimator: Estimator, m: int)
    requires m > 0 && estimator(NOTE.content) > 0
    ensures CompileResult(estimator, ShrinkingRequest(m), None, None) == Err(PredictedOverflow)
  {
    ShrinkingPlanned(estimator, m);
    PlannedCompile(estimator, ShrinkingRequest(m), ShrinkingPlan());
    NoCompactor(estimator, ShrinkingRequest(m), ShrinkingPlan());
    NothingFits(estimator);
    ShrinkingFinish(estimator, m);
  }

  /**
   * The final window guard is unreachable for a measured overhead exactly if the overhead is not negative: for a negative
   * one there is a request that only this guard stops.
   */
  lemma OverheadExactly(estimator: Estimator, overhead: int)
    requires estimator(NOTE.content) > 0
    ensures overhead >= 0 <==>
      forall request: Request, spiller: Option<Spiller>, compactor: Option<Compactor> | request.messageOverhead == overhead ::
        CompileResult(estimator, request, spiller, compactor) != Err(PredictedOverflow)
  {
    if overhead >= 0 {
      forall request: Request, spiller: Option<Spiller>, compactor: Option<Compactor> | request.messageOverhead == overhead
        ensures CompileResult(estimator, request, spiller, compactor) != Err(PredictedOverflow)
      {
        LateGuards(estimator, request, spiller, compactor);
      }
    } else {
      ShrinkingOverflows(estimator, -overhead);
      assert ShrinkingRequest(-overhead).messageOverhead == overhead;
    }
  }
}
