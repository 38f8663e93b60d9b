/** Compile's late guards cannot fire: the window, the ledger and the integrity of every selection. */
module CompilerTheorems {
  import opened Wrappers
  import opened Text
  import opened ContextTypes
  import opened Selection
  import opened Preparation
  import opened Checkpoint
  import opened Integrity
  import opened Compiler
  import opened Sums
  import CheckpointEvidence
  import StableSort

  // ---- Slices partition the prepared fragments ----

  lemma CountMore(s: seq<Fragment>, last: Fragment, f: Fragment)
    ensures multiset(s + [last])[f] == multiset(s)[f] + (if last == f then 1 else 0)
  {
  }

  lemma InSliceMore(init: seq<Fragment>, last: Fragment, slice: Slice)
    ensures InSlice(init + [last], slice) == if SliceFor(last) == slice then InSlice(init, slice) + [last] else InSlice(init, slice)
  {
    assert (init + [last])[..|init|] == init;
  }

  lemma InSliceCount(init: seq<Fragment>, last: Fragment, slice: Slice, f: Fragment)
    ensures multiset(InSlice(init + [last], slice))[f] ==
      multiset(InSlice(init, slice))[f] + (if last == f && SliceFor(last) == slice then 1 else 0)
  {
    InSliceMore(init, last, slice);
    CountMore(InSlice(init, slice), last, f);
  }

  /** How often a fragment occurs in the four slices of a list. */
  ghost function SlicesCount(fragments: seq<Fragment>, f: Fragment): nat {
    multiset(InSlice(fragments, System))[f] + multiset(InSlice(fragments, SkillsProject))[f]
    + multiset(InSlice(fragments, Pinned))[f] + multiset(InSlice(fragments, Active))[f]
  }

  lemma SlicesCountMore(init: seq<Fragment>, last: Fragment, f: Fragment)
    ensures SlicesCount(init + [last], f) == SlicesCount(init, f) + (if last == f then 1 else 0)
  {
    InSliceCount(init, last, System, f);
    InSliceCount(init, last, SkillsProject, f);
    InSliceCount(init, last, Pinned, f);
    InSliceCount(init, last, Active, f);
    var slice := SliceFor(last);
    assert slice == System || slice == SkillsProject || slice == Pinned || slice == Active;
  }

  lemma {:induction false} SlicesAddUp(fragments: seq<Fragment>, f: Fragment)
    ensures SlicesCount(fragments, f) == multiset(fragments)[f]
  {
    if fragments != [] {
      var init, last := fragments[..|fragments| - 1], fragments[|fragments| - 1];
      assert fragments == init + [last];
      SlicesAddUp(init, f);
      SlicesCountMore(init, last, f);
      CountMore(init, last, f);
    }
  }

  lemma SlicePartition(fragments: seq<Fragment>)
    ensures multiset(fragments) ==
      multiset(InSlice(fragments, System)) + multiset(InSlice(fragments, SkillsProject))
      + multiset(InSlice(fragments, Pinned)) + multiset(InSlice(fragments, Active))
  {
    forall f: Fragment ensures SlicesCount(fragments, f) == multiset(fragments)[f] {
      SlicesAddUp(fragments, f);
    }
    assert forall f: Fragment ::
      (multiset(InSlice(fragments, System)) + multiset(InSlice(fragments, SkillsProject))
       + multiset(InSlice(fragments, Pinned)) + multiset(InSlice(fragments, Active)))[f] == SlicesCount(fragments, f);
  }

  lemma {:induction false} InSliceAre(fragments: seq<Fragment>, slice: Slice, f: Fragment)
    ensures f in InSlice(fragments, slice) <==> f in fragments && SliceFor(f) == slice
  {
    if fragments != [] {
      var n := |fragments| - 1;
      assert fragments == fragments[..n] + [fragments[n]];
      InSliceAre(fragments[..n], slice, f);
    }
  }

  // ---- The plan ----

  function PinnedAllowance(estimator: Estimator, request: Request, prepared: Prepared): int {
    Max(request.profile.pinnedBudget, Tokens(estimator, InSlice(prepared.fragments, Pinned)))
  }

  /** The pinned budget always covers the pinned slice. */
  lemma PinnedAlwaysFit(estimator: Estimator, request: Request, prepared: Prepared)
    ensures
      var group := InSlice(prepared.fragments, Pinned);
      var pinned := SelectWithin(estimator, group, PinnedAllowance(estimator, request, prepared));
      && pinned.dropped == [] && multiset(pinned.selected) == multiset(group)
      && pinned.used == Tokens(estimator, pinned.selected)
  {
    var group := InSlice(prepared.fragments, Pinned);
    SelectAll(estimator, group, PinnedAllowance(estimator, request, prepared));
    SelectUsed(estimator, group, PinnedAllowance(estimator, request, prepared));
  }

  /** So nothing pinned is dropped at this stage. */
  lemma NothingPinnedDropped(estimator: Estimator, request: Request, toolTokens: int, prepared: Prepared)
    ensures PlanBudgets(estimator, request, toolTokens, prepared) != Err(PinnedDropped)
  {
    PinnedAlwaysFit(estimator, request, prepared);
  }

  /** What the fixed part of a plan contributes to it. */
  lemma ContextShape(
      estimator: Estimator, request: Request, toolTokens: int, prepared: Prepared, system: Selected, skills: Selected,
      pinned: Selected, pinnedBudget: int, candidates: seq<Fragment>, plan: Plan)
    requires FixedContext(estimator, request, toolTokens, prepared, system, skills, pinned, pinnedBudget, candidates) == Ok(plan)
    ensures plan.prepared == prepared && plan.toolTokens == toolTokens && plan.candidates == candidates
    ensures plan.system == system && plan.skills == skills && plan.pinned == pinned
    ensures plan.inputBudget == InputBudget(request.profile)
    ensures plan.basePrompt == system.used + skills.used + pinned.used + toolTokens
                               + TransportCost(request, FixedPart(plan) + candidates)
    ensures
      var hardLimit := plan.inputBudget - plan.basePrompt - request.worstCaseToolBurst;
      && hardLimit >= 0
      && plan.activeBudget == ActiveAllowance(plan.inputBudget, hardLimit, plan.basePrompt, Tokens(estimator, candidates))
  {
  }

  lemma BudgetShape(estimator: Estimator, request: Request, toolTokens: int, prepared: Prepared, plan: Plan)
    requires PlanBudgets(estimator, request, toolTokens, prepared) == Ok(plan)
    ensures
      var allowance := PinnedAllowance(estimator, request, prepared);
      FixedContext(
        estimator, request, toolTokens, prepared,
        SelectWithin(estimator, InSlice(prepared.fragments, System), request.profile.systemBudget),
        SelectWithin(estimator, InSlice(prepared.fragments, SkillsProject), request.profile.skillProjectBudget),
        SelectWithin(estimator, InSlice(prepared.fragments, Pinned), allowance),
        allowance, InSlice(prepared.fragments, Active)) == Ok(plan)
  {
  }

  /** Where the parts of a plan come from. */
  lemma PlanShape(estimator: Estimator, request: Request, toolTokens: int, prepared: Prepared, plan: Plan)
    requires PlanBudgets(estimator, request, toolTokens, prepared) == Ok(plan)
    ensures plan.prepared == prepared && plan.toolTokens == toolTokens
    ensures plan.system == SelectWithin(estimator, InSlice(prepared.fragments, System), request.profile.systemBudget)
    ensures plan.skills ==
      SelectWithin(estimator, InSlice(prepared.fragments, SkillsProject), request.profile.skillProjectBudget)
    ensures plan.pinned ==
      SelectWithin(estimator, InSlice(prepared.fragments, Pinned), PinnedAllowance(estimator, request, prepared))
    ensures plan.candidates == InSlice(prepared.fragments, Active) && plan.inputBudget == InputBudget(request.profile)
    ensures plan.basePrompt == plan.system.used + plan.skills.used + plan.pinned.used + toolTokens
                               + TransportCost(request, FixedPart(plan) + plan.candidates)
    ensures
      var hardLimit := plan.inputBudget - plan.basePrompt - request.worstCaseToolBurst;
      && hardLimit >= 0
      && plan.activeBudget ==
         ActiveAllowance(plan.inputBudget, hardLimit, plan.basePrompt, Tokens(estimator, plan.candidates))
  {
    var allowance := PinnedAllowance(estimator, request, prepared);
    BudgetShape(estimator, request, toolTokens, prepared, plan);
    ContextShape(
      estimator, request, toolTokens, prepared,
      SelectWithin(estimator, InSlice(prepared.fragments, System), request.profile.systemBudget),
      SelectWithin(estimator, InSlice(prepared.fragments, SkillsProject), request.profile.skillProjectBudget),
      SelectWithin(estimator, InSlice(prepared.fragments, Pinned), allowance),
      allowance, InSlice(prepared.fragments, Active), plan);
  }

  function FixedPart(plan: Plan): seq<Fragment> {
    plan.system.selected + plan.skills.selected + plan.pinned.selected
  }

  /** What every successful plan satisfies. */
  ghost predicate SoundPlan(estimator: Estimator, request: Request, plan: Plan) {
    var source := plan.prepared.fragments;
    && multiset(plan.system.selected) + multiset(plan.system.dropped) == multiset(InSlice(source, System))
    && multiset(plan.skills.selected) + multiset(plan.skills.dropped) == multiset(InSlice(source, SkillsProject))
    && multiset(plan.pinned.selected) == multiset(InSlice(source, Pinned))
    && plan.candidates == InSlice(source, Active)
    && plan.system.used == Tokens(estimator, plan.system.selected)
    && plan.skills.used == Tokens(estimator, plan.skills.selected)
    && plan.pinned.used == Tokens(estimator, plan.pinned.selected)
    && plan.toolTokens == ToolTokens(estimator, request.directTools)
    && plan.inputBudget == InputBudget(request.profile)
    && plan.basePrompt == plan.system.used + plan.skills.used + plan.pinned.used + plan.toolTokens
                          + TransportCost(request, FixedPart(plan) + plan.candidates)
    && 0 <= plan.activeBudget <= plan.inputBudget - plan.basePrompt - request.worstCaseToolBurst
    && request.profile.summaryTarget >= 0
  }

  /** The hard limit on history survives the three-quarters rule. */
  lemma AllowanceWithinLimit(inputBudget: int, hardLimit: int, basePrompt: int, activeTokens: int)
    requires hardLimit >= 0
    ensures 0 <= ActiveAllowance(inputBudget, hardLimit, basePrompt, activeTokens) <= hardLimit
  {
  }

  lemma BudgetsAreSound(estimator: Estimator, request: Request, prepared: Prepared)
    requires request.profile.Valid()
    ensures
      var r := PlanBudgets(estimator, request, ToolTokens(estimator, request.directTools), prepared);
      && r != Err(PinnedDropped)
      && (r.Ok? ==> SoundPlan(estimator, request, r.value) && r.value.prepared == prepared)
  {
    var toolTokens := ToolTokens(estimator, request.directTools);
    NothingPinnedDropped(estimator, request, toolTokens, prepared);
    var r := PlanBudgets(estimator, request, toolTokens, prepared);
    if r.Ok? {
      ShapeIsSound(estimator, request, prepared, r.value);
    }
  }

  lemma ShapeIsSound(estimator: Estimator, request: Request, prepared: Prepared, plan: Plan)
    requires request.profile.Valid()
    requires PlanBudgets(estimator, request, ToolTokens(estimator, request.directTools), prepared) == Ok(plan)
    ensures SoundPlan(estimator, request, plan) && plan.prepared == prepared
  {
    var source := prepared.fragments;
    PlanShape(estimator, request, ToolTokens(estimator, request.directTools), prepared, plan);
    PinnedAlwaysFit(estimator, request, prepared);
    SelectPartition(estimator, InSlice(source, System), request.profile.systemBudget);
    SelectPartition(estimator, InSlice(source, SkillsProject), request.profile.skillProjectBudget);
    SelectUsed(estimator, InSlice(source, System), request.profile.systemBudget);
    SelectUsed(estimator, InSlice(source, SkillsProject), request.profile.skillProjectBudget);
    AllowanceWithinLimit(plan.inputBudget, plan.inputBudget - plan.basePrompt - request.worstCaseToolBurst,
                         plan.basePrompt, Tokens(estimator, plan.candidates));
  }

  lemma PlanIsSound(estimator: Estimator, request: Request, spiller: Option<Spiller>)
    ensures PlanOf(estimator, request, spiller) != Err(PinnedDropped)
    ensures PlanOf(estimator, request, spiller).Ok? ==>
      && SoundPlan(estimator, request, PlanOf(estimator, request, spiller).value)
      && Prepare(estimator, request, spiller) == Ok(PlanOf(estimator, request, spiller).value.prepared)
  {
    var prepared := Prepare(estimator, request, spiller);
    if request.profile.Valid() && prepared.Ok? {
      BudgetsAreSound(estimator, request, prepared.value);
    }
  }

  /** What the selection of history satisfies. */
  ghost predicate SoundActive(estimator: Estimator, plan: Plan, active: Selected) {
    && multiset(active.selected) + multiset(active.dropped) == multiset(plan.candidates)
    && active.used == Tokens(estimator, active.selected)
    && 0 <= active.used <= plan.activeBudget
    && KeysDisjoint(active.selected, active.dropped)
  }

  lemma ActiveIsSound(estimator: Estimator, request: Request, plan: Plan)
    requires SoundPlan(estimator, request, plan)
    ensures SoundActive(estimator, plan, SelectActive(estimator, plan, request.profile.summaryTarget))
  {
    var budget :=
      ActiveSelectionBudget(Tokens(estimator, plan.candidates), plan.activeBudget, request.profile.summaryTarget);
    SelectPartition(estimator, plan.candidates, budget);
    SelectUsed(estimator, plan.candidates, budget);
    SelectWhole(estimator, plan.candidates, budget);
  }

  /** What a checkpoint may be: nothing, or paid for by dropped history and within what is left. */
  ghost predicate SoundCheckpoint(estimator: Estimator, plan: Plan, active: Selected, checkpoint: Fragment) {
    checkpoint.content == "" ||
    (active.dropped != [] && active.used + estimator(checkpoint.content) <= plan.activeBudget)
  }

  /** A compactor that never answers with more than it was allowed. */
  ghost predicate KeepsTarget(compactor: Compactor) {
    forall r: CompactRequest ::
      compactor(r).Ok? && compactor(r).value.content != "" ==> r.estimator(compactor(r).value.content) <= r.targetTokens
  }

  lemma VerifiedKeepsTarget(primary: Compactor, h: Heuristics)
    ensures KeepsTarget(Verified(primary, h))
  {
    forall r: CompactRequest
      ensures
        var answer := Verified(primary, h)(r);
        answer.Ok? && answer.value.content != "" ==> r.estimator(answer.value.content) <= r.targetTokens
    {
      if VerifiedCompact(primary, h, r).Ok? {
        VerifiedIsSound(primary, h, r);
      }
    }
  }

  /** With such a compactor the "compactor exceeded its target" guard never fires. */
  lemma CheckpointIsSound(
      estimator: Estimator, request: Request, plan: Plan, active: Selected, compactor: Option<Compactor>)
    requires SoundPlan(estimator, request, plan) && SoundActive(estimator, plan, active)
    requires compactor.Some? ==> KeepsTarget(compactor.value)
    ensures
      var r := CheckpointFor(estimator, request, plan, active, compactor);
      && r != Err(CompactorExceededTarget)
      && (r.Ok? ==> SoundCheckpoint(estimator, plan, active, r.value))
  {
  }

  // ---- The window ----

  lemma {:induction false} ActiveMessages(fragments: seq<Fragment>)
    requires forall f | f in fragments :: SliceFor(f) == Active
    ensures Sum(fragments, OWN_MESSAGE) == |fragments|
  {
    if fragments != [] {
      ActiveMessages(fragments[..|fragments| - 1]);
    }
  }

  lemma CandidatesAreActive(plan: Plan, f: Fragment)
    requires plan.candidates == InSlice(plan.prepared.fragments, Active) && f in plan.candidates
    ensures SliceFor(f) == Active && !JoinsSystemMessage(f)
  {
    InSliceAre(plan.prepared.fragments, Active, f);
  }

  /** The checkpoint's extra message is paid for by at least one dropped fragment. */
  lemma MessagesDoNotGrow(estimator: Estimator, plan: Plan, active: Selected, checkpoint: Fragment)
    requires plan.candidates == InSlice(plan.prepared.fragments, Active)
    requires SoundActive(estimator, plan, active) && SoundCheckpoint(estimator, plan, active, checkpoint)
    ensures Messages(SelectedFragments(plan, active, checkpoint)) <= Messages(FixedPart(plan) + plan.candidates)
  {
    var fixedPart, list := FixedPart(plan), CheckpointList(checkpoint);
    var before, after := fixedPart + plan.candidates, SelectedFragments(plan, active, checkpoint);
    DroppedAreActive(estimator, plan, active);
    ActiveMessages(active.dropped);
    SumSplit(plan.candidates, active.selected, active.dropped, OWN_MESSAGE);
    SumAppend(fixedPart, plan.candidates, OWN_MESSAGE);
    SelectedMessages(plan, active, checkpoint);
    JoinedPart(before, after, fixedPart, list, active.selected, plan.candidates);
    CheckpointMessage(checkpoint);
  }

  lemma DroppedAreActive(estimator: Estimator, plan: Plan, active: Selected)
    requires plan.candidates == InSlice(plan.prepared.fragments, Active) && SoundActive(estimator, plan, active)
    ensures forall f | f in active.dropped || f in active.selected :: SliceFor(f) == Active && !JoinsSystemMessage(f)
  {
    forall f | f in active.dropped || f in active.selected ensures SliceFor(f) == Active && !JoinsSystemMessage(f) {
      assert f in multiset(active.selected) + multiset(active.dropped);
      CandidatesAreActive(plan, f);
    }
  }

  lemma SelectedMessages(plan: Plan, active: Selected, checkpoint: Fragment)
    ensures Sum(SelectedFragments(plan, active, checkpoint), OWN_MESSAGE) ==
      Sum(FixedPart(plan), OWN_MESSAGE) + Sum(CheckpointList(checkpoint), OWN_MESSAGE) + Sum(active.selected, OWN_MESSAGE)
    ensures multiset(SelectedFragments(plan, active, checkpoint)) ==
      multiset(FixedPart(plan) + CheckpointList(checkpoint) + active.selected)
  {
    var fixedPart, list := FixedPart(plan), CheckpointList(checkpoint);
    SumAppend(fixedPart, list, OWN_MESSAGE);
    SumAppend(fixedPart + list, active.selected, OWN_MESSAGE);
    SumPermutation(SelectedFragments(plan, active, checkpoint), fixedPart + list + active.selected, OWN_MESSAGE);
  }

  /** A checkpoint adds one message at most, of its own or to the system message. */
  lemma CheckpointMessage(checkpoint: Fragment)
    ensures
      var list := CheckpointList(checkpoint);
      && Sum(list, OWN_MESSAGE) + (if exists f | f in list :: JoinsSystemMessage(f) then 1 else 0) <= 1
      && (list == [] ==> Sum(list, OWN_MESSAGE) == 0)
  {
    if checkpoint.content != "" {
      SumOne(checkpoint, OWN_MESSAGE);
      assert forall f | f in CheckpointList(checkpoint) :: f == checkpoint;
    }
  }

  /** A system message appears only if the fixed part or the checkpoint needs one. */
  lemma JoinedPart(
      before: seq<Fragment>, after: seq<Fragment>, fixedPart: seq<Fragment>, list: seq<Fragment>,
      selected: seq<Fragment>, candidates: seq<Fragment>)
    requires before == fixedPart + candidates
    requires multiset(after) == multiset(fixedPart + list + selected)
    requires forall f | f in selected :: !JoinsSystemMessage(f)
    ensures (exists f | f in after :: JoinsSystemMessage(f)) ==>
      (exists f | f in before :: JoinsSystemMessage(f)) || (exists f | f in list :: JoinsSystemMessage(f))
  {
    if f :| f in after && JoinsSystemMessage(f) {
      assert f in multiset(after);
      assert f in fixedPart + list + selected;
      assert f in fixedPart ==> f in before;
    }
  }

  /** The tokens of a selection are those of its parts. */
  lemma SelectedTokens(estimator: Estimator, plan: Plan, active: Selected, checkpoint: Fragment)
    ensures Tokens(estimator, SelectedFragments(plan, active, checkpoint)) ==
      Tokens(estimator, plan.system.selected) + Tokens(estimator, plan.skills.selected)
      + Tokens(estimator, plan.pinned.selected) + Tokens(estimator, CheckpointList(checkpoint))
      + Tokens(estimator, active.selected)
  {
    var cost := ContentCost(estimator);
    var a, b, c := plan.system.selected, plan.skills.selected, plan.pinned.selected;
    var list := CheckpointList(checkpoint);
    SumAppend(a, b, cost);
    SumAppend(a + b, c, cost);
    SumAppend(a + b + c, list, cost);
    SumAppend(a + b + c + list, active.selected, cost);
    SumPermutation(SelectedFragments(plan, active, checkpoint), a + b + c + list + active.selected, cost);
  }

  lemma CheckpointTokens(estimator: Estimator, checkpoint: Fragment)
    ensures Tokens(estimator, CheckpointList(checkpoint)) ==
      if checkpoint.content != "" then estimator(checkpoint.content) else 0
  {
    if checkpoint.content != "" {
      SumOne(checkpoint, ContentCost(estimator));
    }
  }

  lemma TransportDoesNotGrow(request: Request, after: seq<Fragment>, before: seq<Fragment>)
    requires request.messageOverhead >= 0 && Messages(after) <= Messages(before)
    ensures TransportCost(request, after) <= TransportCost(request, before)
  {
  }

  /** Prompt, tool burst and both reserves fit the window: the final overflow guard never fires. */
  lemma WindowHolds(estimator: Estimator, request: Request, plan: Plan, active: Selected, checkpoint: Fragment)
    requires SoundPlan(estimator, request, plan) && SoundActive(estimator, plan, active)
    requires SoundCheckpoint(estimator, plan, active, checkpoint)
    requires request.messageOverhead >= 0
    ensures
      var report := ReportFor(estimator, request, plan, active, checkpoint);
      && report.predictedInput + request.profile.outputReserve + request.profile.uncertaintyReserve
         <= request.profile.total
      && report.free >= 0
      && report.system.budget + report.tools.budget + report.skillsProject.budget + report.pinned.budget
         + report.active.budget == InputBudget(request.profile)
  {
    var selected := SelectedFragments(plan, active, checkpoint);
    SelectedTokens(estimator, plan, active, checkpoint);
    CheckpointTokens(estimator, checkpoint);
    MessagesDoNotGrow(estimator, plan, active, checkpoint);
    TransportDoesNotGrow(request, selected, FixedPart(plan) + plan.candidates);
    assert TransportCost(request, selected) <= TransportCost(request, FixedPart(plan) + plan.candidates);
    assert active.used + Tokens(estimator, CheckpointList(checkpoint)) <= plan.activeBudget;
  }

  // ---- The ledger ----

  /** Every prepared fragment is selected or dropped exactly once; the checkpoint is the only addition. */
  lemma FragmentsPartition(estimator: Estimator, request: Request, plan: Plan, active: Selected, checkpoint: Fragment)
    requires SoundPlan(estimator, request, plan) && SoundActive(estimator, plan, active)
    ensures multiset(SelectedFragments(plan, active, checkpoint)) + multiset(DroppedFragments(plan, active)) ==
      multiset(plan.prepared.fragments) + multiset(CheckpointList(checkpoint))
  {
    SlicePartition(plan.prepared.fragments);
  }

  /** The same in tokens. */
  lemma TokensPartition(estimator: Estimator, request: Request, plan: Plan, active: Selected, checkpoint: Fragment)
    requires SoundPlan(estimator, request, plan) && SoundActive(estimator, plan, active)
    ensures
      Tokens(estimator, SelectedFragments(plan, active, checkpoint)) + Tokens(estimator, DroppedFragments(plan, active)) ==
      Tokens(estimator, plan.prepared.fragments) + Tokens(estimator, CheckpointList(checkpoint))
  {
    var cost := ContentCost(estimator);
    var selected, dropped := SelectedFragments(plan, active, checkpoint), DroppedFragments(plan, active);
    var source, list := plan.prepared.fragments, CheckpointList(checkpoint);
    FragmentsPartition(estimator, request, plan, active, checkpoint);
    assert multiset(selected + dropped) == multiset(source + list);
    SumPermutation(selected + dropped, source + list, cost);
    SumAppend(selected, dropped, cost);
    SumAppend(source, list, cost);
  }

  lemma {:induction false} PinsKeepTokens(estimator: Estimator, before: seq<Fragment>, after: seq<Fragment>)
    requires |before| == |after| && forall i | 0 <= i < |before| :: after[i].content == before[i].content
    ensures Tokens(estimator, before) == Tokens(estimator, after)
  {
    if before != [] {
      var n := |before| - 1;
      PinsKeepTokens(estimator, before[..n], after[..n]);
    }
  }

  /** Both side checks of the ledger hold of the preparation. */
  lemma PreparationIsHonest(estimator: Estimator, request: Request, spiller: Option<Spiller>)
    requires Prepare(estimator, request, spiller).Ok?
    ensures
      var p := Prepare(estimator, request, spiller).value;
      && (|p.unique| == |request.fragments| ==> Tokens(estimator, p.unique) == Tokens(estimator, request.fragments))
      && (p.receipts == [] ==> Tokens(estimator, p.fragments) == Tokens(estimator, p.unique))
  {
    var p := Prepare(estimator, request, spiller).value;
    if |p.unique| == |request.fragments| {
      DeduplicateNothing(request.fragments, BY_CONTENT);
    }
    PinsKeepTokens(estimator, p.unique, PropagatePairPins(p.unique));
    if p.receipts == [] {
      SpillNothing(estimator, PropagatePairPins(p.unique), request.profile.maxInlineTool, spiller);
    }
  }

  /** The arithmetic of reconcile. */
  lemma AssembledReconciles(
      request: Request, plan: Plan, active: Selected, t: Totals, selectedIds: seq<string>, droppedIds: seq<string>,
      integrity: IntegrityReport)
    requires t.selected + t.dropped == t.kept + t.compacted
    requires |request.fragments| == |plan.prepared.unique| ==> t.original == t.unique
    requires plan.prepared.receipts == [] ==> t.unique == t.kept
    ensures Assemble(request, plan, active, t, selectedIds, droppedIds, integrity).Reconciles()
  {
  }

  /** The ledger balances for every request, spiller and compactor. */
  lemma LedgerBalances(
      estimator: Estimator, request: Request, spiller: Option<Spiller>, plan: Plan, active: Selected, checkpoint: Fragment)
    requires SoundPlan(estimator, request, plan) && SoundActive(estimator, plan, active)
    requires Prepare(estimator, request, spiller) == Ok(plan.prepared)
    ensures ReportFor(estimator, request, plan, active, checkpoint).Reconciles()
  {
    TokensPartition(estimator, request, plan, active, checkpoint);
    PreparationIsHonest(estimator, request, spiller);
    var selected, dropped := SelectedFragments(plan, active, checkpoint), DroppedFragments(plan, active);
    AssembledReconciles(request, plan, active, TotalsOf(estimator, request, plan, active, checkpoint), Ids(selected),
                        Ids(dropped), ReportOf(plan.prepared.fragments, Chosen(selected), Marked(checkpoint.content)));
  }

  // ---- Integrity ----

  predicate ToolKind(kind: Kind) {
    kind == ToolCall || kind == ToolResult || kind == ArtifactReceipt
  }

  /** Unique IDs, and pairs made of tool fragments only. */
  predicate WellPaired(fragments: seq<Fragment>) {
    UniqueIds(fragments) && forall f | f in fragments && f.pairId != "" :: ToolKind(f.kind)
  }

  /** All members of a pair agree about being pinned. */
  predicate PinsAgree(fragments: seq<Fragment>) {
    forall f, g | f in fragments && g in fragments && f.pairId != "" && f.pairId == g.pairId :: f.pinned == g.pinned
  }

  lemma DeduplicateWellPaired(fragments: seq<Fragment>)
    requires WellPaired(fragments)
    ensures WellPaired(Deduplicate(fragments))
  {
    DeduplicateRepresents(fragments, BY_CONTENT);
  }

  lemma PropagateWellPaired(fragments: seq<Fragment>)
    requires WellPaired(fragments)
    ensures WellPaired(PropagatePairPins(fragments)) && PinsAgree(PropagatePairPins(fragments))
  {
    var out := PropagatePairPins(fragments);
    forall f, g | f in out && g in out
      ensures f.id == g.id ==> f == g
      ensures f.pairId != "" ==> ToolKind(f.kind)
      ensures f.pairId != "" && f.pairId == g.pairId ==> f.pinned == g.pinned
    {
      var i :| 0 <= i < |out| && out[i] == f;
      var j :| 0 <= j < |out| && out[j] == g;
      assert fragments[i] in fragments && fragments[j] in fragments;
      if f.pairId != "" && f.pairId == g.pairId {
        PinsUniform(fragments, i, j);
      }
    }
  }

  lemma SpillWellPaired(estimator: Estimator, fragments: seq<Fragment>, limit: int, spiller: Option<Spiller>)
    requires WellPaired(fragments) && PinsAgree(fragments)
    requires SpillLargeTools(estimator, fragments, limit, spiller).Ok?
    ensures
      var out := SpillLargeTools(estimator, fragments, limit, spiller).value.fragments;
      WellPaired(out) && PinsAgree(out)
  {
    var out := SpillLargeTools(estimator, fragments, limit, spiller).value.fragments;
    forall f, g | f in out && g in out
      ensures f.id == g.id ==> f == g
      ensures f.pairId != "" ==> ToolKind(f.kind)
      ensures f.pairId != "" && f.pairId == g.pairId ==> f.pinned == g.pinned
    {
      var i :| 0 <= i < |out| && out[i] == f;
      var j :| 0 <= j < |out| && out[j] == g;
      SpillPreserves(estimator, fragments, limit, spiller, i);
      SpillPreserves(estimator, fragments, limit, spiller, j);
      SpillPointwise(estimator, fragments, limit, spiller, i);
      SpillPointwise(estimator, fragments, limit, spiller, j);
      assert fragments[i] in fragments && fragments[j] in fragments;
    }
  }

  lemma {:induction false} SpillPointwise(
      estimator: Estimator, fragments: seq<Fragment>, limit: int, spiller: Option<Spiller>, i: nat)
    requires SpillLargeTools(estimator, fragments, limit, spiller).Ok? && i < |fragments|
    ensures
      var one := SpillOne(estimator, fragments[i], limit, spiller);
      one.Ok? && SpillLargeTools(estimator, fragments, limit, spiller).value.fragments[i] == one.value.0
  {
    var n := |fragments| - 1;
    if i < n {
      SpillPointwise(estimator, fragments[..n], limit, spiller, i);
    }
  }

  lemma PrepareWellPaired(estimator: Estimator, request: Request, spiller: Option<Spiller>)
    requires WellPaired(request.fragments) && Prepare(estimator, request, spiller).Ok?
    ensures
      var source := Prepare(estimator, request, spiller).value.fragments;
      WellPaired(source) && PinsAgree(source)
  {
    DeduplicateWellPaired(request.fragments);
    PropagateWellPaired(Deduplicate(request.fragments));
    SpillWellPaired(estimator, PropagatePairPins(Deduplicate(request.fragments)), request.profile.maxInlineTool, spiller);
  }

  /** The source side of a compile whose pairs can be judged. */
  ghost predicate Judged(plan: Plan, active: Selected, checkpoint: Fragment) {
    && WellPaired(plan.prepared.fragments) && PinsAgree(plan.prepared.fragments)
    && (checkpoint.content != "" ==> forall f | f in plan.prepared.fragments :: f.id != checkpoint.id)
    && PairsTogether(checkpoint.content, active.dropped)
  }

  /** What is selected, by where it comes from. */
  lemma SelectedAre(plan: Plan, active: Selected, checkpoint: Fragment, f: Fragment)
    ensures f in SelectedFragments(plan, active, checkpoint) <==>
      f in FixedPart(plan) || f in CheckpointList(checkpoint) || f in active.selected
  {
    var parts := plan.system.selected + plan.skills.selected + plan.pinned.selected + CheckpointList(checkpoint)
                 + active.selected;
    var selected := SelectedFragments(plan, active, checkpoint);
    assert multiset(selected) == multiset(parts);
    assert f in selected <==> f in multiset(selected);
    assert f in parts <==> f in multiset(parts);
    assert f in parts <==> f in FixedPart(plan) || f in CheckpointList(checkpoint) || f in active.selected;
  }

  lemma PinnedAreKept(estimator: Estimator, request: Request, plan: Plan, active: Selected, checkpoint: Fragment, f: Fragment)
    requires SoundPlan(estimator, request, plan)
    requires f in plan.prepared.fragments && SliceFor(f) == Pinned
    ensures f in SelectedFragments(plan, active, checkpoint)
  {
    InSliceAre(plan.prepared.fragments, Pinned, f);
    assert f in multiset(InSlice(plan.prepared.fragments, Pinned));
    assert f in multiset(plan.pinned.selected);
    SelectedAre(plan, active, checkpoint, f);
  }

  lemma HistoryIsActive(estimator: Estimator, request: Request, plan: Plan, active: Selected, f: Fragment)
    requires SoundPlan(estimator, request, plan) && SoundActive(estimator, plan, active)
    ensures f in active.selected || f in active.dropped <==> f in plan.prepared.fragments && SliceFor(f) == Active
  {
    InSliceAre(plan.prepared.fragments, Active, f);
    assert f in plan.candidates <==> f in multiset(plan.candidates);
    assert f in active.selected <==> f in multiset(active.selected);
    assert f in active.dropped <==> f in multiset(active.dropped);
  }

  /** Pinned fragments are selected; history is selected or dropped. */
  lemma KeptMembers(estimator: Estimator, request: Request, plan: Plan, active: Selected, checkpoint: Fragment, f: Fragment)
    requires SoundPlan(estimator, request, plan) && SoundActive(estimator, plan, active)
    requires f in plan.prepared.fragments
    ensures SliceFor(f) == Pinned ==> f in SelectedFragments(plan, active, checkpoint)
    ensures SliceFor(f) == Active && f !in active.dropped ==> f in SelectedFragments(plan, active, checkpoint)
    ensures SliceFor(f) == Active <==> f in active.selected || f in active.dropped
  {
    HistoryIsActive(estimator, request, plan, active, f);
    SelectedAre(plan, active, checkpoint, f);
    if SliceFor(f) == Pinned {
      PinnedAreKept(estimator, request, plan, active, checkpoint, f);
    }
  }

  /** A dropped fragment's ID is not among the selected ones. */
  lemma DroppedNotChosen(
      estimator: Estimator, request: Request, plan: Plan, active: Selected, checkpoint: Fragment, f: Fragment)
    requires SoundPlan(estimator, request, plan) && SoundActive(estimator, plan, active)
    requires Judged(plan, active, checkpoint)
    requires f in active.dropped
    ensures f in plan.prepared.fragments
    ensures !Chosen(SelectedFragments(plan, active, checkpoint))(f)
  {
    HistoryIsActive(estimator, request, plan, active, f);
    forall g | g in SelectedFragments(plan, active, checkpoint) ensures g.id != f.id {
      SelectedAre(plan, active, checkpoint, g);
      if g in CheckpointList(checkpoint) {
        assert g == checkpoint;
      } else if g in active.selected {
        assert UnitKey(g) != UnitKey(f);
        HistoryIsActive(estimator, request, plan, active, g);
      } else {
        FixedMember(estimator, request, plan, g);
      }
    }
  }

  lemma FixedMember(estimator: Estimator, request: Request, plan: Plan, g: Fragment)
    requires SoundPlan(estimator, request, plan)
    requires g in FixedPart(plan)
    ensures g in plan.prepared.fragments && SliceFor(g) != Active
  {
    var source := plan.prepared.fragments;
    InSliceAre(source, System, g);
    InSliceAre(source, SkillsProject, g);
    InSliceAre(source, Pinned, g);
    if g in plan.system.selected {
      assert g in multiset(plan.system.selected) && g in multiset(InSlice(source, System));
    } else if g in plan.skills.selected {
      assert g in multiset(plan.skills.selected) && g in multiset(InSlice(source, SkillsProject));
    } else {
      assert g in multiset(plan.pinned.selected) && g in multiset(InSlice(source, Pinned));
    }
  }

  /** The members of a pair go the same way. */
  lemma PairGoesTogether(
      estimator: Estimator, request: Request, plan: Plan, active: Selected, checkpoint: Fragment, pair: string)
    requires SoundPlan(estimator, request, plan) && SoundActive(estimator, plan, active)
    requires Judged(plan, active, checkpoint)
    requires pair in PairIds(plan.prepared.fragments)
    ensures PairWhole(plan.prepared.fragments, Chosen(SelectedFragments(plan, active, checkpoint)),
                      Marked(checkpoint.content), pair)
  {
    var source, selected := plan.prepared.fragments, SelectedFragments(plan, active, checkpoint);
    var chosen, marked := Chosen(selected), Marked(checkpoint.content);
    var f :| f in source && f.pairId != "" && f.pairId == pair;
    KeptMembers(estimator, request, plan, active, checkpoint, f);
    if f in active.dropped {
      forall g | g in source && g.pairId == pair
        ensures g in active.dropped && !chosen(g) && (marked(g) <==> marked(f))
      {
        PairSameSide(estimator, request, plan, active, checkpoint, f, g);
        DroppedNotChosen(estimator, request, plan, active, checkpoint, g);
      }
    } else {
      forall g | g in source && g.pairId == pair ensures chosen(g) {
        PairSameSide(estimator, request, plan, active, checkpoint, f, g);
        KeptMembers(estimator, request, plan, active, checkpoint, g);
      }
    }
  }

  lemma PairSlice(source: seq<Fragment>, f: Fragment, g: Fragment)
    requires WellPaired(source) && PinsAgree(source)
    requires f in source && g in source && f.pairId != "" && f.pairId == g.pairId
    ensures SliceFor(f) == SliceFor(g) && (SliceFor(f) == Pinned || SliceFor(f) == Active)
  {
    assert ToolKind(f.kind) && ToolKind(g.kind) && f.pinned == g.pinned;
  }

  lemma PairFollows(
      estimator: Estimator, request: Request, plan: Plan, active: Selected, f: Fragment, g: Fragment)
    requires SoundPlan(estimator, request, plan) && SoundActive(estimator, plan, active)
    requires f in active.dropped && UnitKey(f) == UnitKey(g)
    requires g in plan.prepared.fragments && SliceFor(g) == Active
    ensures g in active.dropped
  {
    HistoryIsActive(estimator, request, plan, active, g);
    assert g in active.selected ==> UnitKey(g) != UnitKey(f);
  }

  lemma PairSameSide(
      estimator: Estimator, request: Request, plan: Plan, active: Selected, checkpoint: Fragment, f: Fragment, g: Fragment)
    requires SoundPlan(estimator, request, plan) && SoundActive(estimator, plan, active)
    requires Judged(plan, active, checkpoint)
    requires f in plan.prepared.fragments && g in plan.prepared.fragments
    requires f.pairId != "" && f.pairId == g.pairId
    ensures SliceFor(f) == SliceFor(g) && (SliceFor(f) == Pinned || SliceFor(f) == Active)
    ensures f in active.dropped <==> g in active.dropped
  {
    PairSlice(plan.prepared.fragments, f, g);
    HistoryIsActive(estimator, request, plan, active, f);
    HistoryIsActive(estimator, request, plan, active, g);
    if f in active.dropped {
      PairFollows(estimator, request, plan, active, f, g);
    }
    if g in active.dropped {
      PairFollows(estimator, request, plan, active, g, f);
    }
  }

  /** No causal pair is split and nothing pinned is lost: the integrity guard never fires. */
  lemma IntegrityHolds(estimator: Estimator, request: Request, plan: Plan, active: Selected, checkpoint: Fragment)
    requires SoundPlan(estimator, request, plan) && SoundActive(estimator, plan, active)
    requires Judged(plan, active, checkpoint)
    ensures Sound(plan.prepared.fragments, Chosen(SelectedFragments(plan, active, checkpoint)), Marked(checkpoint.content))
  {
    var source, selected := plan.prepared.fragments, SelectedFragments(plan, active, checkpoint);
    forall pair | pair in PairIds(source) ensures PairWhole(source, Chosen(selected), Marked(checkpoint.content), pair) {
      PairGoesTogether(estimator, request, plan, active, checkpoint, pair);
    }
    PinnedRetained(estimator, request, plan, active, checkpoint);
  }

  /** Pinned fragments and the user goal are selected whatever their IDs: this guard needs no assumption. */
  lemma PinnedRetained(estimator: Estimator, request: Request, plan: Plan, active: Selected, checkpoint: Fragment)
    requires SoundPlan(estimator, request, plan)
    ensures PinnedKept(plan.prepared.fragments, Chosen(SelectedFragments(plan, active, checkpoint)))
  {
    forall f | f in plan.prepared.fragments && IsPinned(f)
      ensures Chosen(SelectedFragments(plan, active, checkpoint))(f)
    {
      PinnedAreKept(estimator, request, plan, active, checkpoint, f);
    }
  }

  // ---- The late guards of a whole compile ----

  /** Errors a caller can meet before or during compaction; everything else is a late guard. */
  predicate EarlyError(error: CompileError) {
    || error.InvalidProfile? || error.DirectToolsOverflow? || error.Spilling? || error.PinnedOverflow?
    || error.FixedContextOverflow? || error.CompactionFailed?
  }

  /** A compactor that splits no pair of what it was given and names its checkpoint with no source's ID. */
  ghost predicate KeepsPairs(compactor: Compactor, request: Request) {
    forall r: CompactRequest :: compactor(r).Ok? && compactor(r).value.content != "" ==>
      && PairsTogether(compactor(r).value.content, r.fragments)
      && (forall f | f in request.fragments :: compactor(r).value.id != f.id)
  }

  ghost predicate IdFrom(fragments: seq<Fragment>, id: string) {
    exists g | g in fragments :: g.id == id
  }

  lemma DeduplicateIds(fragments: seq<Fragment>, f: Fragment)
    requires f in Deduplicate(fragments)
    ensures IdFrom(fragments, f.id)
  {
    DeduplicateRepresents(fragments, BY_CONTENT);
  }

  lemma SpillIds(estimator: Estimator, fragments: seq<Fragment>, limit: int, spiller: Option<Spiller>, f: Fragment)
    requires SpillLargeTools(estimator, fragments, limit, spiller).Ok?
    requires f in SpillLargeTools(estimator, fragments, limit, spiller).value.fragments
    ensures IdFrom(fragments, f.id)
  {
    var out := SpillLargeTools(estimator, fragments, limit, spiller).value.fragments;
    var i :| 0 <= i < |out| && out[i] == f;
    SpillPreserves(estimator, fragments, limit, spiller, i);
    assert fragments[i] in fragments;
  }

  lemma PropagateIds(fragments: seq<Fragment>, f: Fragment)
    requires f in PropagatePairPins(fragments)
    ensures IdFrom(fragments, f.id)
  {
    var out := PropagatePairPins(fragments);
    var i :| 0 <= i < |out| && out[i] == f;
    assert fragments[i] in fragments;
  }

  /** Preparation invents no ID. */
  lemma PreparedIds(estimator: Estimator, request: Request, spiller: Option<Spiller>, f: Fragment)
    requires Prepare(estimator, request, spiller).Ok? && f in Prepare(estimator, request, spiller).value.fragments
    ensures IdFrom(request.fragments, f.id)
  {
    var unique := Deduplicate(request.fragments);
    var pinned := PropagatePairPins(unique);
    SpillIds(estimator, pinned, request.profile.maxInlineTool, spiller, f);
    var g :| g in pinned && g.id == f.id;
    PropagateIds(unique, g);
    var u :| u in unique && u.id == f.id;
    DeduplicateIds(request.fragments, u);
  }

  /** An accepted checkpoint leaves the pairs judgeable. */
  lemma AcceptedIsJudged(
      estimator: Estimator, request: Request, spiller: Option<Spiller>, compactor: Option<Compactor>, plan: Plan,
      active: Selected)
    requires WellPaired(request.fragments)
    requires compactor.Some? ==> KeepsPairs(compactor.value, request)
    requires Prepare(estimator, request, spiller) == Ok(plan.prepared)
    requires CheckpointFor(estimator, request, plan, active, compactor).Ok?
    ensures Judged(plan, active, CheckpointFor(estimator, request, plan, active, compactor).value)
  {
    var checkpoint := CheckpointFor(estimator, request, plan, active, compactor).value;
    PrepareWellPaired(estimator, request, spiller);
    if checkpoint.content != "" {
      assert checkpoint == compactor.value(CompactionOf(estimator, request, plan, active)).value;
      forall f | f in plan.prepared.fragments ensures f.id != checkpoint.id {
        PreparedIds(estimator, request, spiller, f);
      }
    }
  }

  /** The guards at the end of a compile, for one accepted checkpoint. */
  lemma FinishSucceeds(
      estimator: Estimator, request: Request, spiller: Option<Spiller>, plan: Plan, active: Selected, checkpoint: Fragment)
    requires SoundPlan(estimator, request, plan) && SoundActive(estimator, plan, active)
    requires SoundCheckpoint(estimator, plan, active, checkpoint)
    requires Prepare(estimator, request, spiller) == Ok(plan.prepared)
    ensures
      var r := Finish(estimator, request, plan, active, checkpoint);
      && r != Err(LedgerImbalance) && r != Err(PinnedNotRetained)
      && (r.Err? ==> r.error.PredictedOverflow? || r.error.CausalPairSplit?)
      && (request.messageOverhead >= 0 ==> r != Err(PredictedOverflow))
      && (Judged(plan, active, checkpoint) ==> r != Err(CausalPairSplit))
  {
    LedgerBalances(estimator, request, spiller, plan, active, checkpoint);
    PinnedRetained(estimator, request, plan, active, checkpoint);
    if request.messageOverhead >= 0 {
      WindowHolds(estimator, request, plan, active, checkpoint);
    }
    if Judged(plan, active, checkpoint) {
      IntegrityHolds(estimator, request, plan, active, checkpoint);
    }
  }

  /** Unique IDs, pairs of tool kinds, and a compactor that keeps pairs together. */
  ghost predicate Careful(request: Request, compactor: Option<Compactor>) {
    WellPaired(request.fragments) && (compactor.Some? ==> KeepsPairs(compactor.value, request))
  }

  /** Which guards can fire: three never do, the others only when their condition fails. */
  ghost predicate GuardsHeld(request: Request, compactor: Option<Compactor>, r: Result<Compiled, CompileError>) {
    r.Err? ==>
      && !r.error.PinnedDropped? && !r.error.LedgerImbalance? && !r.error.PinnedNotRetained?
      && (request.messageOverhead >= 0 ==> !r.error.PredictedOverflow?)
      && ((compactor.Some? ==> KeepsTarget(compactor.value)) ==> !r.error.CompactorExceededTarget?)
      && (Careful(request, compactor) ==> !r.error.CausalPairSplit?)
  }

  /** An accepted checkpoint is within its budget and paid for by dropped history. */
  lemma AcceptedIsSound(
      estimator: Estimator, request: Request, compactor: Option<Compactor>, plan: Plan, active: Selected, checkpoint: Fragment)
    requires CheckpointFor(estimator, request, plan, active, compactor) == Ok(checkpoint)
    ensures SoundCheckpoint(estimator, plan, active, checkpoint)
  {
  }

  lemma CarefulIsJudged(
      estimator: Estimator, request: Request, spiller: Option<Spiller>, compactor: Option<Compactor>, plan: Plan,
      active: Selected, checkpoint: Fragment)
    requires Prepare(estimator, request, spiller) == Ok(plan.prepared)
    requires CheckpointFor(estimator, request, plan, active, compactor) == Ok(checkpoint)
    ensures Careful(request, compactor) ==> Judged(plan, active, checkpoint)
  {
    if Careful(request, compactor) {
      AcceptedIsJudged(estimator, request, spiller, compactor, plan, active);
    }
  }

  lemma GuardsFrom(request: Request, compactor: Option<Compactor>, r: Result<Compiled, CompileError>)
    requires r.Err? ==> r.error.PredictedOverflow? || r.error.CausalPairSplit?
    requires request.messageOverhead >= 0 ==> r != Err(PredictedOverflow)
    requires Careful(request, compactor) ==> r != Err(CausalPairSplit)
    ensures GuardsHeld(request, compactor, r)
  {
  }

  lemma GuardsAfterCheckpoint(
      estimator: Estimator, request: Request, spiller: Option<Spiller>, compactor: Option<Compactor>, plan: Plan,
      active: Selected, checkpoint: Fragment)
    requires SoundPlan(estimator, request, plan) && SoundActive(estimator, plan, active)
    requires SoundCheckpoint(estimator, plan, active, checkpoint)
    requires Prepare(estimator, request, spiller) == Ok(plan.prepared)
    requires Careful(request, compactor) ==> Judged(plan, active, checkpoint)
    ensures GuardsHeld(request, compactor, Finish(estimator, request, plan, active, checkpoint))
  {
    FinishSucceeds(estimator, request, spiller, plan, active, checkpoint);
    GuardsFrom(request, compactor, Finish(estimator, request, plan, active, checkpoint));
  }

  /** A compile goes from its plan to its checkpoint to the guards. */
  lemma CompileStages(estimator: Estimator, request: Request, plan: Plan, compactor: Option<Compactor>)
    ensures
      var active := SelectActive(estimator, plan, request.profile.summaryTarget);
      var answer := CheckpointFor(estimator, request, plan, active, compactor);
      CompileFrom(estimator, request, plan, compactor) ==
        if answer.Err? then Err(answer.error) else Finish(estimator, request, plan, active, answer.value)
  {
  }

  lemma RefusedIsGuarded(
      estimator: Estimator, request: Request, plan: Plan, active: Selected, compactor: Option<Compactor>, cause: CompileError)
    requires SoundPlan(estimator, request, plan) && SoundActive(estimator, plan, active)
    requires CheckpointFor(estimator, request, plan, active, compactor) == Err(cause)
    ensures GuardsHeld(request, compactor, Err(cause))
  {
    if compactor.Some? ==> KeepsTarget(compactor.value) {
      CheckpointIsSound(estimator, request, plan, active, compactor);
    }
  }

  lemma GuardsAfterPlan(
      estimator: Estimator, request: Request, spiller: Option<Spiller>, compactor: Option<Compactor>, plan: Plan)
    requires SoundPlan(estimator, request, plan)
    requires Prepare(estimator, request, spiller) == Ok(plan.prepared)
    ensures GuardsHeld(request, compactor, CompileFrom(estimator, request, plan, compactor))
  {
    var active := SelectActive(estimator, plan, request.profile.summaryTarget);
    ActiveIsSound(estimator, request, plan);
    CompileStages(estimator, request, plan, compactor);
    var answer := CheckpointFor(estimator, request, plan, active, compactor);
    if answer.Ok? {
      AcceptedIsSound(estimator, request, compactor, plan, active, answer.value);
      CarefulIsJudged(estimator, request, spiller, compactor, plan, active, answer.value);
      GuardsAfterCheckpoint(estimator, request, spiller, compactor, plan, active, answer.value);
    } else {
      RefusedIsGuarded(estimator, request, plan, active, compactor, answer.error);
    }
  }

  /**
   * What a compile can end with, for every request, estimator, spiller and compactor. Three late guards never fire at
   * all; the window guard needs only a measured overhead that is not negative; the other two need a compactor that
   * keeps its target and keeps pairs together.
   */
  lemma LateGuards(estimator: Estimator, request: Request, spiller: Option<Spiller>, compactor: Option<Compactor>)
    ensures GuardsHeld(request, compactor, CompileResult(estimator, request, spiller, compactor))
  {
    PlanIsSound(estimator, request, spiller);
    PlanErrors(estimator, request, spiller);
    var planned := PlanOf(estimator, request, spiller);
    if planned.Ok? {
      GuardsAfterPlan(estimator, request, spiller, compactor, planned.value);
    }
  }

  lemma BudgetErrors(estimator: Estimator, request: Request, toolTokens: int, prepared: Prepared)
    ensures
      var r := PlanBudgets(estimator, request, toolTokens, prepared);
      r.Err? ==> r.error.PinnedOverflow? || r.error.PinnedDropped? || r.error.FixedContextOverflow?
  {
  }

  lemma PlanErrors(estimator: Estimator, request: Request, spiller: Option<Spiller>)
    ensures PlanOf(estimator, request, spiller).Err? ==> EarlyError(PlanOf(estimator, request, spiller).error)
  {
    PlanIsSound(estimator, request, spiller);
    var prepared := Prepare(estimator, request, spiller);
    if prepared.Ok? {
      BudgetErrors(estimator, request, ToolTokens(estimator, request.directTools), prepared.value);
    }
  }

  /** The primary compactor's IDs, and the extractive one's, name no source. */
  ghost predicate FreshNames(primary: Compactor, request: Request) {
    forall f | f in request.fragments ::
      f.id != "checkpoint:extractive" && forall r: CompactRequest :: primary(r).Ok? ==> primary(r).value.id != f.id
  }

  lemma VerifiedKeepsPairs(primary: Compactor, h: Heuristics, request: Request)
    requires FreshNames(primary, request)
    ensures KeepsPairs(Verified(primary, h), request)
  {
    forall r: CompactRequest | Verified(primary, h)(r).Ok? && Verified(primary, h)(r).value.content != ""
      ensures PairsTogether(Verified(primary, h)(r).value.content, r.fragments)
      ensures forall f | f in request.fragments :: Verified(primary, h)(r).value.id != f.id
    {
      VerifiedIsSound(primary, h, r);
      VerifiedName(primary, h, r);
    }
  }

  lemma VerifiedName(primary: Compactor, h: Heuristics, r: CompactRequest)
    requires VerifiedCompact(primary, h, r).Ok? && VerifiedCompact(primary, h, r).value.content != ""
    ensures
      var id := VerifiedCompact(primary, h, r).value.id;
      id == "checkpoint:extractive" || (primary(r).Ok? && id == primary(r).value.id)
  {
  }

  /** The sources one compile hands to its compactor are fit for the extractive fallback. */
  ghost predicate FallbackApplies(estimator: Estimator, request: Request, plan: Plan, h: Heuristics) {
    var active := SelectActive(estimator, plan, request.profile.summaryTarget);
    && CheckpointEvidence.Quotable(h, CompactionOf(estimator, request, plan, active))
    && CheckpointEvidence.NoMixedPair(active.dropped)
  }

  /**
   * The deployed compiler: with the verified compactor in front of the extractive one, whatever the primary answers,
   * a request that passes the early checks compiles.
   */
  lemma DeployedCompileSucceeds(
      estimator: Estimator, request: Request, spiller: Option<Spiller>, primary: Compactor, h: Heuristics)
    requires request.messageOverhead >= 0
    requires WellPaired(request.fragments) && FreshNames(primary, request)
    requires
      var planned := PlanOf(estimator, request, spiller);
      planned.Ok? ==> FallbackApplies(estimator, request, planned.value, h)
    ensures CompileResult(estimator, request, spiller, Some(Verified(primary, h))).Ok? <==>
      PlanOf(estimator, request, spiller).Ok?
  {
    var compactor := Some(Verified(primary, h));
    VerifiedKeepsTarget(primary, h);
    VerifiedKeepsPairs(primary, h, request);
    LateGuards(estimator, request, spiller, compactor);
    var planned := PlanOf(estimator, request, spiller);
    if planned.Ok? {
      NoEarlyError(estimator, request, planned.value, primary, h);
    }
  }

  lemma NoEarlyError(estimator: Estimator, request: Request, plan: Plan, primary: Compactor, h: Heuristics)
    requires FallbackApplies(estimator, request, plan, h)
    ensures
      var r := CompileFrom(estimator, request, plan, Some(Verified(primary, h)));
      r.Err? ==> !EarlyError(r.error)
  {
    var active := SelectActive(estimator, plan, request.profile.summaryTarget);
    var compaction := CompactionOf(estimator, request, plan, active);
    CheckpointEvidence.VerifiedNeverFails(primary, h, compaction);
    CheckpointAnswers(estimator, request, plan, active, Verified(primary, h));
    var answer := CheckpointFor(estimator, request, plan, active, Some(Verified(primary, h)));
    if answer.Ok? {
      FinishErrors(estimator, request, plan, active, answer.value);
    }
  }

  lemma CheckpointAnswers(estimator: Estimator, request: Request, plan: Plan, active: Selected, compactor: Compactor)
    requires compactor(CompactionOf(estimator, request, plan, active)).Ok?
    ensures
      var r := CheckpointFor(estimator, request, plan, active, Some(compactor));
      r.Err? ==> r.error.CompactorExceededTarget?
  {
  }

  lemma FinishErrors(estimator: Estimator, request: Request, plan: Plan, active: Selected, checkpoint: Fragment)
    ensures
      var r := Finish(estimator, request, plan, active, checkpoint);
      r.Err? ==> !EarlyError(r.error)
  {
  }

  lemma FinishValue(estimator: Estimator, request: Request, plan: Plan, active: Selected, checkpoint: Fragment)
    requires Finish(estimator, request, plan, active, checkpoint).Ok?
    ensures
      var compiled := Finish(estimator, request, plan, active, checkpoint).value;
      && compiled.fragments == SelectedFragments(plan, active, checkpoint)
      && compiled.report == ReportFor(estimator, request, plan, active, checkpoint)
      && compiled.report.Unaccounted() == 0
      && PinnedKept(plan.prepared.fragments, Chosen(compiled.fragments))
  {
  }

  /** A compiled prompt is in canonical order, and its report accounts for every token, pin and pair. */
  ghost predicate WellReported(compiled: Compiled) {
    && StableSort.Sorted(compiled.fragments, CANONICAL_ORDER)
    && compiled.report.Unaccounted() == 0
    && compiled.report.integrity.pinnedRetained == compiled.report.integrity.pinnedTotal
    && compiled.report.integrity.pairsSelected + compiled.report.integrity.pairsCompacted
       + compiled.report.integrity.pairsOmitted == compiled.report.integrity.pairsTotal
  }

  lemma FinishWellReported(estimator: Estimator, request: Request, plan: Plan, active: Selected, checkpoint: Fragment)
    requires Finish(estimator, request, plan, active, checkpoint).Ok?
    ensures WellReported(Finish(estimator, request, plan, active, checkpoint).value)
  {
    var compiled := Finish(estimator, request, plan, active, checkpoint).value;
    FinishValue(estimator, request, plan, active, checkpoint);
    CanonicalSorted(plan.system.selected + plan.skills.selected + plan.pinned.selected + CheckpointList(checkpoint)
                    + active.selected);
    RetainedIsAll(plan.prepared.fragments, Chosen(compiled.fragments));
    PairsAddUp(plan.prepared.fragments, Chosen(compiled.fragments), Marked(checkpoint.content));
  }

  lemma CompiledIsWellReported(
      estimator: Estimator, request: Request, spiller: Option<Spiller>, compactor: Option<Compactor>)
    requires CompileResult(estimator, request, spiller, compactor).Ok?
    ensures WellReported(CompileResult(estimator, request, spiller, compactor).value)
  {
    var plan := PlanOf(estimator, request, spiller).value;
    WellReportedFrom(estimator, request, plan, compactor);
  }

  lemma WellReportedFrom(estimator: Estimator, request: Request, plan: Plan, compactor: Option<Compactor>)
    requires CompileFrom(estimator, request, plan, compactor).Ok?
    ensures WellReported(CompileFrom(estimator, request, plan, compactor).value)
  {
    var active := SelectActive(estimator, plan, request.profile.summaryTarget);
    var checkpoint := CheckpointFor(estimator, request, plan, active, compactor).value;
    FinishWellReported(estimator, request, plan, active, checkpoint);
  }
}
