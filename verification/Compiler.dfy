/** Compile: from an arbitrary list of fragments to a prompt that fits a fixed window. */
module Compiler {
  import opened Wrappers
  import opened ContextTypes
  import opened Selection
  import opened Preparation
  import opened Checkpoint
  import opened Integrity
  import opened Sums
  import StableSort

  datatype CompileError =
    // The early checks a caller can meet.
    | InvalidProfile | DirectToolsOverflow | Spilling(spill: SpillError) | PinnedOverflow | FixedContextOverflow
    | CompactionFailed(cause: string)
    // The late guards.
    | PinnedDropped | CompactorExceededTarget | PredictedOverflow | LedgerImbalance
    | CausalPairSplit | PinnedNotRetained

  datatype Report = Report(
    originalTokens: int, deduplicatedTokens: int, deduplicatedFragments: int, spilledTokens: int,
    spilled: seq<SpillReceipt>, selectedIds: seq<string>, selectedTokens: int, compactedTokens: int,
    droppedIds: seq<string>, droppedTokens: int, transportTokens: int, predictedPrompt: int, predictedInput: int,
    free: int, system: SliceUsage, tools: SliceUsage, skillsProject: SliceUsage, pinned: SliceUsage,
    active: SliceUsage, integrity: IntegrityReport)
  {
    function Unaccounted(): int {
      originalTokens - deduplicatedTokens - spilledTokens - (selectedTokens - compactedTokens) - droppedTokens
    }

    /** reconcile: the ledger closes, and its two unwitnessed terms agree with their witnesses. */
    predicate Reconciles() {
      && Unaccounted() == 0
      && (deduplicatedFragments == 0 ==> deduplicatedTokens == 0)
      && (spilled == [] ==> spilledTokens == 0)
    }
  }

  datatype Compiled = Compiled(fragments: seq<Fragment>, dropped: seq<Fragment>, directTools: seq<ToolSpec>, report: Report)

  // ---- Measuring ----

  /** System-slice, project and skill fragments are joined into one message. */
  predicate JoinsSystemMessage(f: Fragment) {
    SliceFor(f) == System || f.kind == ProjectInstruction || f.kind == SelectedSkill
  }

  const OWN_MESSAGE: Fragment -> int := (f: Fragment) => if JoinsSystemMessage(f) then 0 else 1

  function Messages(selected: seq<Fragment>): int {
    Sum(selected, OWN_MESSAGE) + (if exists f | f in selected :: JoinsSystemMessage(f) then 1 else 0)
  }

  function TransportCost(request: Request, selected: seq<Fragment>): int {
    request.requestOverhead + request.messageOverhead * Messages(selected)
  }

  method RunTransportCost(request: Request, selected: seq<Fragment>) returns (cost: int)
    ensures cost == TransportCost(request, selected)
  {
    var messages, systemSeen := 0, false;
    for i := 0 to |selected|
      invariant messages == Sum(selected[..i], OWN_MESSAGE)
      invariant systemSeen <==> exists f | f in selected[..i] :: JoinsSystemMessage(f)
    {
      assert selected[..i + 1] == selected[..i] + [selected[i]] && selected[..i + 1][..i] == selected[..i];
      if JoinsSystemMessage(selected[i]) {
        systemSeen := true;
      } else {
        messages := messages + 1;
      }
    }
    assert selected[..|selected|] == selected;
    if systemSeen {
      messages := messages + 1;
    }
    return request.requestOverhead + request.messageOverhead * messages;
  }

  const TOOL_COST: Estimator -> ToolSpec -> int :=
    (estimator: Estimator) => (tool: ToolSpec) => estimator(tool.BillableText())

  function ToolTokens(estimator: Estimator, tools: seq<ToolSpec>): int {
    Sum(tools, TOOL_COST(estimator))
  }

  method CountToolTokens(estimator: Estimator, tools: seq<ToolSpec>) returns (total: int)
    ensures total == ToolTokens(estimator, tools)
  {
    total := 0;
    for i := 0 to |tools|
      invariant total == Sum(tools[..i], TOOL_COST(estimator))
    {
      assert tools[..i + 1][..i] == tools[..i];
      total := total + estimator(tools[i].BillableText());
    }
    assert tools[..|tools|] == tools;
  }

  function FocusOf(fragments: seq<Fragment>): string {
    if fragments == [] then ""
    else if fragments[0].kind == UserGoal then fragments[0].content
    else FocusOf(fragments[1..])
  }

  method RunFocusOf(fragments: seq<Fragment>) returns (focus: string)
    ensures focus == FocusOf(fragments)
  {
    for i := 0 to |fragments|
      invariant FocusOf(fragments) == FocusOf(fragments[i..])
    {
      if fragments[i].kind == UserGoal {
        return fragments[i].content;
      }
    }
    return "";
  }

  function InSlice(fragments: seq<Fragment>, slice: Slice): seq<Fragment> {
    if fragments == [] then []
    else
      var n := |fragments| - 1;
      InSlice(fragments[..n], slice) + (if SliceFor(fragments[n]) == slice then [fragments[n]] else [])
  }

  method GroupBySlice(fragments: seq<Fragment>) returns (groups: map<Slice, seq<Fragment>>)
    ensures forall slice :: slice in groups && groups[slice] == InSlice(fragments, slice)
  {
    groups := map[System := [], SkillsProject := [], Pinned := [], Active := []];
    forall slice: Slice ensures slice in groups && groups[slice] == InSlice(fragments[..0], slice) {
      match slice
      case System => case SkillsProject => case Pinned => case Active =>
    }
    for i := 0 to |fragments|
      invariant forall slice :: slice in groups && groups[slice] == InSlice(fragments[..i], slice)
    {
      assert fragments[..i + 1][..i] == fragments[..i];
      var slice := SliceFor(fragments[i]);
      groups := groups[slice := groups[slice] + [fragments[i]]];
    }
    assert fragments[..|fragments|] == fragments;
  }

  // ---- The plan: everything decided before compaction ----

  /** The input after deduplication, pin propagation and spilling, with what each stage removed. */
  datatype Prepared = Prepared(unique: seq<Fragment>, fragments: seq<Fragment>, receipts: seq<SpillReceipt>)

  function Prepare(estimator: Estimator, request: Request, spiller: Option<Spiller>): Result<Prepared, SpillError> {
    var unique := Deduplicate(request.fragments);
    var spilled :- SpillLargeTools(estimator, PropagatePairPins(unique), request.profile.maxInlineTool, spiller);
    Ok(Prepared(unique, spilled.fragments, spilled.receipts))
  }

  /** The budget arithmetic of one compile. */
  datatype Plan = Plan(
    prepared: Prepared, system: Selected, skills: Selected, pinned: Selected, candidates: seq<Fragment>,
    toolTokens: int, pinnedBudget: int, inputBudget: int, basePrompt: int, activeBudget: int)

  function InputBudget(profile: Profile): int {
    profile.total - profile.outputReserve - profile.uncertaintyReserve
  }

  /** Above three quarters of the usable window, history gets only what is left below it. */
  function ActiveAllowance(inputBudget: int, hardLimit: int, basePrompt: int, activeTokens: int): int {
    var threshold := TruncatedQuotient(inputBudget * 3, 4);
    if basePrompt + activeTokens > threshold then Min(hardLimit, Max(0, threshold - basePrompt)) else hardLimit
  }

  function PlanOf(estimator: Estimator, request: Request, spiller: Option<Spiller>): Result<Plan, CompileError> {
    var profile := request.profile;
    if !profile.Valid() then Err(InvalidProfile)
    else
      var toolTokens := ToolTokens(estimator, request.directTools);
      if toolTokens > profile.directToolBudget then Err(DirectToolsOverflow)
      else
        match Prepare(estimator, request, spiller)
        case Err(cause) => Err(Spilling(cause))
        case Ok(prepared) => PlanBudgets(estimator, request, toolTokens, prepared)
  }

  /** The pinned slice may outgrow its own budget, but not the window. */
  function PinnedBudgetOf(request: Request, toolTokens: int, systemUsed: int, skillsUsed: int, pinnedTokens: int)
    : Result<int, CompileError>
  {
    var pinnedBudget := Max(request.profile.pinnedBudget, pinnedTokens);
    var available := InputBudget(request.profile) - systemUsed - skillsUsed - toolTokens - request.worstCaseToolBurst
                     - request.profile.summaryTarget;
    if pinnedBudget > available then Err(PinnedOverflow) else Ok(pinnedBudget)
  }

  function FixedContext(
      estimator: Estimator, request: Request, toolTokens: int, prepared: Prepared, system: Selected, skills: Selected,
      pinned: Selected, pinnedBudget: int, candidates: seq<Fragment>): Result<Plan, CompileError>
  {
    var inputBudget := InputBudget(request.profile);
    var transport := TransportCost(request, system.selected + skills.selected + pinned.selected + candidates);
    var basePrompt := system.used + skills.used + pinned.used + toolTokens + transport;
    var hardLimit := inputBudget - basePrompt - request.worstCaseToolBurst;
    if hardLimit < 0 then Err(FixedContextOverflow)
    else
      Ok(Plan(prepared, system, skills, pinned, candidates, toolTokens, pinnedBudget, inputBudget, basePrompt,
              ActiveAllowance(inputBudget, hardLimit, basePrompt, Tokens(estimator, candidates))))
  }

  function PlanBudgets(estimator: Estimator, request: Request, toolTokens: int, prepared: Prepared)
    : Result<Plan, CompileError>
  {
    var system := SelectWithin(estimator, InSlice(prepared.fragments, System), request.profile.systemBudget);
    var skills := SelectWithin(estimator, InSlice(prepared.fragments, SkillsProject), request.profile.skillProjectBudget);
    var pinnedGroup := InSlice(prepared.fragments, Pinned);
    var pinnedBudget :-
      PinnedBudgetOf(request, toolTokens, system.used, skills.used, Tokens(estimator, pinnedGroup));
    var pinned := SelectWithin(estimator, pinnedGroup, pinnedBudget);
    if pinned.dropped != [] then Err(PinnedDropped)
    else
      FixedContext(estimator, request, toolTokens, prepared, system, skills, pinned, pinnedBudget,
                   InSlice(prepared.fragments, Active))
  }

  // ---- Compaction and assembly ----

  function SelectActive(estimator: Estimator, plan: Plan, summaryTarget: int): Selected {
    SelectWithin(estimator, plan.candidates,
                 ActiveSelectionBudget(Tokens(estimator, plan.candidates), plan.activeBudget, summaryTarget))
  }

  function CompactionOf(estimator: Estimator, request: Request, plan: Plan, active: Selected): CompactRequest {
    CompactRequest(active.dropped, Min(request.profile.summaryTarget, plan.activeBudget - active.used), estimator,
                   FocusOf(request.fragments), request.semanticRelevance)
  }

  /** The checkpoint of what history drops; an empty content means there is none. */
  function CheckpointFor(
      estimator: Estimator, request: Request, plan: Plan, active: Selected, compactor: Option<Compactor>)
    : Result<Fragment, CompileError>
  {
    if active.dropped == [] || compactor.None? then Ok(EMPTY_FRAGMENT)
    else
      match compactor.value(CompactionOf(estimator, request, plan, active))
      case Err(cause) => Err(CompactionFailed(cause))
      case Ok(checkpoint) =>
        if checkpoint.content != "" && active.used + estimator(checkpoint.content) > plan.activeBudget
        then Err(CompactorExceededTarget)
        else Ok(checkpoint)
  }

  function CheckpointList(checkpoint: Fragment): seq<Fragment> {
    if checkpoint.content != "" then [checkpoint] else []
  }

  function SelectedFragments(plan: Plan, active: Selected, checkpoint: Fragment): seq<Fragment> {
    CanonicalOrder(plan.system.selected + plan.skills.selected + plan.pinned.selected + CheckpointList(checkpoint)
                   + active.selected)
  }

  function DroppedFragments(plan: Plan, active: Selected): seq<Fragment> {
    plan.system.dropped + plan.skills.dropped + active.dropped
  }

  function Ids(fragments: seq<Fragment>): seq<string> {
    seq(|fragments|, i requires 0 <= i < |fragments| => fragments[i].id)
  }

  /** The measured totals of one compile. */
  datatype Totals = Totals(original: int, unique: int, kept: int, selected: int, dropped: int, compacted: int, transport: int)

  function TotalsOf(estimator: Estimator, request: Request, plan: Plan, active: Selected, checkpoint: Fragment): Totals {
    var selected := SelectedFragments(plan, active, checkpoint);
    Totals(Tokens(estimator, request.fragments), Tokens(estimator, plan.prepared.unique),
           Tokens(estimator, plan.prepared.fragments), Tokens(estimator, selected),
           Tokens(estimator, DroppedFragments(plan, active)), Tokens(estimator, CheckpointList(checkpoint)),
           TransportCost(request, selected))
  }

  function Assemble(
      request: Request, plan: Plan, active: Selected, t: Totals, selectedIds: seq<string>, droppedIds: seq<string>,
      integrity: IntegrityReport): Report
  {
    var prompt := t.selected + plan.toolTokens + t.transport;
    var fixedBudget := plan.system.used + plan.skills.used + plan.toolTokens + plan.pinnedBudget;
    Report(
      t.original, t.original - t.unique, |request.fragments| - |plan.prepared.unique|, t.unique - t.kept,
      plan.prepared.receipts, selectedIds, t.selected, t.compacted, droppedIds, t.dropped,
      t.transport, prompt, prompt + request.worstCaseToolBurst,
      plan.inputBudget - prompt - request.worstCaseToolBurst,
      SliceUsage(plan.system.used, plan.system.used), SliceUsage(plan.toolTokens, plan.toolTokens),
      SliceUsage(plan.skills.used, plan.skills.used), SliceUsage(plan.pinnedBudget, plan.pinned.used),
      SliceUsage(plan.inputBudget - fixedBudget, active.used + t.compacted + request.worstCaseToolBurst),
      integrity)
  }

  function ReportFor(estimator: Estimator, request: Request, plan: Plan, active: Selected, checkpoint: Fragment): Report {
    var selected, dropped := SelectedFragments(plan, active, checkpoint), DroppedFragments(plan, active);
    Assemble(request, plan, active, TotalsOf(estimator, request, plan, active, checkpoint), Ids(selected), Ids(dropped),
             ReportOf(plan.prepared.fragments, Chosen(selected), Marked(checkpoint.content)))
  }

  /** The late guards, in the order Compile meets them. */
  function Finish(estimator: Estimator, request: Request, plan: Plan, active: Selected, checkpoint: Fragment)
    : (r: Result<Compiled, CompileError>)
    ensures r.Err? ==>
      r.error.PredictedOverflow? || r.error.LedgerImbalance? || r.error.CausalPairSplit? || r.error.PinnedNotRetained?
  {
    var report := ReportFor(estimator, request, plan, active, checkpoint);
    var selected := SelectedFragments(plan, active, checkpoint);
    var source := plan.prepared.fragments;
    if report.predictedInput + request.profile.outputReserve + request.profile.uncertaintyReserve > request.profile.total
    then Err(PredictedOverflow)
    else if !report.Reconciles() then Err(LedgerImbalance)
    else if !WholeAll(PairIds(source), source, Chosen(selected), Marked(checkpoint.content)) then Err(CausalPairSplit)
    else if !PinnedKept(source, Chosen(selected)) then Err(PinnedNotRetained)
    else Ok(Compiled(selected, DroppedFragments(plan, active), request.directTools, report))
  }

  /** From a plan to the compiled prompt: history, its checkpoint, and the guards. */
  function CompileFrom(estimator: Estimator, request: Request, plan: Plan, compactor: Option<Compactor>)
    : Result<Compiled, CompileError>
  {
    var active := SelectActive(estimator, plan, request.profile.summaryTarget);
    var checkpoint :- CheckpointFor(estimator, request, plan, active, compactor);
    Finish(estimator, request, plan, active, checkpoint)
  }

  function CompileResult(estimator: Estimator, request: Request, spiller: Option<Spiller>, compactor: Option<Compactor>)
    : Result<Compiled, CompileError>
  {
    var plan :- PlanOf(estimator, request, spiller);
    CompileFrom(estimator, request, plan, compactor)
  }

  method RunPrepare(estimator: Estimator, request: Request, spiller: Option<Spiller>)
    returns (result: Result<Prepared, SpillError>)
    ensures result == Prepare(estimator, request, spiller)
  {
    var unique := RunDeduplicate(request.fragments, BY_CONTENT);
    var pinned := RunPropagatePairPins(unique);
    var spilled := RunSpillLargeTools(estimator, pinned, request.profile.maxInlineTool, spiller);
    if spilled.Err? {
      return Err(spilled.error);
    }
    return Ok(Prepared(unique, spilled.value.fragments, spilled.value.receipts));
  }

  method RunFixedContext(
      estimator: Estimator, request: Request, toolTokens: int, prepared: Prepared, system: Selected, skills: Selected,
      pinned: Selected, pinnedBudget: int, candidates: seq<Fragment>) returns (result: Result<Plan, CompileError>)
    ensures result ==
      FixedContext(estimator, request, toolTokens, prepared, system, skills, pinned, pinnedBudget, candidates)
  {
    var inputBudget := InputBudget(request.profile);
    var transport := RunTransportCost(request, system.selected + skills.selected + pinned.selected + candidates);
    var basePrompt := system.used + skills.used + pinned.used + toolTokens + transport;
    var activeBudget := inputBudget - basePrompt - request.worstCaseToolBurst;
    if activeBudget < 0 {
      return Err(FixedContextOverflow);
    }
    var threshold := TruncatedQuotient(inputBudget * 3, 4);
    var activeTokens := CountTokens(estimator, candidates);
    if basePrompt + activeTokens > threshold {
      activeBudget := Min(activeBudget, Max(0, threshold - basePrompt));
    }
    return Ok(Plan(prepared, system, skills, pinned, candidates, toolTokens, pinnedBudget, inputBudget, basePrompt,
                   activeBudget));
  }

  method RunPlanBudgets(estimator: Estimator, request: Request, toolTokens: int, prepared: Prepared)
    returns (result: Result<Plan, CompileError>)
    ensures result == PlanBudgets(estimator, request, toolTokens, prepared)
  {
    var groups := GroupBySlice(prepared.fragments);
    var system := RunSelectWithin(estimator, groups[System], request.profile.systemBudget);
    var skills := RunSelectWithin(estimator, groups[SkillsProject], request.profile.skillProjectBudget);
    var pinnedTokens := CountTokens(estimator, groups[Pinned]);
    var pinnedBudget := PinnedBudgetOf(request, toolTokens, system.used, skills.used, pinnedTokens);
    if pinnedBudget.Err? {
      return Err(pinnedBudget.error);
    }
    var pinned := RunSelectWithin(estimator, groups[Pinned], pinnedBudget.value);
    if |pinned.dropped| > 0 {
      return Err(PinnedDropped);
    }
    result := RunFixedContext(estimator, request, toolTokens, prepared, system, skills, pinned, pinnedBudget.value,
                              groups[Active]);
  }

  method RunPlan(estimator: Estimator, request: Request, spiller: Option<Spiller>)
    returns (result: Result<Plan, CompileError>)
    ensures result == PlanOf(estimator, request, spiller)
  {
    if !request.profile.Valid() {
      return Err(InvalidProfile);
    }
    var toolTokens := CountToolTokens(estimator, request.directTools);
    if toolTokens > request.profile.directToolBudget {
      return Err(DirectToolsOverflow);
    }
    var prepared := RunPrepare(estimator, request, spiller);
    if prepared.Err? {
      return Err(Spilling(prepared.error));
    }
    result := RunPlanBudgets(estimator, request, toolTokens, prepared.value);
  }

  method RunTotals(estimator: Estimator, request: Request, plan: Plan, active: Selected, checkpoint: Fragment)
    returns (t: Totals)
    ensures t == TotalsOf(estimator, request, plan, active, checkpoint)
  {
    var selected := SelectedFragments(plan, active, checkpoint);
    var original := CountTokens(estimator, request.fragments);
    var unique := CountTokens(estimator, plan.prepared.unique);
    var kept := CountTokens(estimator, plan.prepared.fragments);
    var chosen := CountTokens(estimator, selected);
    var dropped := CountTokens(estimator, DroppedFragments(plan, active));
    var compacted := CountTokens(estimator, CheckpointList(checkpoint));
    var transport := RunTransportCost(request, selected);
    t := Totals(original, unique, kept, chosen, dropped, compacted, transport);
  }

  method RunReport(estimator: Estimator, request: Request, plan: Plan, active: Selected, checkpoint: Fragment)
    returns (report: Report)
    ensures report == ReportFor(estimator, request, plan, active, checkpoint)
  {
    var t := RunTotals(estimator, request, plan, active, checkpoint);
    var selected := SelectedFragments(plan, active, checkpoint);
    report := Assemble(request, plan, active, t, Ids(selected), Ids(DroppedFragments(plan, active)),
                       ReportOf(plan.prepared.fragments, Chosen(selected), Marked(checkpoint.content)));
  }

  method RunFinish(estimator: Estimator, request: Request, plan: Plan, active: Selected, checkpoint: Fragment)
    returns (result: Result<Compiled, CompileError>)
    ensures result == Finish(estimator, request, plan, active, checkpoint)
  {
    var report := RunReport(estimator, request, plan, active, checkpoint);
    var selected := SelectedFragments(plan, active, checkpoint);
    var profile := request.profile;
    if report.predictedInput + profile.outputReserve + profile.uncertaintyReserve > profile.total {
      return Err(PredictedOverflow);
    }
    if !report.Reconciles() {
      return Err(LedgerImbalance);
    }
    var integrity := EvaluateIntegrity(plan.prepared.fragments, Chosen(selected), Marked(checkpoint.content));
    if integrity.Err? {
      return if integrity.error.PairSplit? then Err(CausalPairSplit) else Err(PinnedNotRetained);
    }
    return Ok(Compiled(selected, DroppedFragments(plan, active), request.directTools,
                       report.(integrity := integrity.value)));
  }

  /** Compile, stage by stage, with every loop run. */
  method Compile(estimator: Estimator, request: Request, spiller: Option<Spiller>, compactor: Option<Compactor>)
    returns (result: Result<Compiled, CompileError>)
    ensures result == CompileResult(estimator, request, spiller, compactor)
  {
    var planned := RunPlan(estimator, request, spiller);
    if planned.Err? {
      return Err(planned.error);
    }
    var plan := planned.value;
    var activeTokens := CountTokens(estimator, plan.candidates);
    var active := RunSelectWithin(estimator, plan.candidates,
      ActiveSelectionBudget(activeTokens, plan.activeBudget, request.profile.summaryTarget));
    var checkpoint := RunCheckpoint(estimator, request, plan, active, compactor);
    if checkpoint.Err? {
      return Err(checkpoint.error);
    }
    result := RunFinish(estimator, request, plan, active, checkpoint.value);
  }

  method RunCheckpoint(
      estimator: Estimator, request: Request, plan: Plan, active: Selected, compactor: Option<Compactor>)
    returns (result: Result<Fragment, CompileError>)
    ensures result == CheckpointFor(estimator, request, plan, active, compactor)
  {
    if |active.dropped| == 0 || compactor.None? {
      return Ok(EMPTY_FRAGMENT);
    }
    var focus := RunFocusOf(request.fragments);
    var target := Min(request.profile.summaryTarget, plan.activeBudget - active.used);
    var answer := compactor.value(
      CompactRequest(active.dropped, target, estimator, focus, request.semanticRelevance));
    if answer.Err? {
      return Err(CompactionFailed(answer.error));
    }
    if answer.value.content != "" && active.used + estimator(answer.value.content) > plan.activeBudget {
      return Err(CompactorExceededTarget);
    }
    return Ok(answer.value);
  }
}
