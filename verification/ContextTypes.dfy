/** The records of internal/context/types.go and internal/context/profile.go. */
module ContextTypes {
  import opened Wrappers
  import opened Text
  import opened Sums

  datatype Kind =
    | Identity | Policy | UserGoal | ProjectInstruction | ProjectKnowledge | SelectedSkill | Conversation
    | ToolCall | ToolResult | Decision | OpenTask | ArtifactReceipt | Checkpoint

  function KindName(kind: Kind): string {
    match kind
    case Identity => "identity"
    case Policy => "policy"
    case UserGoal => "user_goal"
    case ProjectInstruction => "project_instruction"
    case ProjectKnowledge => "project_knowledge"
    case SelectedSkill => "selected_skill"
    case Conversation => "conversation"
    case ToolCall => "tool_call"
    case ToolResult => "tool_result"
    case Decision => "decision"
    case OpenTask => "open_task"
    case ArtifactReceipt => "artifact_receipt"
    case Checkpoint => "checkpoint"
  }

  /** Times are integers; 0 is Go's zero time. */
  type Time = int

  /** One fixed, pure ruler for a whole compile. */
  type Estimator = string -> nat

  datatype Fragment = Fragment(
    id: string, kind: Kind, scope: string, provenance: string, trust: string, version: string,
    priority: int, pinned: bool, cacheClass: string, content: string, pairId: string,
    createdAt: Time, metadata: map<string, string>)

  const EMPTY_FRAGMENT := Fragment("", Conversation, "", "", "", "", 0, false, "", "", "", 0, map[])

  datatype ToolSpec = ToolSpec(name: string, schema: string, serialized: string) {
    /** The text the estimator counts for this tool. */
    function BillableText(): string {
      if TrimSpace(serialized) != "" then serialized else name + "\n" + schema
    }
  }

  datatype SemanticHint = SemanticHint(score: real, start: int, end: int)

  datatype Profile = Profile(
    name: string, total: int, outputReserve: int, uncertaintyReserve: int, systemBudget: int,
    directToolBudget: int, skillProjectBudget: int, pinnedBudget: int, activeBudget: int,
    summaryTarget: int, maxInlineTool: int)
  {
    predicate Valid() {
      && total > 0 && outputReserve >= 0 && uncertaintyReserve >= 0
      && outputReserve + uncertaintyReserve + systemBudget + directToolBudget + skillProjectBudget
         + pinnedBudget + activeBudget == total
      && 0 <= summaryTarget <= TruncatedQuotient(activeBudget, 2)
    }
  }

  /** Go's integer division, which truncates toward zero. */
  function TruncatedQuotient(a: int, b: int): int
    requires b > 0
  {
    if a >= 0 then a / b else -(-a / b)
  }

  datatype Request = Request(
    profile: Profile, fragments: seq<Fragment>, directTools: seq<ToolSpec>, worstCaseToolBurst: int,
    messageOverhead: int, requestOverhead: int, semanticRelevance: Option<string -> SemanticHint>)

  datatype SliceUsage = SliceUsage(budget: int, used: int)

  datatype SpillReceipt = SpillReceipt(ref: string, mime: string, bytes: int, checksum: string)

  datatype IntegrityReport = IntegrityReport(
    pinnedTotal: nat, pinnedRetained: nat, pairsTotal: nat, pairsSelected: nat, pairsCompacted: nat, pairsOmitted: nat)

  function Max(a: int, b: int): int { if a < b then b else a }

  function Min(a: int, b: int): int { if b < a then b else a }

  function ContentCost(estimator: Estimator): (cost: Fragment -> int)
  {
    (f: Fragment) => estimator(f.content)
  }

  lemma CostNonNegative(estimator: Estimator, fragments: seq<Fragment>)
    ensures Sum(fragments, ContentCost(estimator)) >= 0
  {
    forall f | f in fragments ensures ContentCost(estimator)(f) >= 0 {
      var n: nat := estimator(f.content);
    }
    SumNonNegative(fragments, ContentCost(estimator));
  }

  function Tokens(estimator: Estimator, fragments: seq<Fragment>): (total: int)
    ensures total >= 0
  {
    CostNonNegative(estimator, fragments);
    Sum(fragments, ContentCost(estimator))
  }

  /** The counting loop behind every total in a report. */
  method CountTokens(estimator: Estimator, fragments: seq<Fragment>) returns (total: int)
    ensures total == Tokens(estimator, fragments)
  {
    total := 0;
    for i := 0 to |fragments|
      invariant total == Sum(fragments[..i], ContentCost(estimator))
    {
      assert fragments[..i + 1][..i] == fragments[..i];
      total := total + estimator(fragments[i].content);
    }
    assert fragments[..|fragments|] == fragments;
  }

  /** The key under which fragments form one unit: a pair, or a fragment by itself. */
  function UnitKey(fragment: Fragment): string {
    if fragment.pairId != "" then "pair:" + fragment.pairId else "id:" + fragment.id
  }

  /** An ID names one fragment. */
  predicate UniqueIds(fragments: seq<Fragment>) {
    forall f, g | f in fragments && g in fragments && f.id == g.id :: f == g
  }
}
