/** One turn of the agent: its model steps, its tool budget, its loop detector, and the results of every batch. */
module AgentLoop {
  import opened Wrappers

  /** A tool call as the model asked for it; the signature stands for the hash of its name and arguments. */
  datatype Call = Call(id: string, name: string, signature: string, poll: bool)

  /** The events of a turn that the loop reads back when it resumes. */
  datatype Record = Bound(step: int) | Called(step: int, call: Call) | Resulted(id: string)

  datatype Budget = Budget(maxSteps: int, maxToolCalls: int)

  // ---- Reading a turn's log ----

  function Recorded(log: seq<Record>): nat {
    if log == [] then 0 else Recorded(log[..|log| - 1]) + (if log[|log| - 1].Called? then 1 else 0)
  }

  predicate Matches(r: Record, signature: string) {
    r.Called? && r.call.signature == signature
  }

  /** Recorded calls with a signature, polls included: what a resumed loop counts. */
  function Repeats(log: seq<Record>, signature: string): nat {
    if log == [] then 0
    else Repeats(log[..|log| - 1], signature) + (if Matches(log[|log| - 1], signature) then 1 else 0)
  }

  /** Recorded calls with a signature that are not polls. */
  function Identical(log: seq<Record>, signature: string): nat {
    if log == [] then 0
    else
      var r := log[|log| - 1];
      Identical(log[..|log| - 1], signature) + (if Matches(r, signature) && !r.call.poll then 1 else 0)
  }

  function CallIds(log: seq<Record>): seq<string> {
    if log == [] then []
    else
      var r := log[|log| - 1];
      if r.Called? then CallIds(log[..|log| - 1]) + [r.call.id] else CallIds(log[..|log| - 1])
  }

  function ResultIds(log: seq<Record>): seq<string> {
    if log == [] then []
    else
      var r := log[|log| - 1];
      if r.Resulted? then ResultIds(log[..|log| - 1]) + [r.id] else ResultIds(log[..|log| - 1])
  }

  /** The last step bound, or zero. */
  function LastStep(log: seq<Record>): int {
    if log == [] then 0
    else if log[|log| - 1].Bound? then log[|log| - 1].step
    else LastStep(log[..|log| - 1])
  }

  /** Steps are bound in strictly increasing order, from one on. */
  predicate StepsIncrease(log: seq<Record>) {
    log == [] ||
    var r := log[|log| - 1];
    StepsIncrease(log[..|log| - 1]) && (r.Bound? ==> LastStep(log[..|log| - 1]) < r.step)
  }

  /** Every recorded call has exactly one result. */
  predicate Answered(log: seq<Record>) {
    multiset(CallIds(log)) == multiset(ResultIds(log))
  }

  /** Every recorded call has exactly one result, but for one call that has none. */
  predicate AnsweredBut(log: seq<Record>, id: string) {
    multiset(CallIds(log)) == multiset(ResultIds(log)) + multiset{id}
  }

  /** The model was sampled only when every call recorded before had exactly one result. */
  predicate SampledAnswered(log: seq<Record>) {
    log == [] ||
    var before := log[..|log| - 1];
    SampledAnswered(before) && (log[|log| - 1].Bound? ==> Answered(before))
  }

  ghost predicate NoThird(log: seq<Record>) {
    forall s: string :: Identical(log, s) <= 2
  }

  /** What the log of a turn satisfies whenever the model may be sampled again. */
  ghost predicate Disciplined(log: seq<Record>, budget: Budget) {
    && Recorded(log) <= budget.maxToolCalls && NoThird(log)
    && StepsIncrease(log) && LastStep(log) <= budget.maxSteps
  }

  lemma Append(log: seq<Record>, r: Record)
    ensures
      var after := log + [r];
      && Recorded(after) == Recorded(log) + (if r.Called? then 1 else 0)
      && CallIds(after) == (if r.Called? then CallIds(log) + [r.call.id] else CallIds(log))
      && ResultIds(after) == (if r.Resulted? then ResultIds(log) + [r.id] else ResultIds(log))
      && LastStep(after) == (if r.Bound? then r.step else LastStep(log))
      && StepsIncrease(after) == (StepsIncrease(log) && (r.Bound? ==> LastStep(log) < r.step))
      && SampledAnswered(after) == (SampledAnswered(log) && (r.Bound? ==> Answered(log)))
  {
    assert (log + [r])[..|log|] == log;
  }

  lemma AppendIdentical(log: seq<Record>, r: Record, s: string)
    ensures Identical(log + [r], s) == Identical(log, s) + (if Matches(r, s) && !r.call.poll then 1 else 0)
  {
    assert (log + [r])[..|log|] == log;
  }

  lemma {:induction false} IdenticalWithinRepeats(log: seq<Record>, s: string)
    ensures Identical(log, s) <= Repeats(log, s)
  {
    if log != [] {
      IdenticalWithinRepeats(log[..|log| - 1], s);
    }
  }

  // ---- Counters ----

  function Count(signatures: map<string, nat>, s: string): nat {
    if s in signatures then signatures[s] else 0
  }

  /** turnToolCallStats: the counters a resumed turn starts from. */
  method TurnToolCallStats(log: seq<Record>) returns (count: nat, signatures: map<string, nat>)
    ensures count == Recorded(log)
    ensures forall s: string :: Count(signatures, s) == Repeats(log, s)
  {
    count, signatures := 0, map[];
    for i := 0 to |log|
      invariant count == Recorded(log[..i])
      invariant forall s: string :: Count(signatures, s) == Repeats(log[..i], s)
    {
      assert log[..i + 1][..i] == log[..i];
      if log[i].Called? {
        var s := log[i].call.signature;
        signatures := signatures[s := Count(signatures, s) + 1];
        count := count + 1;
      }
    }
    assert log[..|log|] == log;
  }

  /** How often a batch asks for the same call, polls aside. */
  function Asked(calls: seq<Call>, s: string): nat {
    if calls == [] then 0
    else
      var c := calls[|calls| - 1];
      Asked(calls[..|calls| - 1], s) + (if c.signature == s && !c.poll then 1 else 0)
  }

  lemma {:induction false} AskedPrefix(calls: seq<Call>, n: nat, s: string)
    requires n <= |calls|
    ensures Asked(calls[..n], s) <= Asked(calls, s)
  {
    if n == |calls| {
      assert calls[..n] == calls;
    } else {
      assert calls[..|calls| - 1][..n] == calls[..n];
      AskedPrefix(calls[..|calls| - 1], n, s);
    }
  }

  /** Counts a batch, stopping at the first call that would be the third of its kind. */
  method CountSignatures(calls: seq<Call>, signatures: map<string, nat>)
    returns (after: map<string, nat>, third: bool)
    ensures forall s: string :: Count(signatures, s) <= Count(after, s)
    ensures !third ==> forall s: string :: Count(after, s) == Count(signatures, s) + Asked(calls, s)
    ensures third <==> exists s: string :: Asked(calls, s) > 0 && Count(signatures, s) + Asked(calls, s) >= 3
  {
    after, third := signatures, false;
    for i := 0 to |calls|
      invariant forall s: string :: Count(after, s) == Count(signatures, s) + Asked(calls[..i], s)
      invariant forall s: string :: Asked(calls[..i], s) > 0 ==> Count(after, s) <= 2
    {
      assert calls[..i + 1][..i] == calls[..i];
      if calls[i].poll {
        continue;
      }
      var s := calls[i].signature;
      after := after[s := Count(after, s) + 1];
      if after[s] >= 3 {
        AskedPrefix(calls, i + 1, s);
        third := true;
        return;
      }
    }
    assert calls[..|calls|] == calls;
  }

  // ---- A batch of tool calls ----

  /**
   * What happens around one call: whether it is bound, what its approval requirement is before anything is recorded
   * and again at dispatch (None when the check fails), and whether a stop, the approval plan, its row and the dispatch
   * succeed.
   */
  datatype Fate = Fate(
    bound: bool, preflight: Option<bool>, stopped: bool, recheck: Option<bool>, planned: bool, created: bool,
    dispatched: bool)

  datatype BatchEnd =
    | AllResolved
    | PausedAt(index: nat)
    | Refused(repairable: bool) // before anything was recorded; an audit may ask for another batch
    | Broken                    // the turn ends with an error

  function Ids(calls: seq<Call>): seq<string> {
    seq(|calls|, i requires 0 <= i < |calls| => calls[i].id)
  }

  /** The first call that needs an approval before anything is dispatched; the batch is cut after it. */
  function FirstApproval(calls: seq<Call>, fates: seq<Fate>): (first: nat)
    requires |fates| == |calls|
    ensures first <= |calls|
  {
    if calls == [] then 0
    else if fates[0].preflight == Some(true) then 0
    else 1 + FirstApproval(calls[1..], fates[1..])
  }

  function Cut(calls: seq<Call>, fates: seq<Fate>): (n: nat)
    requires |fates| == |calls|
    ensures n <= |calls|
  {
    var first := FirstApproval(calls, fates);
    if first < |calls| then first + 1 else |calls|
  }

  lemma {:induction false} FirstApprovalScan(calls: seq<Call>, fates: seq<Fate>, i: nat)
    requires |fates| == |calls| && i <= |calls|
    requires forall j | 0 <= j < i :: fates[j].preflight != Some(true)
    ensures FirstApproval(calls, fates) == i + FirstApproval(calls[i..], fates[i..])
  {
    if i > 0 {
      FirstApprovalScan(calls[1..], fates[1..], i - 1);
      assert calls[1..][i - 1..] == calls[i..] && fates[1..][i - 1..] == fates[i..];
    }
  }

  /** The preflight: every call bound and checkable, and in an audit an effect that needs approval stays alone. */
  method Preflight(calls: seq<Call>, fates: seq<Fate>, audit: bool) returns (refused: Option<BatchEnd>, first: nat)
    requires |fates| == |calls|
    ensures refused.Some? ==> refused.value.Refused?
    ensures refused.None? ==> first == FirstApproval(calls, fates)
  {
    first := |calls|;
    var approvals := 0;
    for i := 0 to |calls|
      invariant first <= |calls|
      invariant first == |calls| ==> forall j | 0 <= j < i :: fates[j].preflight != Some(true)
      invariant first < |calls| ==>
        && first < i && fates[first].preflight == Some(true)
        && forall j | 0 <= j < first :: fates[j].preflight != Some(true)
    {
      if !fates[i].bound || fates[i].preflight.None? {
        return Some(Refused(false)), first;
      }
      if fates[i].preflight.value {
        approvals := approvals + 1;
        first := if first == |calls| then i else first;
      }
    }
    refused := if audit && approvals > 0 && |calls| != 1 then Some(Refused(true)) else None;
    FirstApprovalScan(calls, fates, first);
    assert first < |calls| ==> calls[first..][0] == calls[first] && fates[first..][0] == fates[first];
  }

  /** Neither calls nor results change which steps were bound, and when. */
  predicate SameSteps(before: seq<Record>, after: seq<Record>) {
    && LastStep(after) == LastStep(before) && StepsIncrease(after) == StepsIncrease(before)
    && SampledAnswered(after) == SampledAnswered(before)
  }

  function CallRecords(step: int, calls: seq<Call>): seq<Record> {
    seq(|calls|, i requires 0 <= i < |calls| => Called(step, calls[i]))
  }

  /** Every call is recorded, in the model's order, before anything is dispatched. */
  method RecordCalls(log: seq<Record>, step: int, calls: seq<Call>) returns (after: seq<Record>)
    ensures after == log + CallRecords(step, calls)
  {
    after := log;
    for i := 0 to |calls|
      invariant after == log + CallRecords(step, calls)[..i]
    {
      after := after + [Called(step, calls[i])];
    }
    assert CallRecords(step, calls)[..|calls|] == CallRecords(step, calls);
  }

  /** What recording a batch adds to the log's counts. */
  lemma {:induction false} CallsRecorded(log: seq<Record>, step: int, calls: seq<Call>)
    ensures
      var after := log + CallRecords(step, calls);
      && CallIds(after) == CallIds(log) + Ids(calls) && ResultIds(after) == ResultIds(log)
      && Recorded(after) == Recorded(log) + |calls| && SameSteps(log, after)
      && (forall s: string :: Identical(after, s) == Identical(log, s) + Asked(calls, s))
  {
    if calls == [] {
      assert log + CallRecords(step, calls) == log;
    } else {
      var n := |calls| - 1;
      var init := log + CallRecords(step, calls[..n]);
      CallsRecorded(log, step, calls[..n]);
      assert log + CallRecords(step, calls) == init + [Called(step, calls[n])];
      Append(init, Called(step, calls[n]));
      forall s: string ensures Identical(init + [Called(step, calls[n])], s) == Identical(log, s) + Asked(calls, s) {
        AppendIdentical(init, Called(step, calls[n]), s);
      }
      assert Ids(calls) == Ids(calls[..n]) + [calls[n].id];
    }
  }

  /** Results change nothing but which calls are answered. */
  predicate OnlyResults(before: seq<Record>, after: seq<Record>) {
    && Recorded(after) == Recorded(before) && CallIds(after) == CallIds(before)
    && SameSteps(before, after)
  }

  ghost predicate SameCalls(before: seq<Record>, after: seq<Record>) {
    forall s: string :: Identical(after, s) == Identical(before, s)
  }

  lemma AppendResult(log: seq<Record>, id: string)
    ensures OnlyResults(log, log + [Resulted(id)]) && SameCalls(log, log + [Resulted(id)])
    ensures ResultIds(log + [Resulted(id)]) == ResultIds(log) + [id]
  {
    Append(log, Resulted(id));
    forall s: string {
      AppendIdentical(log, Resulted(id), s);
    }
  }

  /** Calls after the first approval are answered as deferred before the turn pauses. */
  method DeferCalls(log: seq<Record>, calls: seq<Call>) returns (after: seq<Record>)
    ensures OnlyResults(log, after) && SameCalls(log, after) && ResultIds(after) == ResultIds(log) + Ids(calls)
  {
    after := log;
    for i := 0 to |calls|
      invariant OnlyResults(log, after) && SameCalls(log, after)
      invariant ResultIds(after) == ResultIds(log) + Ids(calls[..i])
    {
      assert calls[..i + 1][..i] == calls[..i];
      AppendResult(after, calls[i].id);
      after := after + [Resulted(calls[i].id)];
    }
    assert calls[..|calls|] == calls;
  }

  /** Dispatch in model order: each call gets its one result, or the batch pauses or breaks at it. */
  method DispatchCalls(log: seq<Record>, calls: seq<Call>, fates: seq<Fate>)
    returns (after: seq<Record>, end: BatchEnd)
    requires |calls| <= |fates|
    ensures OnlyResults(log, after) && SameCalls(log, after)
    ensures end.AllResolved? ==> ResultIds(after) == ResultIds(log) + Ids(calls)
    ensures end.PausedAt? ==>
      && end.index < |calls| && fates[end.index].recheck == Some(true)
      && ResultIds(after) == ResultIds(log) + Ids(calls[..end.index])
    ensures end.AllResolved? || end.PausedAt? || end.Broken?
  {
    after := log;
    for i := 0 to |calls|
      invariant OnlyResults(log, after) && SameCalls(log, after)
      invariant ResultIds(after) == ResultIds(log) + Ids(calls[..i])
    {
      assert calls[..i + 1][..i] == calls[..i];
      var fate := fates[i];
      if fate.stopped {
        return after, Broken;
      }
      if fate.recheck == Some(true) && fate.planned {
        return after, if fate.created then PausedAt(i) else Broken;
      }
      if fate.recheck == Some(false) && !fate.dispatched {
        return after, Broken;
      }
      AppendResult(after, calls[i].id);
      after := after + [Resulted(calls[i].id)];
    }
    assert calls[..|calls|] == calls;
    end := AllResolved;
  }

  /** A batch adds its calls to the log; which results it adds depends on how it ends. */
  ghost predicate BatchAdds(log: seq<Record>, after: seq<Record>, calls: seq<Call>) {
    && CallIds(after) == CallIds(log) + Ids(calls) && Recorded(after) == Recorded(log) + |calls|
    && (forall s: string :: Identical(after, s) == Identical(log, s) + Asked(calls, s))
  }

  method ResolveBatch(log: seq<Record>, step: int, calls: seq<Call>, fates: seq<Fate>, cut: nat)
    returns (after: seq<Record>, end: BatchEnd)
    requires |fates| == |calls| && cut <= |calls|
    ensures BatchAdds(log, after, calls)
    ensures SameSteps(log, after)
    ensures end.AllResolved? || end.PausedAt? || end.Broken?
    ensures end.AllResolved? ==> ResultIds(after) == ResultIds(log) + Ids(calls[cut..]) + Ids(calls[..cut])
    ensures end.PausedAt? ==>
      && end.index < cut && fates[end.index].recheck == Some(true)
      && ResultIds(after) == ResultIds(log) + Ids(calls[cut..]) + Ids(calls[..end.index])
  {
    after := RecordCalls(log, step, calls);
    CallsRecorded(log, step, calls);
    after := DeferCalls(after, calls[cut..]);
    after, end := DispatchCalls(after, calls[..cut], fates);
    assert end.PausedAt? ==> calls[..cut][..end.index] == calls[..end.index];
  }

  lemma ResolvedIsAnswered(log: seq<Record>, after: seq<Record>, calls: seq<Call>, cut: nat)
    requires cut <= |calls| && Answered(log) && CallIds(after) == CallIds(log) + Ids(calls)
    requires ResultIds(after) == ResultIds(log) + Ids(calls[cut..]) + Ids(calls[..cut])
    ensures Answered(after)
  {
    assert Ids(calls) == Ids(calls[..cut]) + Ids(calls[cut..]);
  }

  lemma PausedIsAnsweredBut(log: seq<Record>, after: seq<Record>, calls: seq<Call>, cut: nat, k: nat)
    requires k < cut <= |calls| && Answered(log) && CallIds(after) == CallIds(log) + Ids(calls)
    requires ResultIds(after) == ResultIds(log) + Ids(calls[cut..]) + Ids(calls[..k])
    ensures AnsweredBut(after, calls[k].id) <==> k == cut - 1
  {
    OpenCalls(calls, cut, k);
  }

  /** The calls between a pause and the cut are the ones left without a result. */
  lemma OpenCalls(calls: seq<Call>, cut: nat, k: nat)
    requires k < cut <= |calls|
    ensures multiset(Ids(calls)) ==
      multiset(Ids(calls[cut..])) + multiset(Ids(calls[..k])) + multiset(Ids(calls[k..cut]))
    ensures multiset(Ids(calls[k..cut])) == multiset{calls[k].id} <==> k == cut - 1
  {
    var open := calls[k..cut];
    assert Ids(calls) == Ids(calls[..k]) + Ids(open) + Ids(calls[cut..]);
    assert |multiset(Ids(open))| == cut - k;
    if k == cut - 1 {
      assert Ids(open) == [calls[k].id];
    }
  }

  /**
   * executeToolCalls. Unless the turn breaks, every recorded call has its one result, except the one an approval
   * waits for; and when the batch pauses, that is the only one left exactly if it pauses where the preflight cut it.
   */
  method ExecuteToolCalls(log: seq<Record>, step: int, calls: seq<Call>, fates: seq<Fate>, audit: bool)
    returns (after: seq<Record>, end: BatchEnd)
    requires |fates| == |calls|
    ensures end.Refused? ==> after == log
    ensures !end.Refused? ==> BatchAdds(log, after, calls)
    ensures SameSteps(log, after)
    ensures end.AllResolved? && Answered(log) ==> Answered(after)
    ensures end.PausedAt? ==> end.index < Cut(calls, fates) && fates[end.index].recheck == Some(true)
    ensures end.PausedAt? && Answered(log) ==>
      (AnsweredBut(after, calls[end.index].id) <==> end.index == Cut(calls, fates) - 1)
  {
    after, end := log, Refused(true);
    if |calls| != 1 && exists i | 0 <= i < |calls| :: calls[i].name == "audit_report" {
      return;
    }
    var refused, first := Preflight(calls, fates, audit);
    if refused.Some? {
      return log, refused.value;
    }
    var cut := if first < |calls| then first + 1 else |calls|;
    after, end := ResolveBatch(log, step, calls, fates, cut);
    if Answered(log) {
      if end.AllResolved? {
        ResolvedIsAnswered(log, after, calls, cut);
      } else if end.PausedAt? {
        PausedIsAnsweredBut(log, after, calls, cut, end.index);
      }
    }
  }

  /** The requirement of every call is the same at dispatch as it was before anything was recorded. */
  predicate Stable(fates: seq<Fate>) {
    forall i | 0 <= i < |fates| :: fates[i].recheck == fates[i].preflight
  }

  lemma {:induction false} BeforeFirst(calls: seq<Call>, fates: seq<Fate>, k: nat)
    requires |fates| == |calls| && k < FirstApproval(calls, fates)
    ensures fates[k].preflight != Some(true)
  {
    if k > 0 {
      BeforeFirst(calls[1..], fates[1..], k - 1);
    }
  }

  /** With stable requirements a batch pauses only where the preflight cut it. */
  lemma StablePausesAtCut(calls: seq<Call>, fates: seq<Fate>, k: nat)
    requires |fates| == |calls| && Stable(fates)
    requires k < Cut(calls, fates) && fates[k].recheck == Some(true)
    ensures k == Cut(calls, fates) - 1
  {
    if k < FirstApproval(calls, fates) {
      BeforeFirst(calls, fates, k);
    }
  }

  // ---- The loop ----

  datatype Reply =
    | WantsTools(calls: seq<Call>, fates: seq<Fate>)
    | Says(blank: bool)
    | NoReply

  /** What one step meets: an owner stop, a token budget too short for another call, and the model's reply. */
  datatype Moment = Moment(stopped: bool, tokensShort: bool, reply: Reply) {
    predicate WellFormed() {
      reply.WantsTools? ==> reply.calls != [] && |reply.fates| == |reply.calls|
    }

    predicate Steady() {
      reply.WantsTools? ==> Stable(reply.fates)
    }
  }

  datatype LoopEnd = Finished | NeedsApproval(call: string, step: int)

  ghost predicate Sampled(log: seq<Record>) {
    Answered(log) && SampledAnswered(log)
  }

  lemma BindStep(log: seq<Record>, budget: Budget, step: int)
    requires Disciplined(log, budget) && LastStep(log) < step <= budget.maxSteps
    ensures Disciplined(log + [Bound(step)], budget) && LastStep(log + [Bound(step)]) == step
    ensures Recorded(log + [Bound(step)]) == Recorded(log)
    ensures forall s: string :: Identical(log + [Bound(step)], s) == Identical(log, s)
    ensures Sampled(log) ==> Sampled(log + [Bound(step)])
  {
    Append(log, Bound(step));
    forall s: string ensures Identical(log + [Bound(step)], s) == Identical(log, s) {
      AppendIdentical(log, Bound(step), s);
    }
  }

  /** The in-memory counters never fall behind the log. */
  ghost predicate Counted(log: seq<Record>, budget: Budget, toolCalls: int, signatures: map<string, nat>) {
    && Recorded(log) <= toolCalls <= budget.maxToolCalls
    && forall s: string :: Identical(log, s) <= Count(signatures, s)
  }

  lemma BatchKeeps(
      log: seq<Record>, after: seq<Record>, budget: Budget, calls: seq<Call>, before: map<string, nat>,
      signatures: map<string, nat>, toolCalls: int)
    requires Disciplined(log, budget) && Counted(log, budget, toolCalls - |calls|, before) && toolCalls <= budget.maxToolCalls
    requires BatchAdds(log, after, calls) && SameSteps(log, after)
    requires forall s: string :: Count(signatures, s) == Count(before, s) + Asked(calls, s)
    requires !exists s: string :: Asked(calls, s) > 0 && Count(before, s) + Asked(calls, s) >= 3
    ensures Disciplined(after, budget) && Counted(after, budget, toolCalls, signatures)
  {
    forall s: string ensures Identical(after, s) <= 2 {
      assert Identical(after, s) == Identical(log, s) + Asked(calls, s);
    }
  }

  /** One batch as the loop sees it: over budget or a third repeat executes nothing and makes the next step final. */
  method RunBatch(
      log: seq<Record>, budget: Budget, step: int, calls: seq<Call>, fates: seq<Fate>, audit: bool, final: bool,
      toolCalls: int, signatures: map<string, nat>)
    returns (after: seq<Record>, end: BatchEnd, stopping: bool, spent: int, counts: map<string, nat>)
    requires |fates| == |calls| && Disciplined(log, budget) && Counted(log, budget, toolCalls, signatures)
    ensures Disciplined(after, budget) && Counted(after, budget, spent, counts) && SameSteps(log, after)
    ensures end.AllResolved? && Answered(log) ==> Answered(after)
    ensures end.Refused? ==> after == log
    ensures end.PausedAt? ==> end.index < |calls|
    ensures end.PausedAt? && Answered(log) && Stable(fates) ==> AnsweredBut(after, calls[end.index].id)
  {
    after, end, stopping, spent, counts := log, Refused(true), true, toolCalls, signatures;
    if toolCalls + |calls| > budget.maxToolCalls {
      return;
    }
    spent := toolCalls + |calls|;
    var third;
    counts, third := CountSignatures(calls, signatures);
    if third || final {
      return;
    }
    stopping := false;
    after, end := ExecuteToolCalls(log, step, calls, fates, audit);
    if !end.Refused? {
      BatchKeeps(log, after, budget, calls, signatures, counts, spent);
    }
    if end.PausedAt? && Stable(fates) {
      StablePausesAtCut(calls, fates, end.index);
    }
  }

  /**
   * runAgentLoop from one step on. The log stays within the tool budget, binds strictly increasing steps within the
   * step budget, never records a third identical call that is not a poll, and is sampled only when answered.
   */
  method RunAgentLoop(log: seq<Record>, startStep: int, budget: Budget, audit: bool, env: int -> Moment)
    returns (after: seq<Record>, end: LoopEnd)
    requires forall n :: env(n).WellFormed()
    requires Disciplined(log, budget) && LastStep(log) < startStep
    ensures Disciplined(after, budget) && LastStep(log) <= LastStep(after)
    ensures Sampled(log) && (forall n :: env(n).Steady()) ==> SampledAnswered(after)
    ensures end.NeedsApproval? ==> end.step == LastStep(after) && LastStep(log) < end.step
    ensures end.NeedsApproval? && Sampled(log) && (forall n :: env(n).Steady()) ==> AnsweredBut(after, end.call)
  {
    after, end := log, Finished;
    if budget.maxSteps <= 0 || budget.maxSteps > 100 {
      return;
    }
    var toolCalls, signatures := TurnToolCallStats(log);
    forall s: string ensures Identical(log, s) <= Count(signatures, s) {
      IdenticalWithinRepeats(log, s);
    }
    var step, final, blanks := startStep, false, 0;
    while step <= budget.maxSteps
      invariant Disciplined(after, budget) && LastStep(log) <= LastStep(after) < step
      invariant Counted(after, budget, toolCalls, signatures)
      invariant Sampled(log) && (forall n :: env(n).Steady()) ==> Sampled(after)
      decreases budget.maxSteps - step
    {
      var moment := env(step);
      if moment.stopped {
        return;
      }
      if toolCalls >= (if budget.maxToolCalls - 2 > 1 then budget.maxToolCalls - 2 else 1) {
        final := true;
      }
      var finalStep := step == budget.maxSteps || final;
      if !finalStep && moment.tokensShort {
        finalStep, final := true, true;
      }
      BindStep(after, budget, step);
      after := after + [Bound(step)];
      match moment.reply {
        case NoReply =>
          return;
        case Says(blank) =>
          if audit && step < budget.maxSteps {
          } else if !audit && blank && !finalStep && blanks == 0 {
            blanks, final := 1, true;
          } else {
            return;
          }
        case WantsTools(calls, fates) =>
          if finalStep && !(audit && |calls| == 1 && calls[0].name == "audit_report") {
            return;
          }
          var batchEnd, stopping;
          after, batchEnd, stopping, toolCalls, signatures :=
            RunBatch(after, budget, step, calls, fates, audit, final, toolCalls, signatures);
          final := final || stopping;
          if batchEnd.PausedAt? {
            return after, NeedsApproval(calls[batchEnd.index].id, step);
          }
          if batchEnd.Broken? || (batchEnd.Refused? && !stopping && !(audit && batchEnd.repairable)) {
            return;
          }
      }
      step := step + 1;
    }
  }

  lemma ReceiptAnswers(log: seq<Record>, budget: Budget, id: string)
    requires Disciplined(log, budget)
    ensures Disciplined(log + [Resulted(id)], budget) && LastStep(log + [Resulted(id)]) == LastStep(log)
    ensures SampledAnswered(log) && AnsweredBut(log, id) ==> Sampled(log + [Resulted(id)])
  {
    AppendResult(log, id);
  }

  /** A whole turn: any number of pauses for approval, each resumed at the step after its own with counters rebuilt. */
  method RunTurn(budget: Budget, audit: bool, env: int -> Moment, decided: int -> bool) returns (log: seq<Record>)
    requires forall n :: env(n).WellFormed()
    requires budget.maxToolCalls >= 0 && budget.maxSteps >= 0
    ensures Disciplined(log, budget)
    ensures (forall n :: env(n).Steady()) ==> SampledAnswered(log)
  {
    log := [];
    var end;
    log, end := RunAgentLoop(log, 1, budget, audit, env);
    while end.NeedsApproval? && decided(end.step)
      invariant Disciplined(log, budget)
      invariant end.NeedsApproval? ==> end.step == LastStep(log)
      invariant (forall n :: env(n).Steady()) ==>
        SampledAnswered(log) && (end.NeedsApproval? ==> AnsweredBut(log, end.call))
      decreases budget.maxSteps - LastStep(log), end.NeedsApproval?
    {
      ReceiptAnswers(log, budget, end.call);
      log := log + [Resulted(end.call)];
      log, end := RunAgentLoop(log, end.step + 1, budget, audit, env);
    }
  }
}
