# Hermetrix agent core: verified model

Hermetrix keeps a language-model agent honest on a small machine: it compiles a long session into a fixed context
window, runs turns that survive crashes and owner stops, executes effects at most once, and hands results to a platform
over an unreliable channel. This project models that core in Dafny and proves what each part promises.

| Part | Modules |
|---|---|
| Context compiler | `ContextTypes`, `Preparation`, `Selection`, `Checkpoint`, `CheckpointEvidence`, `Excerpts`, `Integrity`, `Compiler`, `CompilerTheorems`, `MarkerQuotes`, `CompilerConditions`, `TokenRuler` |
| Durable turn machine | `TurnStore` (tables and transactions), `TurnStops`, `TurnClaims`, `TurnQueue`, `TurnRetries`, `TurnOutcomes`, `TurnRuns`, `TurnHistory`, `TurnService` |
| Agent loop | `AgentLoop` |
| Managed-agent delivery | `Utf16Order`, `JsonValue`, `JsonReader`, `CanonicalJson`, `JsonWriter`, `Outbox`, `OutboxDelivery`, `OutboxScenario`, `OutboxService` |
| Blob garbage collection | `GarbageCollection` |
| Evidence paging and fences | `EvidencePages`, `FenceMarkers` |
| Shared | `Wrappers`, `Text`, `Sums`, `Multisets`, `Listings`, `StableSort`, `LexOrder` |

How the model reads the code:

- A stage of the compiler is a function with its properties proved beside it; the source's loops are methods proved to
  compute that function (`Run...`, `Compile`). The token estimator is any non-negative function of the text, fixed for
  one compile; `TokenRuler` shows that the provider's ruler is one. The deduplication hash is its own input.
- Each SQL transaction of the turn machine is a guarded step on a record of tables: it returns the new tables or nothing.
  A run is any sequence of steps, with a crash allowed before every one, also inside a recovery. Volatile state
  (registered executions, approvals that passed the checks before a claim, the row being drained) is lost in a crash.
  Where the source reads before it writes, the read and the write are separate steps, or the guard is dropped, so the
  model has at least the behaviours of the code; the two reads before a decision are one step, since an approval that
  stops being pending between them fails its claim. Turn and approval IDs are fresh. `TurnService` is the object itself: every
  request requires and keeps the invariants of the runs and takes one step, and each handler names the lines it models;
  what those steps amount to is stated by the theorems about runs.
- Reading the clock, waiting, models, tools and the network are parameters: the reply of the model, the fate of a call,
  the failures of a rename, the answer of a transport, the verdict on an interrupted write.
- JSON is read and written over characters; UTF-8 and SHA-256 are taken as injective.

Where a promise does not hold of the code, the exact condition under which it does is proved, with a run that shows the
rest:

- Deduplication ignores pins. A key keeps a pinned representative exactly if the first copy that no later copy replaces
  is pinned (`PinnedKeptExactly`, `PinnedCopyLost`); replacing is not transitive, so the survivor can be older and of
  lower priority than an earlier copy (`EarlierCopyDominates`).
- An acknowledged outbox row is marked so unless a failure of it took effect later (`MarkedUnlessFailedSince`,
  `AckedRowMarkedFailed`). A delivery is safe exactly if each run has at most one due row (`MarksSafeExactly`); the
  observation that fills the outbox today writes one row a run.
- A stop under review blocks its session exactly if the session still names the turn (`ReviewBlocksExactly`,
  `ReviewWithoutBlock`).
- The final window guard of a compile is unreachable exactly for a message overhead that is not negative
  (`OverheadExactly`).
- A garbage collection whose move, rollback and record all fail leaves a run that no call accepts (`StrandsExactly`,
  `StrandOne`).

Check the project with `dafny verify dfyconfig.toml`. Rows that begin with "Step" are read off one definition; they are
listed because other rows rest on them.

## Model

| member | source | states |
|---|---|---|
| Compiler.Compile | internal/context/compiler.go:47-199 | the whole compile, every loop run, returns exactly what the staged specification says, errors included |
| CompilerTheorems.LateGuards | internal/context/compiler.go:100-185 | for every request, estimator, spiller and compactor: the dropped-pinned, ledger and pinned-retention guards never fire; the final window overflow never fires when the measured per-message overhead is not negative; the other two fire only for a compactor that exceeds its target, splits a pair or borrows a source ID |
| CompilerConditions.OverheadExactly | internal/context/compiler.go:171-185 | the final window guard is unreachable for a measured overhead exactly if that overhead is not negative: for every negative one there is a request only this guard stops |
| CompilerConditions.PlainRequestCompiles | internal/context/compiler.go:47-199 | the deployed compiler on a request its caller can check (unique plain IDs, pairs of tool kinds, no half-blank pair, no text that reads like a marker, no blank tool result to spill), with a spiller whose references and checksums do not read like markers: whatever the primary compactor answers, the compile succeeds exactly when the early checks pass |
| MarkerQuotes.ExcerptContains | internal/context/compactor.go:225-267 | shortening a text cannot make a part appear that has no space, so an unquoted text stays unquoted |
| MarkerQuotes.ReceiptContains | internal/context/compiler.go:201-233 | the receipt of a spilled result contains a marker head only if its reference, its checksum or the compacted result does |
| CompilerTheorems.DeployedCompileSucceeds | internal/context/compiler.go:47-199 | the same for any request whose dropped history the extractive fallback can quote, a condition on the selection inside the compile |
| CompilerTheorems.CompiledIsWellReported | internal/context/compiler.go:140-199 | a compiled prompt is in canonical order, accounts for every token, keeps every pin, and its pair counts add up |
| CompilerTheorems.WindowHolds | internal/context/compiler.go:95-180 | predicted prompt, tool burst and both reserves fit the window, and the slice budgets sum to the input budget |
| CompilerTheorems.MessagesDoNotGrow | internal/context/compiler.go:499-516 | replacing dropped history by a checkpoint never adds a message: the extra one is paid for by a dropped fragment |
| CompilerTheorems.LedgerBalances | internal/context/compiler.go:460-481 | original = deduplicated + spilled + selected (less the checkpoint) + dropped, and both side checks hold |
| CompilerTheorems.FragmentsPartition | internal/context/compiler.go:140-158 | every prepared fragment is selected or dropped exactly once; the checkpoint is the only addition |
| CompilerTheorems.IntegrityHolds | internal/context/compiler.go:364-414 | with unique IDs and tool-kind pairs, no pair is split between selected, compacted and omitted, and every pin is kept |
| CompilerTheorems.PinnedRetained | internal/context/compiler.go:364-413 | every pinned fragment and user goal that survives deduplication is selected, with no assumption at all |
| CompilerTheorems.PlanIsSound | internal/context/compiler.go:80-121 | pinned fragments always fit their slice, and every budget of a plan is what its slices use |
| CompilerTheorems.PrepareWellPaired | internal/context/compiler.go:73-80 | deduplication, pin propagation and spilling keep IDs unique, pairs of tool kinds, and the members of a pair pinned alike |
| CompilerTheorems.PreparedIds | internal/context/compiler.go:201-233 | preparation invents no ID |
| Preparation.RunDeduplicate | internal/context/compiler.go:318-346 | the deduplication loop computes the specified survivors |
| Preparation.DeduplicateRepresents | internal/context/compiler.go:318-346 | each key keeps exactly one representative and nothing is invented |
| Preparation.SurvivesExactly | internal/context/compiler.go:318-346 | for lists of any length, over the copies alone: a copy represents its key exactly if no later copy replaces it and every earlier one is replaced by some later copy |
| Preparation.PinnedKeptExactly | internal/context/compiler.go:323-333 | a key keeps a pinned representative exactly if the first copy that no later copy replaces is pinned |
| Preparation.DominantPinKept | internal/context/compiler.go:323-333 | so a pinned copy that replaces every earlier copy and that no later copy replaces is always kept |
| Preparation.PinnedCopyLost | internal/context/compiler.go:323-333 | a list in which the only pinned copy gives way to one that is not pinned |
| Preparation.EarlierCopyDominates | internal/context/compiler.go:329-333 | replacing is not transitive: a list whose survivor is older and of lower priority than an earlier copy |
| Preparation.DeduplicateNothing | internal/context/compiler.go:460-476 | when no fragment was removed the list is unchanged: the witness of the ledger is honest |
| Preparation.DeduplicateIdempotent | internal/context/compiler.go:318-346 | deduplicating twice is deduplicating once |
| Preparation.RunPropagatePairPins | internal/context/compiler.go:348-362 | the two loops compute the specified pins |
| Preparation.PinsUniform | internal/context/compiler.go:348-362 | Step: afterwards the members of a pair are pinned together or not at all |
| Preparation.RunSpillLargeTools | internal/context/compiler.go:201-233 | the spill loop, its receipts and both of its errors |
| Preparation.SpillPreserves | internal/context/compiler.go:201-233 | a spilled fragment keeps its place, ID, pair and pin; only an oversized tool result changes, into an artifact receipt |
| Preparation.SpillNothing | internal/context/compiler.go:476-479 | no receipt means no token moved |
| Selection.MakeUnits | internal/context/compiler.go:288-316 | the grouping loops build the specified units |
| Selection.UnitsPartition | internal/context/compiler.go:288-316 | units hold every fragment exactly once |
| Selection.RunSelectWithin | internal/context/compiler.go:235-255 | sorting and the greedy loop select what is specified |
| Selection.SelectPartition | internal/context/compiler.go:235-255 | selected and dropped together are the input |
| Selection.SelectUsed | internal/context/compiler.go:235-255 | the tokens used are those of the selection and never exceed the budget |
| Selection.SelectWhole | internal/context/compiler.go:246-254 | no unit is divided: keys of selected and dropped fragments are disjoint |
| Selection.SelectAll | internal/context/compiler.go:235-255 | a group within its budget is selected whole |
| Selection.SelectRespectsRank | internal/context/compiler.go:235-255 | for any fragments: a unit is selected whole exactly if it fits beside the selected units before it in rank order, dropped whole otherwise, and nothing dropped would still fit at the end |
| Selection.RankOrderSorted | internal/context/compiler.go:288-316 | rank order is by priority, then time, and units of equal rank stay in the order in which the input first names them |
| Selection.KeptOutranksDropped | internal/context/compiler.go:235-255 | a unit kept although it costs at least as much as a dropped one is not ranked behind it |
| Selection.CanonicalSorted | internal/context/compiler.go:416-445 | the output order is sorted by slice, time and ID, for any input |
| Integrity.EvaluateIntegrity | internal/context/compiler.go:364-414 | succeeds exactly when every pair is whole and every pin kept, and names a pair that is split |
| Integrity.PairsAddUp | internal/context/compiler.go:386-410 | selected, compacted and omitted pairs add up to all pairs |
| Checkpoint.RunStructuredCompact | internal/context/compactor.go:67-199 | the extractive compactor, with its grouping, ranking and filling loops |
| Checkpoint.StructuredFits | internal/context/compactor.go:150-199 | Step: its checkpoint is empty or within the target, preamble included |
| CheckpointEvidence.StructuredPasses | internal/context/compactor.go:67-199 | its checkpoint always passes verification, for sources with plain unique IDs, no quoted marker and no half-blank pair |
| CheckpointEvidence.FallbackContract | internal/context/compactor.go:67-199 | under every budget exactly when no pair mixes a blank with a non-blank member |
| CheckpointEvidence.RenderedMarkers | internal/context/compactor.go:150-199 | a source's marker occurs in the text exactly when that source's line was kept |
| CheckpointEvidence.MarkerInjective | internal/context/compiler.go:391-393 | a marker determines its source ID |
| Checkpoint.VerifyCheckpointEvidence | internal/context/verified_compactor.go:45-83 | accepts exactly the texts whose statements are all cited and which split no pair |
| Checkpoint.RunVerifiedCompact | internal/context/verified_compactor.go:25-43 | the primary when it fits and verifies, otherwise the verified fallback, otherwise an error |
| Checkpoint.VerifiedIsSound | internal/context/verified_compactor.go:25-83 | Step: whatever the primary answers, a successful result fits the target, cites only known sources and splits no pair |
| CheckpointEvidence.VerifiedNeverFails | internal/context/verified_compactor.go:34-42 | the fallback never errors |
| Excerpts.Chunk | internal/embedding/embedding.go:122-141 | every chunk is exactly the slice ChunkSpan names |
| Excerpts.PassageInOneChunk | internal/embedding/embedding.go:108-175 | any passage of at most the overlap lies whole in one chunk |
| Excerpts.HintKeepsPassage | internal/context/compactor.go:225-267 | the window keeps the hinted passage whole when it fits, and otherwise is exactly its first runes |
| Excerpts.ChunkSurvivesExcerpt | internal/context/compactor.go:225-267 | the text of a chunk that matched appears in the excerpt, up to the limit |
| TokenRuler.HeuristicParts | internal/context/estimator.go:64-79 | the counting loop |
| TokenRuler.CountIsRuler | internal/context/estimator.go:134-150 | never negative, and zero exactly for the empty text, whatever was measured |
| TokenRuler.CountGrows | internal/context/estimator.go:134-150 | more text never measures less |
| TurnRuns.Reachable | internal/agent/service.go:750-855 | leases, decisions, stops, keys, queue rows and allowances hold in every state reachable by any interleaving of transactions, crashes and recoveries |
| TurnRuns.OnceInEveryRun | internal/agent/service.go:1984-2044 | in every reachable log no approval is decided twice, and no idempotency key, queued message or outcome opens two turns |
| TurnHistory.EndsOnceInEveryRun | internal/agent/service.go:2745-2880 | in every run, restarts included, a turn is opened once, has at most one recorded outcome, and that one comes after its opening in its session |
| TurnHistory.ReceiptOnceInEveryRun | internal/agent/service.go:2046-2104 | in every run the receipt of an approved call is recorded at most once, although recovery may make its approval pending again |
| TurnHistory.SettledForGood | internal/agent/service.go:2151-2266 | an approval that was decided and is no longer in flight never is again |
| TurnRuns.SteersWaitForStop | internal/agent/message_queue.go:136-182 | whenever, in any run, a queued change of direction opens a turn, the stop of the turn it turns away from is confirmed at that moment and that turn is over |
| TurnClaims.KeepsClaims | internal/agent/service.go:2151-2266 | an approval that recovery makes pending again can never be claimed: its turn is stopped or never the checked active turn again |
| TurnClaims.ClaimClaims | internal/agent/service.go:2012-2025 | a claim that commits is the first for its approval |
| TurnStops.KeepsStops | internal/agent/turn_control.go:207-326 | idle means no turn; a blocked session names a turn under review; a finally stopped turn holds no lease and has no open, running or uncertain approval |
| TurnRuns.TurnsNeverOverlap | internal/agent/service.go:792-804 | once another turn of the session is live, the first is over for good |
| TurnRuns.EndedForGood | internal/agent/service.go:2257-2316 | a turn that is no longer running or waiting never is again |
| TurnRuns.StopIsHonoured | internal/agent/turn_control.go:119-169 | from the stop row on, no approval of the turn is decided and no completion of it commits, and the row only moves from stopping to review or stopped |
| TurnRuns.HeldUntilConfirmed | internal/agent/turn_control.go:20-40 | a blocked session is released only by a confirmed stop of the turn it names |
| TurnRuns.BlockedThroughRestart | internal/agent/turn_control.go:20-40 | and stays blocked over every run without one, restarts included |
| TurnRuns.ReviewBlocksExactly | internal/agent/turn_control.go:207-326 | Step: a stop that ends under review blocks its session exactly if the session still names the turn when it ends |
| TurnRuns.ReviewWithoutBlock | internal/agent/service.go:3145-3179 | from every reachable state that runs a turn nobody stopped, a run goes on through blockContinuation to a stop under review with an idle session |
| TurnRuns.RunningReachable | internal/agent/service.go:750-855 | and such a state is reached |
| TurnQueue.KeepsQueue | internal/agent/message_queue.go:136-182 | a queue row or key commits at most one turn, and a steer only after its base turn is confirmed stopped |
| TurnQueue.OneTurnEach | internal/agent/message_queue.go:136-182 | read off any such log: no row and no outcome opens two turns |
| TurnRetries.KeepsRetries | internal/agent/retry.go:28-47 | automatic turns since the last other turn, plus one claimed and unspent, never exceed the attempts, and those never exceed the maximum |
| TurnRuns.BurstsInEveryRun | internal/agent/retry.go:13-15 | at every moment of every run at most the maximum number of automatic turns has opened since the last other one |
| TurnRuns.PausedForGood | internal/agent/retry.go:77-89 | a paused schedule is never revived, restarts included |
| TurnOutcomes.AdoptionSchedules | internal/agent/retry.go:75-89 | Step: a restart schedules every unfinished outcome an idle session ended with, unless paused or switched off |
| TurnOutcomes.RestartIsClean | cmd/hermetrix/main.go:311-334 | after a crash at any point and the recoveries in order, nothing is left running, in flight, dequeued, claimed or stopping |
| TurnService.Service.AcquireTurn | internal/agent/service.go:750-855 | one step of the machine that keeps every invariant of its runs, or nothing; after it the turn holds the lease, is the latest outcome of its session, nothing of other sessions changed, and its key or row cannot open another turn |
| TurnService.Service.CompleteTurn | internal/agent/service.go:2745-2811 | likewise; after it the session is free, the queue rows of the turn are settled, its schedule decided, and nothing else changed |
| TurnService.Service.FailTurn | internal/agent/service.go:2813-2880 | likewise; the outcome is scheduled unless that is switched off, paused or used up |
| TurnService.Service.CreateToolApproval | internal/agent/service.go:1716-1764 | likewise; the turn waits under a fresh approval, and a call that needs no human can be decided at once exactly if nobody stopped the turn |
| TurnService.Service.ClaimApprovalDecision | internal/agent/service.go:1984-2044 | likewise; a decision that commits is the first the log has of its approval, which it then has |
| TurnService.Service.PersistApprovalReceipt | internal/agent/service.go:2046-2104 | likewise; the turn runs again, the approval is settled, only that turn was touched, and the same receipt is refused now |
| TurnService.Service.FinishStoppedTurn | internal/agent/turn_control.go:207-326 | likewise, counting the unresolved effects in a loop; the stop is final exactly if confirmed and none is unresolved, no approval of the turn is left open, its rows are settled and its lease is released or blocked |
| TurnService.Service.ClaimDueRetry | internal/agent/retry.go:94-115 | likewise; a continuation it claims is one the allowance since the last turn of the owner still covers |
| TurnService.Service.RecoverInterruptedApprovals | internal/agent/service.go:2151-2266 | the loop over interrupted effects is one specified step |
| TurnService.Service.RecoverInterruptedTurns | internal/agent/service.go:2270-2333 | the loop over running sessions is a run of single transactions that leaves none running |
| TurnService.Service.RecoverTurnControls | internal/agent/turn_control.go:20-40 | each session under review is blocked on a latest request |
| TurnService.Service.Startup | cmd/hermetrix/main.go:311-334 | from any tables that keep the invariants, the recoveries in their order are one run of the machine that ends serving, keeps every invariant, and leaves nothing running, in flight, dequeued, claimed or stopping |
| AgentLoop.RunTurn | internal/agent/service.go:912-1329 | over any number of pauses: the tool budget, strictly increasing steps within the step budget, no third identical call that is not a poll, and with stable requirements the model is sampled only when every call has exactly one result |
| AgentLoop.RunAgentLoop | internal/agent/service.go:912-1329 | the same for one stretch from a given step, with counters rebuilt from the log |
| AgentLoop.TurnToolCallStats | internal/agent/service.go:1331-1352 | the rebuilt counters are those of the log, polls included |
| AgentLoop.CountSignatures | internal/agent/service.go:1220-1246 | stops exactly when some call that is not a poll would be the third of its kind |
| AgentLoop.ExecuteToolCalls | internal/agent/service.go:1423-1634 | every recorded call gets one result unless the turn breaks; a pause leaves exactly one call open if and only if it happens where the preflight cut the batch |
| AgentLoop.StablePausesAtCut | internal/agent/service.go:1433-1449 | which it always does when the requirements do not change between preflight and dispatch |
| AgentLoop.RecordCalls | internal/agent/service.go:1450-1473 | every call is recorded in model order under its step before anything is dispatched |
| AgentLoop.DispatchCalls | internal/agent/service.go:1490-1634 | results in model order up to the pause or the break |
| AgentLoop.DeferCalls | internal/agent/service.go:1478-1489 | later calls are answered as deferred before the pause |
| AgentLoop.ReceiptAnswers | internal/agent/service.go:2046-2104 | the receipt of the approved call completes the results, so the resumed turn may sample again |
| CanonicalJson.RoundTrip | internal/agentplatform/canonical.go:21-42 | reading the written text gives back the value, with -0 as 0 |
| CanonicalJson.CanonicalIsStable | internal/agentplatform/canonical.go:21-42 | canonical text is its own canonical text |
| CanonicalJson.SameTextSameValue | internal/agentplatform/canonical.go:21-42 | two texts have equal canonical text exactly when their values are equal, whatever their member order |
| CanonicalJson.DigestIdentifies | internal/agentplatform/canonical.go:212-219 | so a digest without collisions identifies the value |
| CanonicalJson.ReadWrite | internal/agentplatform/canonical.go:96-146 | the writer is unambiguous: whatever follows a written value, the reader takes exactly that value |
| CanonicalJson.CharsRead | internal/agentplatform/canonical.go:182-210 | every written string reads back, escapes included |
| CanonicalJson.NumberRead | internal/agentplatform/canonical.go:148-170 | every accepted integer reads back as itself |
| Utf16Order.StrictTotal | internal/agentplatform/canonical.go:172-180 | utf16Less is a strict total order |
| Utf16Order.CompareUtf16 | internal/agentplatform/canonical.go:172-180 | the comparison loop decides that order |
| Utf16Order.ListingUnique | internal/agentplatform/canonical.go:124-128 | a set of names has one sorted listing, so iteration order cannot show |
| JsonWriter.WriteCanonical | internal/agentplatform/canonical.go:96-146 | appends exactly the canonical text, and fails exactly on a number outside the contract |
| JsonWriter.WriteJSONString | internal/agentplatform/canonical.go:182-210 | appends exactly the quoted string |
| JsonWriter.SortedNames | internal/agentplatform/canonical.go:124-128 | the names in canonical order, from any iteration order |
| JsonWriter.CanonicalizeJSON | internal/agentplatform/canonical.go:21-42 | the whole function, errors included |
| Outbox.AckSafety | internal/agentplatform/outbox.go:112-143 | in every history with lost, repeated and stale acknowledgements, everything up to the acknowledged sequence was received |
| Outbox.HistoryKeeps | internal/agentplatform/outbox.go:23-143 | over every history: rows are exactly the sequences given out, 0 <= acked < next, a row marked acked is acknowledged, acknowledgements are honest |
| Outbox.RunKeeps | internal/agentplatform/outbox.go:92-143 | sequences and acknowledgements never go back and the bytes of a row never change |
| Outbox.ObserveKeeps | internal/agentplatform/observe.go:114-151 | the next sequence is always free, and taking it keeps all of this |
| Outbox.HonestAckAccepted | internal/agentplatform/outbox.go:127-129 | an acknowledgement the receiver issued is never ahead of the stream, however late |
| Outbox.StaleAckIgnored | internal/agentplatform/outbox.go:130-132 | and once applied, older ones change nothing |
| Outbox.MarkedUnlessFailedSince | internal/agentplatform/outbox.go:105-142 | in every history, a row at or below the acknowledged sequence is marked acked exactly if no failure of it took effect since the last acknowledgement that covered it |
| OutboxDelivery.MarksSafeExactly | internal/agentplatform/outbox.go:23-142 | a delivery leaves every acknowledged row marked whatever the transport answers, exactly if each run has at most one due row |
| OutboxScenario.AckedRowMarkedFailed | internal/agentplatform/outbox.go:23-142 | two deliveries from their own snapshots, as one history of the empty world, after which an acknowledged row is marked failed |
| OutboxDelivery.PassOutcome | internal/agentplatform/outbox.go:47-76 | a delivery attempts every due row once, or ends on an acknowledgement ahead of its stream |
| OutboxService.Service.ObserveInitial | internal/agentplatform/observe.go:108-155 | one step that keeps the sender invariants, refused only for an unknown run: the sequence it takes is always free |
| OutboxService.Service.ApplyACK | internal/agentplatform/outbox.go:112-143 | one step that keeps the sender invariants and leaves every acknowledged row marked; afterwards the same or an older acknowledgement changes nothing |
| OutboxService.Service.DeliverPending | internal/agentplatform/outbox.go:23-90 | hands the transport the stored bytes of the due rows, each once, by run and sequence, up to the transmission whose acknowledgement was refused; the result counts those attempts, the highest acknowledgement, and the rows still pending and exhausted; the whole call is a run of the sender |
| GarbageCollection.Collector.ApplyGC | internal/curator/maintenance.go:124-198 | the outcome in terms of the state before and the faults alone: refused exactly if not planned, stale exactly if the snapshot changed, otherwise done exactly if every move and the commit succeed, and then what the snapshot leaves unreachable has moved; a failed run keeps exactly the moved blobs its rollback could not restore; nothing is lost or doubled |
| GarbageCollection.Collector.RestoreGC | internal/curator/maintenance.go:200-228 | also when quarantined content was stored again: restores exactly the candidates up to the first that cannot come back, succeeds exactly if all can and the commit does, and then the whole is active and only the copies of what was stored again stay quarantined |
| GarbageCollection.StrandsExactly | internal/curator/maintenance.go:149-197 | a planned run ends stranded (applying, with blobs in quarantine) exactly if the snapshot is fresh and a move or the commit, the rollback of a blob moved before, and the record all fail: a condition on the state before and the faults |
| GarbageCollection.StrandOne | internal/curator/maintenance.go:149-197 | a store with one unreferenced blob and failing commit, restore and record ends stranded, and both calls refuse it |
| GarbageCollection.RefuseStranded | internal/curator/maintenance.go:124-228 | neither call accepts a stranded run, and both leave it as it is |
| GarbageCollection.Collector.RollBack | internal/curator/maintenance.go:152-164 | leaves in quarantine exactly the moved blobs that are corrupt or cannot be renamed |
| GarbageCollection.Collector.QuarantineAll | internal/curator/maintenance.go:149-169 | after any prefix of moves, each blob is in exactly one place |
| GarbageCollection.ApplyThenRestore | internal/curator/maintenance.go:124-228 | without failures an unchanged store is collected and restored to what it was, and a changed one is answered stale |
| GarbageCollection.ApplyStoreRestore | internal/curator/maintenance.go:124-228 | the same with anything stored in between, quarantined content included: all that was active and what was stored are active again |
| GarbageCollection.MoveThenRestore | internal/blob/store.go:224-274 | restoring undoes a move of an intact blob |
| GarbageCollection.PutCovers | internal/blob/store.go:39-82 | Step: storing content, quarantined or not, loses nothing and leaves both places agreeing on its bytes |
| GarbageCollection.Collector.ListCandidates | internal/curator/maintenance.go:257-286 | the blobs no row mentions, sorted by reference |
| GarbageCollection.ListsUnique | internal/blob/store.go:188-220 | a set of references has one sorted list, so the candidates are determined by the snapshot |
| EvidencePages.ReadEvidence | internal/agent/evidence_tools.go:95-185 | a page is the slice it claims, advances while text is left, was measured to fit, and each error has its exact cause |
| EvidencePages.LargestFitting | internal/agent/evidence_tools.go:160-175 | keeps only measured lengths, and with a monotone ruler finds the largest that fits |
| EvidencePages.PagesReconstruct | internal/agent/evidence_tools.go:147-185 | following next_offset gives back the text with no gap and no repeat |
| EvidencePages.PagesEnd | internal/agent/evidence_tools.go:147-185 | and ends |
| EvidencePages.SavedPage | internal/agent/contextsearch.go:248-253 | a saved page is the slice it claims and advances |
| EvidencePages.ShrinkPage | internal/agent/notebook.go:77-105 | halving a page keeps its offsets and its has_more honest, and ends fitting or short |
| EvidencePages.ShrunkPageFollows | internal/agent/notebook.go:77-105 | the next read starts where the shown text ends |
| EvidencePages.FitNotebook | internal/agent/notebook.go:237-252 | the notebook is returned whole if it fits, and otherwise cut to a measured length or reduced to the mark; under a monotone ruler the cut is the longest that fits |
| FenceMarkers.StrippedIsFree | internal/agent/browsertool.go:251-273 | the stripped text contains neither marker, for every input |
| FenceMarkers.StripIdentity | internal/agent/browsertool.go:270-273 | exactly the texts without a marker are unchanged |
| FenceMarkers.StripIdempotent | internal/agent/browsertool.go:270-273 | stripping twice is stripping once |
| FenceMarkers.DeletionSplices | internal/agent/browsertool.go:256-268 | deleting instead could splice a new marker together |

## Left out

- Provider streaming, HTTP, CLI, desktop and browser drivers, MCP, Discord and embedding endpoints: I/O around libraries.
- Signatures, digests and schema validation of envelopes: an acknowledgement is authentic or it is not; the hash has no collisions.
- Which extract of a fragment is relevant (trigram windows, cosine, focus words): parameters of the compactor, so the theorems hold for any choice. Semantic hints are measured on the event text while the excerpt cuts the compacted text; the model takes a hint as given.
- CompilerTheorems.LateGuards: the window part assumes a measured message overhead that is not negative, which the provider measurement enforces and the compiler itself does not check; `OverheadExactly` shows the condition is exact.
- CompilerConditions.PlainRequestCompiles: a text that quotes a marker head, or a blank tool result that is spilled, is covered only by `DeployedCompileSucceeds`; compactor IDs must not be source IDs.
- CompilerTheorems.DeployedCompileSucceeds: assumes source IDs without brackets or line breaks, no extract that quotes another source's marker, no pair with one blank member, and compactor IDs that are not source IDs; `FallbackContract` shows the pair condition is exact.
- Compiler.Compile: the compression ratio, the warnings and the error texts are not modelled, and a spilled fragment gets its own metadata map where the source writes into a map the caller may share.
- Integrity.EvaluateIntegrity: which of several split pairs is named is left open, because the source ranges over a map; the essential-retention ratio is left out.
- Checkpoint.RunStructuredCompact: invalid UTF-8 and the normalisation of Unicode are not modelled; text is a sequence of characters.
- TokenRuler.CountGrows: over real numbers; the rounding of floating point and the adaptive estimator, whose multiplier moves, are not modelled.
- TurnRuns.Reachable: contract revision, cache epoch, provider and owner checks only refuse more steps and are left out; so are due times, idempotent replays of the same request, session deletion and the audit events that only document a step.
- TurnHistory.ReceiptOnceInEveryRun: the receipt of a denied call keeps its approval denied, so the guard alone admits it again while the turn waits; only the caller that claimed the denial records it, which the model does not tie together.
- TurnService.Service.QueueMessage: the idempotency key of a queued message is not modelled.
- TurnService.Service.RecoverInterruptedTurns: the join with provider profiles is left out; every running session is closed.
- TurnRuns.BlockedThroughRestart: a stop under review need not imply a blocked session (`BlockEscapesReview`), so the claim starts from a blocked one.
- AgentLoop.RunAgentLoop: the ends of an audit by its report or by three progress notes, token accounting and the final summary are one way of ending the stretch; what the summary says is not modelled.
- AgentLoop.ExecuteToolCalls: without stable approval requirements a pause can leave earlier calls open; the exact condition is part of the contract.
- JsonReader: numbers keep their token and texts their characters; the nesting limit of the decoder is left out, and so is the byte order mark.
- OutboxService.Service.DeliverPending: observation keys and the projection artifact of an observation are left out.
- GarbageCollection.Collector.ApplyGC: a crash in the middle of a run and references that appear after the snapshot are outside what the code covers; snapshots are compared as they are, not by digest.
- EvidencePages.ReadEvidence: the encoding of the receipt is inside the ruler, and which section of a receipt is read is a parameter.
- FenceMarkers.StrippedIsFree: about each stripped field; the receipt that joins fields is not modelled.
- The profile table, per-session command caps, automation schedules, metrics and sampling counters: they would only add easy members.
