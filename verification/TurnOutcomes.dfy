/** What single commits leave behind, and the state every restart reaches before it serves again. */
module TurnOutcomes {
  import opened Wrappers
  import opened TurnStore

  // ---- Commits ----

  /** Nothing of a turn is left waiting in the queue. */
  predicate RowsSettled(queue: map<Id, QueueRow>, turn: Id) {
    forall q | q in queue && queue[q].turn == turn :: queue[q].state != RowRunning && queue[q].state != RowAwaiting
  }

  /** Rows of other turns are as they were. */
  predicate OtherRowsSame(before: map<Id, QueueRow>, after: map<Id, QueueRow>, turn: Id) {
    after.Keys == before.Keys && forall q | q in before && before[q].turn != turn :: after[q] == before[q]
  }

  /** Only one session, and only approvals of one turn, were touched. */
  predicate OthersUntouched(db: Db, after: Db, session: Id, turn: Id) {
    && (forall s | s in db.sessions && s != session :: s in after.sessions && after.sessions[s] == db.sessions[s])
    && (forall a | a in db.approvals && db.approvals[a].turn != turn ::
          a in after.approvals && after.approvals[a] == db.approvals[a])
    && (forall s | s in db.retries && s != session :: s in after.retries && after.retries[s] == db.retries[s])
    && (forall t | t in db.controls && t != turn :: t in after.controls && after.controls[t] == db.controls[t])
  }

  lemma LatestIsAppended(log: seq<Event>, e: Event)
    requires !e.Decided?
    ensures LatestOutcome(log + [e], e.session) == Some(e)
  {
    assert (log + [e])[..|log|] == log;
  }

  /** An opened turn holds the lease, is the session's latest outcome, and has used up its key and its queue row. */
  ghost predicate OpenedAs(db: Db, after: Db, session: Id, turn: Id, entry: Entry, event: Id) {
    && Holds(after, session, turn, Running) && LatestOutcome(after.log, session) == Some(TurnOpened(session, event, turn, entry))
    && (session in after.retries ==> after.retries[session].state in {RetryCancelled, RetryPaused})
    && OthersUntouched(db, after, session, turn)
    && Acquire(after, session, turn, entry, event) == None
    && forall other, id ::
         entry.Key() != "" || entry.FromQueue? ==> Acquire(Released(after, session), session, other, entry, id) == None
  }

  lemma OpeningCommits(db: Db, session: Id, turn: Id, entry: Entry, event: Id)
    requires Acquire(db, session, turn, entry, event).Some?
    ensures OpenedAs(db, Acquire(db, session, turn, entry, event).value, session, turn, entry, event)
  {
    LatestIsAppended(db.log, TurnOpened(session, event, turn, entry));
  }

  /** A completed turn freed its session, settled its rows, and decided what happens next in one commit. */
  predicate CompletedAs(db: Db, after: Db, session: Id, turn: Id, event: Id, unfinished: bool) {
    && Holds(after, session, "", Idle) && LatestOutcome(after.log, session) == Some(Answered(session, event, turn, unfinished))
    && RowsSettled(after.queue, turn) && OtherRowsSame(db.queue, after.queue, turn)
    && OthersUntouched(db, after, session, turn)
    && (!unfinished && session in after.retries ==> after.retries[session].state in {RetryCompleted, RetryPaused})
  }

  lemma CompletionCommits(db: Db, session: Id, turn: Id, event: Id, unfinished: bool)
    requires Complete(db, session, turn, event, unfinished).Some?
    ensures CompletedAs(db, Complete(db, session, turn, event, unfinished).value, session, turn, event, unfinished)
  {
    LatestIsAppended(db.log, Answered(session, event, turn, unfinished));
  }

  /** So did a failed one; its outcome is scheduled unless that is off, paused or used up. */
  predicate FailedAs(db: Db, after: Db, session: Id, turn: Id, event: Id) {
    && Holds(after, session, "", Idle) && LatestOutcome(after.log, session) == Some(TurnFailed(session, event, turn))
    && RowsSettled(after.queue, turn) && OtherRowsSame(db.queue, after.queue, turn)
    && OthersUntouched(db, after, session, turn)
    && session in db.sessions
    && (db.sessions[session].retryDisabled ==> after.retries == db.retries)
    && (!db.sessions[session].retryDisabled ==>
          && session in after.retries
          && (after.retries[session].state == RetryPending ==>
                after.retries[session].source == event && after.retries[session].attempts < MAX_ATTEMPTS)
          && (after.retries[session].state in {RetryPending, RetryPaused}))
  }

  lemma FailureCommits(db: Db, session: Id, turn: Id, event: Id)
    requires Fail(db, session, turn, event).Some?
    ensures FailedAs(db, Fail(db, session, turn, event).value, session, turn, event)
  {
    LatestIsAppended(db.log, TurnFailed(session, event, turn));
  }

  /** A paused call holds the turn; one that needs no human can be decided at once, unless the turn was stopped. */
  predicate PausedAs(db: Db, after: Db, approval: Id, session: Id, turn: Id, authorized: bool) {
    && approval !in db.approvals && Holds(after, session, turn, AwaitingApproval)
    && OthersUntouched(db, after, session, turn)
    && (authorized ==>
          ClaimableAs(db, after, approval, session, turn, true) && ClaimableAs(db, after, approval, session, turn, false))
  }

  predicate ClaimableAs(db: Db, paused: Db, approval: Id, session: Id, turn: Id, approve: bool) {
    var claimed := Claim(paused, approval, approve, false);
    && (claimed.Some? <==> turn !in db.controls)
    && (claimed.Some? ==>
          && Holds(claimed.value, session, turn, AwaitingApproval) && approval in claimed.value.approvals
          && claimed.value.approvals[approval] == Approval(session, turn, if approve then Executing else Denied))
  }

  lemma PauseCommits(db: Db, approval: Id, session: Id, turn: Id, authorized: bool)
    requires CreateApproval(db, approval, session, turn, authorized).Some?
    ensures PausedAs(db, CreateApproval(db, approval, session, turn, authorized).value, approval, session, turn, authorized)
  {
  }

  /** A receipt gives the turn back, and cannot be recorded again right away. */
  predicate ReceivedAs(db: Db, after: Db, approval: Id, approve: bool, receipt: Receipt) {
    && approval in db.approvals && approval in after.approvals
    && var a := db.approvals[approval];
       && Holds(after, a.session, a.turn, Running) && after.approvals[approval].state !in {Pending, Executing}
       && OthersUntouched(db, after, a.session, a.turn)
       && PersistReceipt(after, approval, approve, receipt) == None
  }

  lemma ReceiptCommits(db: Db, approval: Id, approve: bool, receipt: Receipt)
    requires approval in db.approvals && db.approvals[approval].state == (if approve then Executing else Denied)
    ensures
      var a, settled := db.approvals[approval], PersistReceipt(db, approval, approve, receipt);
      && (settled.Some? <==> Holds(db, a.session, a.turn, AwaitingApproval))
      && (settled.Some? ==> ReceivedAs(db, settled.value, approval, approve, receipt))
  {
  }

  /** A stop that ends takes every open approval and queue row of the turn with it, and the lease if it held one. */
  predicate StoppedAs(db: Db, after: Db, turn: Id, confirmed: bool) {
    && turn in db.controls && turn in after.controls && db.controls[turn].session in db.sessions
    && var session := db.controls[turn].session;
       && (after.controls[turn].state == Stopped <==>
             confirmed && !exists a | a in db.approvals :: Unresolved(db.approvals[a], turn))
       && (forall a | a in after.approvals && after.approvals[a].turn == turn :: after.approvals[a].state != Pending)
       && RowsSettled(after.queue, turn)
       && (db.sessions[session].activeTurn == turn ==>
             if after.controls[turn].state == Stopped then Holds(after, session, "", Idle)
             else Holds(after, session, turn, ControlBlocked))
       && (db.sessions[session].activeTurn != turn ==> after.sessions == db.sessions)
  }

  lemma StopCommits(db: Db, turn: Id, confirmed: bool)
    requires FinishStop(db, turn, confirmed).Some?
    ensures StoppedAs(db, FinishStop(db, turn, confirmed).value, turn, confirmed)
  {
  }

  // ---- Restart ----

  predicate NoneRunning(db: Db) {
    forall s | s in db.sessions :: db.sessions[s].state != Running
  }

  predicate NoneInFlight(db: Db) {
    forall a | a in db.approvals :: db.approvals[a].state != Executing
  }

  predicate NoneDequeued(db: Db) {
    forall q | q in db.queue :: db.queue[q].state != RowRunning
  }

  predicate NoneRetrying(db: Db) {
    forall s | s in db.retries :: db.retries[s].state != RetryRunning
  }

  predicate NoneStopping(db: Db) {
    forall t | t in db.controls :: db.controls[t].state != Stopping
  }

  /** Nothing that only a live process could finish. */
  predicate Clean(db: Db) {
    NoneRunning(db) && NoneInFlight(db) && NoneDequeued(db) && NoneRetrying(db) && NoneStopping(db)
    && db.executions == {} && db.checked == {} && db.draining == None
  }

  function Progress(phase: Phase): nat {
    match phase
    case QueueRecovery => 0
    case ApprovalRecovery => 1
    case TurnRecovery => 2
    case RetryRecovery => 3
    case OutcomeRecovery => 4
    case ControlRecovery => 5
    case Serving => 6
  }

  /** What the recoveries run so far have cleaned up. */
  predicate CleanSoFar(db: Db) {
    && (Progress(db.phase) >= 1 ==> NoneDequeued(db))
    && (Progress(db.phase) >= 2 ==> NoneInFlight(db))
    && (Progress(db.phase) >= 3 ==> NoneRunning(db))
    && (Progress(db.phase) >= 4 ==> NoneRetrying(db))
    && (Progress(db.phase) >= 6 ==> NoneStopping(db))
    && db.executions == {} && db.checked == {} && db.draining == None
  }

  lemma AdoptionStartsNothing(db: Db)
    requires AdoptOutcomes(db).Some? && NoneRetrying(db)
    ensures NoneRetrying(AdoptOutcomes(db).value)
  {
  }

  /** A restart schedules every unfinished outcome an idle session ended with, unless it is paused or switched off. */
  lemma AdoptionSchedules(db: Db, session: Id)
    requires AdoptOutcomes(db).Some? && session in db.sessions
    ensures
      var after := AdoptOutcomes(db).value.retries;
      && (Continues(db, session) ==>
            && session in after
            && (after[session].state == RetryPaused || after[session].source == LatestOutcome(db.log, session).value.id))
      && (!Continues(db, session) && session in db.retries ==> session in after && after[session] == db.retries[session])
  {
  }

  lemma RecoveryCleans(db: Db, step: Step)
    requires RecoveryStep(step) && Recover(db, step).Some? && CleanSoFar(db)
    ensures CleanSoFar(Recover(db, step).value)
  {
    match step
    case DoRecoverQueue =>
    case DoRecoverApprovals(verdicts) =>
    case DoRecoverTurn(session, event) =>
    case DoTurnsRecovered =>
    case DoRequeueRetries =>
    case DoAdoptOutcomes => AdoptionStartsNothing(db);
    case DoRecoverControls(latest) =>
  }

  lemma {:induction false} RecoveriesClean(db: Db, steps: seq<Step>)
    requires CleanSoFar(db) && (forall i | 0 <= i < |steps| :: RecoveryStep(steps[i])) && Run(db, steps).Some?
    ensures CleanSoFar(Run(db, steps).value)
  {
    if steps != [] {
      var n := |steps| - 1;
      RecoveriesClean(db, steps[..n]);
      RecoveryCleans(Run(db, steps[..n]).value, steps[n]);
    }
  }

  /**
   * However a process died, once the recoveries have run in their order nothing is left half done: no running session,
   * no effect in flight, no dequeued message, no claimed continuation, no unanswered stop.
   */
  lemma {:induction false} RestartIsClean(db: Db, steps: seq<Step>)
    requires forall i | 0 <= i < |steps| :: RecoveryStep(steps[i])
    requires Run(Crash(db).value, steps).Some?
    ensures CleanSoFar(Run(Crash(db).value, steps).value)
    ensures Run(Crash(db).value, steps).value.phase == Serving ==> Clean(Run(Crash(db).value, steps).value)
  {
    RecoveriesClean(Crash(db).value, steps);
  }
}
