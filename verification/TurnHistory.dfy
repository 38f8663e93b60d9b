/** What every log of the machine says of a turn: opened once, ended at most once and only after it was opened. */
module TurnHistory {
  import opened Wrappers
  import opened TurnStore
  import opened TurnStops
  import opened TurnClaims
  import opened TurnQueue
  import opened TurnRuns

  predicate IsOutcome(e: Event) {
    e.Answered? || e.TurnFailed?
  }

  /** The turn was opened in the session by one of the first n events. */
  predicate OpenedIn(log: seq<Event>, n: nat, turn: Id, session: Id)
    requires n <= |log|
  {
    exists i | 0 <= i < n :: log[i].TurnOpened? && log[i].turn == turn && log[i].session == session
  }

  /** A session names the turn and runs it or waits in it. */
  predicate InUse(sessions: map<Id, Session>, turn: Id) {
    exists s | s in sessions :: sessions[s].activeTurn == turn && sessions[s].state in {Running, AwaitingApproval}
  }

  /** Turns are the openings of the log, each in its session. */
  predicate OpeningsKnown(log: seq<Event>, turns: map<Id, Id>) {
    forall i | 0 <= i < |log| && log[i].TurnOpened? :: log[i].turn in turns && turns[log[i].turn] == log[i].session
  }

  predicate TurnsOpened(log: seq<Event>, turns: map<Id, Id>) {
    forall t | t in turns :: OpenedIn(log, |log|, t, turns[t])
  }

  predicate OpenedOnce(log: seq<Event>) {
    forall i, j | 0 <= i < j < |log| && log[i].TurnOpened? && log[j].TurnOpened? :: log[i].turn != log[j].turn
  }

  predicate EndedOnce(log: seq<Event>) {
    forall i, j | 0 <= i < j < |log| && IsOutcome(log[i]) && IsOutcome(log[j]) :: log[i].turn != log[j].turn
  }

  predicate EndsOpened(log: seq<Event>) {
    forall j | 0 <= j < |log| && IsOutcome(log[j]) :: OpenedIn(log, j, log[j].turn, log[j].session)
  }

  /** A turn whose outcome is recorded is not in use. */
  predicate EndedUnused(log: seq<Event>, sessions: map<Id, Session>) {
    forall i | 0 <= i < |log| && IsOutcome(log[i]) :: !InUse(sessions, log[i].turn)
  }

  predicate HistoryInv(db: Db) {
    && OpeningsKnown(db.log, db.turns) && TurnsOpened(db.log, db.turns) && OpenedOnce(db.log)
    && EndedOnce(db.log) && EndsOpened(db.log) && EndedUnused(db.log, db.sessions)
  }

  lemma OpenedMore(log: seq<Event>, e: Event, n: nat, turn: Id, session: Id)
    requires n <= |log| && OpenedIn(log, n, turn, session)
    ensures OpenedIn(log + [e], n, turn, session) && OpenedIn(log + [e], |log| + 1, turn, session)
  {
    var i :| 0 <= i < n && log[i].TurnOpened? && log[i].turn == turn && log[i].session == session;
    assert (log + [e])[i] == log[i];
  }

  lemma TurnsOpenedMore(log: seq<Event>, e: Event, turns: map<Id, Id>)
    requires TurnsOpened(log, turns)
    ensures TurnsOpened(log + [e], turns)
  {
    forall t | t in turns ensures OpenedIn(log + [e], |log| + 1, t, turns[t]) {
      OpenedMore(log, e, |log|, t, turns[t]);
    }
  }

  lemma EndsOpenedMore(log: seq<Event>, e: Event)
    requires EndsOpened(log) && (IsOutcome(e) ==> OpenedIn(log, |log|, e.turn, e.session))
    ensures EndsOpened(log + [e])
  {
    forall j | 0 <= j <= |log| && IsOutcome((log + [e])[j])
      ensures OpenedIn(log + [e], j, (log + [e])[j].turn, (log + [e])[j].session)
    {
      OpenedMore(log, e, j, (log + [e])[j].turn, (log + [e])[j].session);
    }
  }

  // ---- Steps that neither open nor end a turn ----

  predicate SameUse(before: map<Id, Session>, after: map<Id, Session>) {
    forall s | s in after && after[s].state in {Running, AwaitingApproval} ::
      s in before && before[s].activeTurn == after[s].activeTurn && before[s].state in {Running, AwaitingApproval}
  }

  /** At most a decision is logged, and no turn comes into use. */
  predicate Uneventful(db: Db, after: Db) {
    && after.turns == db.turns && SameUse(db.sessions, after.sessions)
    && (after.log == db.log || (|after.log| == |db.log| + 1 && after.log[..|db.log|] == db.log && after.log[|db.log|].Decided?))
  }

  lemma UseStays(before: map<Id, Session>, after: map<Id, Session>, turn: Id)
    requires SameUse(before, after) && InUse(after, turn)
    ensures InUse(before, turn)
  {
    var s :| s in after && after[s].activeTurn == turn && after[s].state in {Running, AwaitingApproval};
    assert s in before;
  }

  lemma UnusedKept(log: seq<Event>, before: map<Id, Session>, after: map<Id, Session>)
    requires EndedUnused(log, before) && SameUse(before, after)
    ensures EndedUnused(log, after)
  {
    forall i | 0 <= i < |log| && IsOutcome(log[i]) ensures !InUse(after, log[i].turn) {
      if InUse(after, log[i].turn) {
        UseStays(before, after, log[i].turn);
      }
    }
  }

  lemma DecisionKeeps(log: seq<Event>, e: Event, turns: map<Id, Id>, sessions: map<Id, Session>)
    requires OpeningsKnown(log, turns) && TurnsOpened(log, turns) && OpenedOnce(log)
    requires EndedOnce(log) && EndsOpened(log) && EndedUnused(log, sessions) && e.Decided?
    ensures OpeningsKnown(log + [e], turns) && TurnsOpened(log + [e], turns) && OpenedOnce(log + [e])
    ensures EndedOnce(log + [e]) && EndsOpened(log + [e]) && EndedUnused(log + [e], sessions)
  {
    TurnsOpenedMore(log, e, turns);
    EndsOpenedMore(log, e);
  }

  lemma UneventfulKeeps(db: Db, after: Db)
    requires HistoryInv(db) && Uneventful(db, after)
    ensures HistoryInv(after)
  {
    UnusedKept(db.log, db.sessions, after.sessions);
    if after.log != db.log {
      assert after.log == db.log + [after.log[|db.log|]];
      DecisionKeeps(db.log, after.log[|db.log|], db.turns, after.sessions);
    }
  }

  lemma TurnUneventful(db: Db, step: Step)
    requires step.DoOpenSession? || step.DoBlock?
    requires ServeTurn(db, step).Some?
    ensures Uneventful(db, ServeTurn(db, step).value)
  {
  }

  lemma ApprovalUneventful(db: Db, step: Step)
    requires ApprovalStep(step) && ServeApproval(db, step).Some?
    ensures Uneventful(db, ServeApproval(db, step).value)
  {
  }

  lemma RecoverUneventful(db: Db, step: Step)
    requires RecoveryStep(step) && !step.DoRecoverTurn? && Recover(db, step).Some?
    ensures Uneventful(db, Recover(db, step).value)
  {
  }

  lemma QueueUneventful(db: Db, step: Step)
    requires QueueStep(step) && ServeQueue(db, step).Some?
    ensures Uneventful(db, ServeQueue(db, step).value)
  {
    QueueClaims(db, step);
  }

  lemma RetryUneventful(db: Db, step: Step)
    requires RetryStep(step) && ServeRetry(db, step).Some?
    ensures Uneventful(db, ServeRetry(db, step).value)
  {
    RetryClaims(db, step);
  }

  lemma VolatileUneventful(db: Db, step: Step)
    requires VolatileStep(step) && ServeVolatile(db, step).Some?
    ensures Uneventful(db, ServeVolatile(db, step).value)
  {
    VolatileLog(db, step);
  }

  // ---- Opening and ending ----

  lemma OpeningKeeps(db: Db, session: Id, turn: Id, entry: Entry, event: Id)
    requires HistoryInv(db) && Acquire(db, session, turn, entry, event).Some?
    ensures HistoryInv(Acquire(db, session, turn, entry, event).value)
  {
    var after := Acquire(db, session, turn, entry, event).value;
    var e := TurnOpened(session, event, turn, entry);
    assert after.log == db.log + [e] && after.turns == db.turns[turn := session];
    TurnsOpenedMore(db.log, e, db.turns);
    assert after.log[|db.log|] == e && OpenedIn(after.log, |after.log|, turn, session);
    EndsOpenedMore(db.log, e);
    OpeningUse(db.log, e, db.turns, db.sessions, after.sessions);
  }

  lemma OpeningUse(
      log: seq<Event>, e: Event, turns: map<Id, Id>, before: map<Id, Session>, after: map<Id, Session>)
    requires OpeningsKnown(log, turns) && EndsOpened(log) && EndedUnused(log, before)
    requires e.TurnOpened? && e.turn !in turns && e.session in before
    requires after == before[e.session := before[e.session].(state := Running, activeTurn := e.turn)]
    ensures EndedUnused(log + [e], after)
  {
    forall i | 0 <= i < |log| && IsOutcome(log[i]) ensures !InUse(after, log[i].turn) {
      assert OpenedIn(log, i, log[i].turn, log[i].session);
      assert log[i].turn in turns;
      assert !InUse(before, log[i].turn);
    }
  }

  /** A running turn ends: its session goes idle and its outcome is logged. */
  predicate Ends(db: Db, after: Db, session: Id, e: Event) {
    && IsOutcome(e) && session in db.sessions && db.sessions[session].state == Running
    && e.session == session && e.turn == db.sessions[session].activeTurn
    && after.log == db.log + [e] && after.turns == db.turns
    && after.sessions == db.sessions[session := db.sessions[session].(state := Idle, activeTurn := "")]
  }

  lemma EndedIsUnused(db: Db, after: Db, session: Id, e: Event)
    requires Leases(db.sessions, db.turns) && HistoryInv(db) && Ends(db, after, session, e)
    ensures EndedUnused(after.log, after.sessions) && EndedOnce(after.log)
  {
    assert InUse(db.sessions, e.turn);
    forall i | 0 <= i < |after.log| && IsOutcome(after.log[i]) ensures !InUse(after.sessions, after.log[i].turn) {
      if i < |db.log| {
        assert !InUse(db.sessions, db.log[i].turn);
      } else {
        assert e.turn in db.turns && db.turns[e.turn] == session;
      }
    }
  }

  lemma EndingKeeps(db: Db, after: Db, session: Id, e: Event)
    requires Leases(db.sessions, db.turns) && HistoryInv(db) && Ends(db, after, session, e)
    ensures HistoryInv(after)
  {
    EndedIsUnused(db, after, session, e);
    TurnsOpenedMore(db.log, e, db.turns);
    assert e.turn in db.turns && db.turns[e.turn] == session;
    EndsOpenedMore(db.log, e);
  }

  lemma TurnHistoryKept(db: Db, step: Step)
    requires Leases(db.sessions, db.turns) && HistoryInv(db) && TurnStep(step) && ServeTurn(db, step).Some?
    ensures HistoryInv(ServeTurn(db, step).value)
  {
    var after := ServeTurn(db, step).value;
    match step
    case DoOpenSession(session, retryDisabled) =>
      TurnUneventful(db, step);
      UneventfulKeeps(db, after);
    case DoAcquire(session, turn, entry, event) => OpeningKeeps(db, session, turn, entry, event);
    case DoComplete(session, turn, event, unfinished) =>
      EndingKeeps(db, after, session, Answered(session, event, turn, unfinished));
    case DoFail(session, turn, event) => EndingKeeps(db, after, session, TurnFailed(session, event, turn));
    case DoBlock(session, turn) =>
      TurnUneventful(db, step);
      UneventfulKeeps(db, after);
  }

  lemma KeepsHistory(db: Db, step: Step)
    requires StopInv(db) && HistoryInv(db) && Next(db, step).Some?
    ensures HistoryInv(Next(db, step).value)
  {
    var after := Next(db, step).value;
    if TurnStep(step) {
      TurnHistoryKept(db, step);
    } else if step.DoRecoverTurn? {
      EndingKeeps(db, after, step.session, TurnFailed(step.session, step.event, db.sessions[step.session].activeTurn));
    } else {
      if RecoveryStep(step) {
        RecoverUneventful(db, step);
      } else if ApprovalStep(step) {
        ApprovalUneventful(db, step);
      } else if QueueStep(step) {
        QueueUneventful(db, step);
      } else if RetryStep(step) {
        RetryUneventful(db, step);
      } else if VolatileStep(step) {
        VolatileUneventful(db, step);
      }
      UneventfulKeeps(db, after);
    }
  }

  lemma {:induction false} HistoryReachable(steps: seq<Step>)
    requires Run(EMPTY_DB, steps).Some?
    ensures HistoryInv(Run(EMPTY_DB, steps).value)
  {
    if steps != [] {
      var n := |steps| - 1;
      HistoryReachable(steps[..n]);
      Reachable(steps[..n]);
      KeepsHistory(Run(EMPTY_DB, steps[..n]).value, steps[n]);
    }
  }

  /** In every run a turn is opened once, ends at most once, and ends only after it was opened in its session. */
  lemma EndsOnceInEveryRun(steps: seq<Step>, i: nat, j: nat)
    requires Run(EMPTY_DB, steps).Some? && i < j < |Run(EMPTY_DB, steps).value.log|
    ensures
      var log := Run(EMPTY_DB, steps).value.log;
      && (log[i].TurnOpened? && log[j].TurnOpened? ==> log[i].turn != log[j].turn)
      && (IsOutcome(log[i]) && IsOutcome(log[j]) ==> log[i].turn != log[j].turn)
      && (IsOutcome(log[j]) ==> OpenedIn(log, j, log[j].turn, log[j].session))
  {
    HistoryReachable(steps);
  }

  // ---- Receipts ----

  /** An approval in flight was decided. */
  predicate ExecutingClaimed(db: Db) {
    forall a | a in db.approvals && db.approvals[a].state == Executing :: Claimed(db.log, a)
  }

  /** An approval that was decided and is no longer in flight. */
  predicate Settled(db: Db, approval: Id) {
    approval in db.approvals && db.approvals[approval].state != Executing && Claimed(db.log, approval)
  }

  /** The step starts the effect of this approval. */
  predicate Starts(step: Step, approval: Id) {
    step.DoClaim? && step.approval == approval && step.approve
  }

  lemma ApprovalExecutes(db: Db, step: Step, approval: Id)
    requires ApprovalStep(step) && ServeApproval(db, step).Some?
    ensures
      var after := ServeApproval(db, step).value;
      approval in after.approvals && after.approvals[approval].state == Executing && !Starts(step, approval) ==>
        approval in db.approvals && db.approvals[approval].state == Executing
  {
  }

  lemma RecoverExecutes(db: Db, step: Step, approval: Id)
    requires RecoveryStep(step) && Recover(db, step).Some?
    ensures
      var after := Recover(db, step).value;
      approval in after.approvals && after.approvals[approval].state == Executing ==>
        approval in db.approvals && db.approvals[approval].state == Executing
  {
  }

  lemma TurnExecutes(db: Db, step: Step)
    requires TurnStep(step) && ServeTurn(db, step).Some?
    ensures ServeTurn(db, step).value.approvals == db.approvals
  {
  }

  lemma StepExecutes(db: Db, step: Step, approval: Id)
    requires Next(db, step).Some?
    ensures
      var after := Next(db, step).value;
      approval in after.approvals && after.approvals[approval].state == Executing && !Starts(step, approval) ==>
        approval in db.approvals && db.approvals[approval].state == Executing
  {
    if step.DoCrash? {
    } else if RecoveryStep(step) {
      RecoverExecutes(db, step, approval);
    } else if TurnStep(step) {
      TurnExecutes(db, step);
    } else if ApprovalStep(step) {
      ApprovalExecutes(db, step, approval);
    } else if QueueStep(step) {
      QueueClaims(db, step);
    } else if RetryStep(step) {
      RetryClaims(db, step);
    } else {
      VolatileLog(db, step);
    }
  }

  lemma ClaimsStay(db: Db, step: Step, approval: Id)
    requires Next(db, step).Some? && Claimed(db.log, approval)
    ensures Claimed(Next(db, step).value.log, approval)
  {
    StepExtends(db, step);
    var after := Next(db, step).value;
    var i :| 0 <= i < |db.log| && IsDecision(db.log[i], approval);
    assert after.log[..|db.log|][i] == after.log[i];
  }

  lemma KeepsExecuting(db: Db, step: Step)
    requires ExecutingClaimed(db) && Next(db, step).Some?
    ensures ExecutingClaimed(Next(db, step).value)
  {
    var after := Next(db, step).value;
    forall a | a in after.approvals && after.approvals[a].state == Executing ensures Claimed(after.log, a) {
      if Starts(step, a) {
        assert IsDecision(after.log[|db.log|], a);
      } else {
        StepExecutes(db, step, a);
        ClaimsStay(db, step, a);
      }
    }
  }

  lemma {:induction false} ExecutingReachable(steps: seq<Step>)
    requires Run(EMPTY_DB, steps).Some?
    ensures ExecutingClaimed(Run(EMPTY_DB, steps).value)
  {
    if steps != [] {
      var n := |steps| - 1;
      ExecutingReachable(steps[..n]);
      KeepsExecuting(Run(EMPTY_DB, steps[..n]).value, steps[n]);
    }
  }

  /** A settled approval is never in flight again, whatever recovery makes of it. */
  lemma SettledStays(db: Db, step: Step, approval: Id)
    requires StopInv(db) && ClaimInv(db) && Settled(db, approval) && Next(db, step).Some?
    ensures Settled(Next(db, step).value, approval)
  {
    StepExtends(db, step);
    ClaimsStay(db, step, approval);
    if Starts(step, approval) {
      ClaimClaims(db, approval, step.approve, step.automatic);
      assert false;
    }
    StepExecutes(db, step, approval);
  }

  lemma {:induction false} SettledForGood(db: Db, steps: seq<Step>, approval: Id)
    requires Inv(db) && Settled(db, approval) && Run(db, steps).Some?
    ensures Settled(Run(db, steps).value, approval)
  {
    if steps != [] {
      var n := |steps| - 1;
      SettledForGood(db, steps[..n], approval);
      RunKeepsInv(db, steps[..n]);
      SettledStays(Run(db, steps[..n]).value, steps[n], approval);
    }
  }

  lemma PersistSettles(db: Db, step: Step)
    requires ExecutingClaimed(db) && step.DoPersist? && step.approve && Next(db, step).Some?
    ensures Settled(Next(db, step).value, step.approval)
  {
    assert Claimed(db.log, step.approval);
    assert Next(db, step).value.log == db.log;
  }

  lemma ReceiptOnceFrom(first: Db, one: Step, mid: Db, between: seq<Step>, last: Db, two: Step)
    requires ExecutingClaimed(first) && Next(first, one) == Some(mid) && Inv(mid)
    requires Run(mid, between) == Some(last) && Next(last, two).Some?
    requires one.DoPersist? && one.approve && two.DoPersist? && two.approve
    ensures one.approval != two.approval
  {
    PersistSettles(first, one);
    SettledForGood(mid, between, one.approval);
  }

  /** The part of a run between two of its states. */
  lemma RunMiddle(db: Db, steps: seq<Step>, i: nat, j: nat)
    requires Run(db, steps).Some? && i <= j <= |steps|
    ensures Run(db, steps[..i]).Some? && Run(db, steps[..j]).Some?
    ensures Run(Run(db, steps[..i]).value, steps[i..j]) == Run(db, steps[..j])
  {
    var before, between := steps[..i], steps[i..j];
    assert before + between == steps[..j];
    RunPrefix(db, steps, i);
    RunPrefix(db, steps, j);
    RunJoin(db, before, between);
  }

  /** In every run the receipt of an approved call is recorded at most once, restarts included. */
  lemma ReceiptOnceInEveryRun(steps: seq<Step>, i: nat, j: nat)
    requires Run(EMPTY_DB, steps).Some? && i < j < |steps|
    requires steps[i].DoPersist? && steps[i].approve && steps[j].DoPersist? && steps[j].approve
    ensures steps[i].approval != steps[j].approval
  {
    RunMiddle(EMPTY_DB, steps, i + 1, j);
    StepOf(EMPTY_DB, steps, i);
    StepOf(EMPTY_DB, steps, j);
    ExecutingReachable(steps[..i]);
    Reachable(steps[..i + 1]);
    var first, mid := Run(EMPTY_DB, steps[..i]).value, Run(EMPTY_DB, steps[..i + 1]).value;
    ReceiptOnceFrom(first, steps[i], mid, steps[i + 1..j], Run(EMPTY_DB, steps[..j]).value, steps[j]);
  }
}
