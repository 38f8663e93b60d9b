/** Leases and owner stops: what every transaction keeps, whatever else is interleaved with it. */
module TurnStops {
  import opened Wrappers
  import opened TurnStore

  // ---- Leases and ownership ----

  /** A session is idle exactly when it names no turn, and a turn it names was opened in it. */
  predicate Leases(sessions: map<Id, Session>, turns: map<Id, Id>) {
    && (forall t | t in turns :: turns[t] in sessions && t != "")
    && (forall s | s in sessions ::
          && (sessions[s].state == Idle <==> sessions[s].activeTurn == "")
          && (sessions[s].activeTurn != "" ==>
                sessions[s].activeTurn in turns && turns[sessions[s].activeTurn] == s))
  }

  /** A stop row belongs to the session its turn was opened in. */
  predicate ControlsOwned(controls: map<Id, Control>, turns: map<Id, Id>) {
    forall t | t in controls :: t in turns && turns[t] == controls[t].session
  }

  predicate ApprovalsOwned(approvals: map<Id, Approval>, turns: map<Id, Id>) {
    forall a | a in approvals :: approvals[a].turn in turns && turns[approvals[a].turn] == approvals[a].session
  }

  // ---- Stops ----

  /** A blocked session names a turn whose stop is under review. */
  predicate BlocksNamed(sessions: map<Id, Session>, controls: map<Id, Control>) {
    forall s | s in sessions && sessions[s].state == ControlBlocked ::
      && sessions[s].activeTurn in controls && controls[sessions[s].activeTurn].state == NeedsReview
      && controls[sessions[s].activeTurn].session == s
  }

  /** A turn whose stop is final holds no lease. */
  predicate StopsReleased(sessions: map<Id, Session>, controls: map<Id, Control>) {
    forall s | s in sessions && sessions[s].activeTurn in controls ::
      controls[sessions[s].activeTurn].state != Stopped
  }

  /** A turn whose stop is final has no approval that is open, in flight or of unknown outcome. */
  predicate StopsSettled(approvals: map<Id, Approval>, controls: map<Id, Control>) {
    forall a | a in approvals && approvals[a].turn in controls && controls[approvals[a].turn].state == Stopped ::
      approvals[a].state !in {Pending, Executing, Uncertain}
  }

  predicate StopInv(db: Db) {
    && Leases(db.sessions, db.turns) && ControlsOwned(db.controls, db.turns) && ApprovalsOwned(db.approvals, db.turns)
    && BlocksNamed(db.sessions, db.controls) && StopsReleased(db.sessions, db.controls)
    && StopsSettled(db.approvals, db.controls)
  }

  lemma AcquireStop(db: Db, session: Id, turn: Id, entry: Entry, event: Id)
    requires StopInv(db) && Acquire(db, session, turn, entry, event).Some?
    ensures StopInv(Acquire(db, session, turn, entry, event).value)
  {
  }

  predicate SameStops(db: Db, after: Db) {
    && after.turns == db.turns && after.approvals == db.approvals && after.controls == db.controls
    && after.sessions == db.sessions
  }

  lemma ReleasedStop(db: Db, session: Id)
    requires session in db.sessions && StopInv(db)
    ensures StopInv(Released(db, session))
  {
  }

  lemma CompleteStop(db: Db, session: Id, turn: Id, event: Id, unfinished: bool)
    requires StopInv(db) && Complete(db, session, turn, event, unfinished).Some?
    ensures StopInv(Complete(db, session, turn, event, unfinished).value)
  {
    ReleasedStop(db, session);
    assert SameStops(Released(db, session), Complete(db, session, turn, event, unfinished).value);
  }

  lemma FailStop(db: Db, session: Id, turn: Id, event: Id)
    requires StopInv(db) && Fail(db, session, turn, event).Some?
    ensures StopInv(Fail(db, session, turn, event).value)
  {
    ReleasedStop(db, session);
    assert SameStops(Released(db, session), Fail(db, session, turn, event).value);
  }

  /** A session that names its turn may move between running and waiting. */
  lemma LeaseMoves(
      sessions: map<Id, Session>, turns: map<Id, Id>, controls: map<Id, Control>, session: Id, state: SessionState)
    requires Leases(sessions, turns) && BlocksNamed(sessions, controls) && StopsReleased(sessions, controls)
    requires session in sessions && sessions[session].activeTurn != "" && state in {Running, AwaitingApproval}
    ensures
      var after := sessions[session := sessions[session].(state := state)];
      Leases(after, turns) && BlocksNamed(after, controls) && StopsReleased(after, controls)
  {
  }

  lemma NewApproval(
      approvals: map<Id, Approval>, turns: map<Id, Id>, controls: map<Id, Control>, approval: Id, session: Id, turn: Id)
    requires ApprovalsOwned(approvals, turns) && StopsSettled(approvals, controls)
    requires turn in turns && turns[turn] == session && (turn in controls ==> controls[turn].state != Stopped)
    ensures
      var after := approvals[approval := Approval(session, turn, Pending)];
      ApprovalsOwned(after, turns) && StopsSettled(after, controls)
  {
  }

  lemma CreateStop(db: Db, approval: Id, session: Id, turn: Id, authorized: bool)
    requires StopInv(db) && CreateApproval(db, approval, session, turn, authorized).Some?
    ensures StopInv(CreateApproval(db, approval, session, turn, authorized).value)
  {
    var after := CreateApproval(db, approval, session, turn, authorized).value;
    assert after.turns == db.turns && after.controls == db.controls;
    assert after.sessions == db.sessions[session := db.sessions[session].(state := AwaitingApproval)];
    LeaseMoves(db.sessions, db.turns, db.controls, session, AwaitingApproval);
    assert after.approvals == db.approvals[approval := Approval(session, turn, Pending)];
    NewApproval(db.approvals, db.turns, db.controls, approval, session, turn);
  }

  /** An approval of a turn that still holds its lease may take any state. */
  lemma SettledApproval(
      approvals: map<Id, Approval>, turns: map<Id, Id>, controls: map<Id, Control>, approval: Id, state: ApprovalState)
    requires ApprovalsOwned(approvals, turns) && StopsSettled(approvals, controls) && approval in approvals
    requires approvals[approval].turn in controls ==> controls[approvals[approval].turn].state != Stopped
    ensures
      var after := approvals[approval := approvals[approval].(state := state)];
      ApprovalsOwned(after, turns) && StopsSettled(after, controls)
  {
  }

  lemma PersistStop(db: Db, approval: Id, approve: bool, receipt: Receipt)
    requires StopInv(db) && PersistReceipt(db, approval, approve, receipt).Some?
    ensures StopInv(PersistReceipt(db, approval, approve, receipt).value)
  {
    var after, a := PersistReceipt(db, approval, approve, receipt).value, db.approvals[approval];
    assert after.turns == db.turns && after.controls == db.controls;
    assert after.sessions == db.sessions[a.session := db.sessions[a.session].(state := Running)];
    LeaseMoves(db.sessions, db.turns, db.controls, a.session, Running);
    assert after.approvals == db.approvals[approval := a.(state := after.approvals[approval].state)];
    SettledApproval(db.approvals, db.turns, db.controls, approval, after.approvals[approval].state);
  }

  lemma ClaimStop(db: Db, approval: Id, approve: bool, automatic: bool)
    requires StopInv(db) && Claim(db, approval, approve, automatic).Some?
    ensures StopInv(Claim(db, approval, approve, automatic).value)
  {
  }

  lemma NewStop(
      sessions: map<Id, Session>, approvals: map<Id, Approval>, controls: map<Id, Control>, turns: map<Id, Id>,
      session: Id, turn: Id, at: int)
    requires ControlsOwned(controls, turns) && turn !in controls && turn in turns && turns[turn] == session
    requires BlocksNamed(sessions, controls) && StopsReleased(sessions, controls) && StopsSettled(approvals, controls)
    ensures
      var after := controls[turn := Control(session, Stopping, at)];
      && ControlsOwned(after, turns) && BlocksNamed(sessions, after) && StopsReleased(sessions, after)
      && StopsSettled(approvals, after)
  {
  }

  lemma StopStop(db: Db, session: Id, turn: Id, at: int)
    requires StopInv(db) && Stop(db, session, turn, at).Some?
    ensures StopInv(Stop(db, session, turn, at).value)
  {
    if turn !in db.controls {
      NewStop(db.sessions, db.approvals, db.controls, db.turns, session, turn, at);
    }
  }

  lemma StopLeases(sessions: map<Id, Session>, turns: map<Id, Id>, session: Id, turn: Id, final: ControlState)
    requires Leases(sessions, turns) && session in sessions && turn in turns
    ensures Leases(SessionsOnStop(sessions, session, turn, final), turns)
  {
  }

  lemma StopBlocks(sessions: map<Id, Session>, turns: map<Id, Id>, controls: map<Id, Control>, turn: Id, final: ControlState)
    requires Leases(sessions, turns) && ControlsOwned(controls, turns) && turn in controls
    requires BlocksNamed(sessions, controls) && StopsReleased(sessions, controls)
    requires final == Stopped || final == NeedsReview
    ensures
      var after := SessionsOnStop(sessions, controls[turn].session, turn, final);
      var settled := controls[turn := controls[turn].(state := final)];
      BlocksNamed(after, settled) && StopsReleased(after, settled)
  {
  }

  lemma StopSettles(approvals: map<Id, Approval>, controls: map<Id, Control>, turn: Id, confirmed: bool)
    requires StopsSettled(approvals, controls) && turn in controls
    ensures
      var settled := controls[turn := controls[turn].(state := FinalState(approvals, turn, confirmed))];
      StopsSettled(CancelPending(approvals, turn), settled)
  {
    var after := CancelPending(approvals, turn);
    if FinalState(approvals, turn, confirmed) == Stopped {
      forall a | a in after && after[a].turn == turn ensures after[a].state !in {Pending, Executing, Uncertain} {
        assert !Unresolved(approvals[a], turn);
      }
    }
  }

  lemma FinishStopStop(db: Db, turn: Id, confirmed: bool)
    requires StopInv(db) && FinishStop(db, turn, confirmed).Some?
    ensures StopInv(FinishStop(db, turn, confirmed).value)
  {
    var final := FinalState(db.approvals, turn, confirmed);
    StopLeases(db.sessions, db.turns, db.controls[turn].session, turn, final);
    StopBlocks(db.sessions, db.turns, db.controls, turn, final);
    StopSettles(db.approvals, db.controls, turn, confirmed);
  }

  lemma QueueSame(db: Db, step: Step)
    requires QueueStep(step) && ServeQueue(db, step).Some?
    ensures SameStops(db, ServeQueue(db, step).value)
  {
  }

  lemma RetrySame(db: Db, step: Step)
    requires RetryStep(step) && ServeRetry(db, step).Some?
    ensures SameStops(db, ServeRetry(db, step).value)
  {
  }

  lemma VolatileSame(db: Db, step: Step)
    requires VolatileStep(step) && ServeVolatile(db, step).Some?
    ensures SameStops(db, ServeVolatile(db, step).value)
  {
  }

  lemma TurnStop(db: Db, step: Step)
    requires StopInv(db) && TurnStep(step) && ServeTurn(db, step).Some?
    ensures StopInv(ServeTurn(db, step).value)
  {
    match step
    case DoOpenSession(session, retryDisabled) =>
    case DoAcquire(session, turn, entry, event) => AcquireStop(db, session, turn, entry, event);
    case DoComplete(session, turn, event, unfinished) => CompleteStop(db, session, turn, event, unfinished);
    case DoFail(session, turn, event) => FailStop(db, session, turn, event);
    case DoBlock(session, turn) => ReleasedStop(db, session);
  }

  lemma ApprovalStop(db: Db, step: Step)
    requires StopInv(db) && ApprovalStep(step) && ServeApproval(db, step).Some?
    ensures StopInv(ServeApproval(db, step).value)
  {
    match step
    case DoCreate(approval, session, turn, authorized) => CreateStop(db, approval, session, turn, authorized);
    case DoClaim(approval, approve, automatic) => ClaimStop(db, approval, approve, automatic);
    case DoPersist(approval, approve, receipt) => PersistStop(db, approval, approve, receipt);
    case DoStop(session, turn, at) => StopStop(db, session, turn, at);
    case DoFinishStop(turn, confirmed) => FinishStopStop(db, turn, confirmed);
  }

  lemma KeepsStops(db: Db, step: Step)
    requires StopInv(db) && Next(db, step).Some?
    ensures StopInv(Next(db, step).value)
  {
    if step.DoCrash? {
      assert SameStops(db, Crash(db).value);
    } else if step.DoRecoverControls? {
      RecoverControlsStop(db, step.latest);
    } else if RecoveryStep(step) {
      RecoverStop(db, step);
    } else if TurnStep(step) {
      TurnStop(db, step);
    } else if ApprovalStep(step) {
      ApprovalStop(db, step);
    } else if QueueStep(step) {
      QueueSame(db, step);
    } else if RetryStep(step) {
      RetrySame(db, step);
    } else {
      VolatileSame(db, step);
    }
  }

  lemma FreedSessions(db: Db, after: Db, verdicts: map<Id, Verdict>)
    requires StopInv(db) && RecoverApprovals(db, verdicts) == Some(after)
    ensures Leases(after.sessions, after.turns) && BlocksNamed(after.sessions, after.controls)
    ensures StopsReleased(after.sessions, after.controls)
  {
    forall s | s in after.sessions
      ensures after.sessions[s] == db.sessions[s] || after.sessions[s] == db.sessions[s].(state := Idle, activeTurn := "")
    {
    }
    assert after.turns == db.turns && after.controls == db.controls && after.sessions.Keys == db.sessions.Keys;
    assert "" !in db.turns;
  }

  lemma ReconciledApprovals(db: Db, after: Db, verdicts: map<Id, Verdict>)
    requires StopInv(db) && RecoverApprovals(db, verdicts) == Some(after)
    ensures ApprovalsOwned(after.approvals, after.turns) && StopsSettled(after.approvals, after.controls)
  {
    assert after.turns == db.turns && after.controls == db.controls;
    forall a | a in after.approvals
      ensures after.approvals[a].turn == db.approvals[a].turn && after.approvals[a].session == db.approvals[a].session
      ensures after.approvals[a].state == db.approvals[a].state || db.approvals[a].state == Executing
    {
    }
  }

  lemma RecoverApprovalsStop(db: Db, verdicts: map<Id, Verdict>)
    requires StopInv(db) && RecoverApprovals(db, verdicts).Some?
    ensures StopInv(RecoverApprovals(db, verdicts).value)
  {
    var after := RecoverApprovals(db, verdicts).value;
    FreedSessions(db, after, verdicts);
    ReconciledApprovals(db, after, verdicts);
    assert after.turns == db.turns && after.controls == db.controls;
  }

  lemma RecoverStop(db: Db, step: Step)
    requires RecoveryStep(step) && !step.DoRecoverControls?
    requires StopInv(db) && Recover(db, step).Some?
    ensures StopInv(Recover(db, step).value)
  {
    if step.DoRecoverApprovals? {
      RecoverApprovalsStop(db, step.verdicts);
    } else if step.DoRecoverTurn? {
      ReleasedStop(db, step.session);
    }
  }

  lemma RetakenOne(
      sessions: map<Id, Session>, turns: map<Id, Id>, controls: map<Id, Control>, latest: map<Id, Id>, s: Id)
    requires Leases(sessions, turns) && ControlsOwned(controls, turns) && s in sessions
    requires StopsReleased(sessions, controls) && BlocksNamed(sessions, controls)
    requires LatestReviews(sessions, Reviewed(controls), latest)
    ensures
      var v, reviewed := Retaken(sessions, Reviewed(controls), latest)[s], Reviewed(controls);
      && (v.state == Idle <==> v.activeTurn == "")
      && (v.activeTurn != "" ==> v.activeTurn in turns && turns[v.activeTurn] == s)
      && (v.state == ControlBlocked ==>
            && v.activeTurn in reviewed && reviewed[v.activeTurn].state == NeedsReview
            && reviewed[v.activeTurn].session == s)
      && (v.activeTurn in reviewed ==> reviewed[v.activeTurn].state != Stopped)
  {
    if UnderReview(Reviewed(controls), s) {
      assert LatestReview(Reviewed(controls), s, latest[s]);
    } else {
      assert Retaken(sessions, Reviewed(controls), latest)[s] == sessions[s];
    }
  }

  lemma RetakenInv(sessions: map<Id, Session>, turns: map<Id, Id>, controls: map<Id, Control>, latest: map<Id, Id>)
    requires Leases(sessions, turns) && ControlsOwned(controls, turns)
    requires StopsReleased(sessions, controls) && BlocksNamed(sessions, controls)
    requires LatestReviews(sessions, Reviewed(controls), latest)
    ensures ControlsOwned(Reviewed(controls), turns)
    ensures Leases(Retaken(sessions, Reviewed(controls), latest), turns)
    ensures BlocksNamed(Retaken(sessions, Reviewed(controls), latest), Reviewed(controls))
    ensures StopsReleased(Retaken(sessions, Reviewed(controls), latest), Reviewed(controls))
  {
    forall s | s in sessions {
      RetakenOne(sessions, turns, controls, latest, s);
    }
  }

  lemma CancelledSettled(approvals: map<Id, Approval>, controls: map<Id, Control>)
    requires StopsSettled(approvals, controls)
    ensures StopsSettled(CancelStopped(approvals, Reviewed(controls)), Reviewed(controls))
  {
  }

  lemma RecoverControlsStop(db: Db, latest: map<Id, Id>)
    requires StopInv(db) && RecoverControls(db, latest).Some?
    ensures StopInv(RecoverControls(db, latest).value)
  {
    RetakenInv(db.sessions, db.turns, db.controls, latest);
    CancelledSettled(db.approvals, db.controls);
  }
}
