/** One-shot decisions: no approval is decided twice, even though recovery may make a decided one pending again. */
module TurnClaims {
  import opened Wrappers
  import opened TurnStore
  import opened TurnStops

  predicate IsDecision(e: Event, approval: Id) {
    e.Decided? && e.approval == approval
  }

  predicate Claimed(log: seq<Event>, approval: Id) {
    exists i | 0 <= i < |log| :: IsDecision(log[i], approval)
  }

  /** No approval is decided twice. */
  predicate DecidedOnce(log: seq<Event>) {
    forall i, j | 0 <= i < j < |log| && log[i].Decided? && log[j].Decided? :: log[i].approval != log[j].approval
  }

  predicate DecisionsKnown(log: seq<Event>, approvals: map<Id, Approval>) {
    forall i | 0 <= i < |log| && log[i].Decided? :: log[i].approval in approvals
  }

  /** A pending approval that was decided before cannot be decided again: stopped, or no longer the active turn. */
  predicate Spent(db: Db, a: Id)
    requires a in db.approvals
  {
    var v := db.approvals[a];
    || v.turn in db.controls
    || (a !in db.checked && (v.session in db.sessions ==> db.sessions[v.session].activeTurn != v.turn))
  }

  predicate PendingSpent(db: Db) {
    forall a | a in db.approvals && db.approvals[a].state == Pending && Claimed(db.log, a) :: Spent(db, a)
  }

  predicate ClaimInv(db: Db) {
    && DecidedOnce(db.log) && DecisionsKnown(db.log, db.approvals) && PendingSpent(db)
    && (db.phase != Serving ==> db.checked == {})
  }

  lemma LogOther(log: seq<Event>, e: Event)
    requires !e.Decided?
    ensures forall a :: Claimed(log + [e], a) <==> Claimed(log, a)
    ensures DecidedOnce(log) ==> DecidedOnce(log + [e])
  {
    forall a ensures Claimed(log + [e], a) <==> Claimed(log, a) {
      if Claimed(log, a) {
        var i :| 0 <= i < |log| && IsDecision(log[i], a);
        assert IsDecision((log + [e])[i], a);
      }
    }
  }

  lemma LogDecision(log: seq<Event>, e: Event)
    requires e.Decided? && !Claimed(log, e.approval) && DecidedOnce(log)
    ensures DecidedOnce(log + [e])
    ensures forall a | a != e.approval :: Claimed(log + [e], a) <==> Claimed(log, a)
  {
    forall i | 0 <= i < |log| && log[i].Decided? ensures log[i].approval != e.approval {
      assert !IsDecision(log[i], e.approval);
    }
    forall a | a != e.approval ensures Claimed(log + [e], a) <==> Claimed(log, a) {
      if Claimed(log, a) {
        var i :| 0 <= i < |log| && IsDecision(log[i], a);
        assert IsDecision((log + [e])[i], a);
      }
    }
  }

  lemma AcquireClaims(db: Db, session: Id, turn: Id, entry: Entry, event: Id)
    requires StopInv(db) && ClaimInv(db) && Acquire(db, session, turn, entry, event).Some?
    ensures ClaimInv(Acquire(db, session, turn, entry, event).value)
  {
    LogOther(db.log, TurnOpened(session, event, turn, entry));
  }

  lemma ReleasedClaims(db: Db, session: Id)
    requires StopInv(db) && ClaimInv(db) && session in db.sessions
    ensures ClaimInv(Released(db, session))
  {
  }

  lemma CompleteClaims(db: Db, session: Id, turn: Id, event: Id, unfinished: bool)
    requires StopInv(db) && ClaimInv(db) && Complete(db, session, turn, event, unfinished).Some?
    ensures ClaimInv(Complete(db, session, turn, event, unfinished).value)
  {
    LogOther(db.log, Answered(session, event, turn, unfinished));
  }

  lemma FailClaims(db: Db, session: Id, turn: Id, event: Id)
    requires StopInv(db) && ClaimInv(db) && Fail(db, session, turn, event).Some?
    ensures ClaimInv(Fail(db, session, turn, event).value)
  {
    LogOther(db.log, TurnFailed(session, event, turn));
  }

  lemma CreateClaims(db: Db, approval: Id, session: Id, turn: Id, authorized: bool)
    requires StopInv(db) && ClaimInv(db) && CreateApproval(db, approval, session, turn, authorized).Some? && db.phase == Serving
    ensures ClaimInv(CreateApproval(db, approval, session, turn, authorized).value)
  {
    assert !Claimed(db.log, approval);
  }

  lemma CheckClaims(db: Db, approval: Id)
    requires StopInv(db) && ClaimInv(db) && CheckDecision(db, approval).Some? && db.phase == Serving
    ensures ClaimInv(CheckDecision(db, approval).value)
  {
  }

  lemma ClaimClaims(db: Db, approval: Id, approve: bool, automatic: bool)
    requires StopInv(db) && ClaimInv(db) && Claim(db, approval, approve, automatic).Some?
    ensures !Claimed(db.log, approval)
    ensures ClaimInv(Claim(db, approval, approve, automatic).value)
  {
    LogDecision(db.log, Decided(db.approvals[approval].session, approval, approve));
  }

  lemma PersistClaims(db: Db, approval: Id, approve: bool, receipt: Receipt)
    requires StopInv(db) && ClaimInv(db) && PersistReceipt(db, approval, approve, receipt).Some?
    ensures ClaimInv(PersistReceipt(db, approval, approve, receipt).value)
  {
  }

  lemma StopClaims(db: Db, session: Id, turn: Id, at: int)
    requires StopInv(db) && ClaimInv(db) && Stop(db, session, turn, at).Some?
    ensures ClaimInv(Stop(db, session, turn, at).value)
  {
  }

  lemma SettleClaims(db: Db, turn: Id, final: ControlState)
    requires StopInv(db) && ClaimInv(db) && turn in db.controls && db.controls[turn].session in db.sessions
    ensures ClaimInv(SettleStop(db, turn, final))
  {
  }

  lemma RecoverApprovalsClaims(db: Db, verdicts: map<Id, Verdict>)
    requires StopInv(db) && ClaimInv(db) && RecoverApprovals(db, verdicts).Some?
    ensures ClaimInv(RecoverApprovals(db, verdicts).value)
  {
  }

  lemma RecoverTurnClaims(db: Db, session: Id, event: Id)
    requires StopInv(db) && ClaimInv(db) && RecoverTurn(db, session, event).Some?
    ensures ClaimInv(RecoverTurn(db, session, event).value)
  {
    LogOther(db.log, TurnFailed(session, event, db.sessions[session].activeTurn));
  }

  lemma RecoverControlsClaims(db: Db, latest: map<Id, Id>)
    requires StopInv(db) && ClaimInv(db) && RecoverControls(db, latest).Some?
    ensures ClaimInv(RecoverControls(db, latest).value)
  {
  }

  predicate SameClaims(db: Db, after: Db) {
    && SameStops(db, after) && after.log == db.log && after.checked == db.checked && after.phase == db.phase
  }

  lemma QueueClaims(db: Db, step: Step)
    requires QueueStep(step) && ServeQueue(db, step).Some?
    ensures SameClaims(db, ServeQueue(db, step).value)
  {
  }

  lemma RetryClaims(db: Db, step: Step)
    requires RetryStep(step) && ServeRetry(db, step).Some?
    ensures SameClaims(db, ServeRetry(db, step).value)
  {
  }

  lemma SameKeepsClaims(db: Db, after: Db)
    requires ClaimInv(db) && SameStops(db, after) && after.log == db.log
    requires after.checked == db.checked || after.checked == {}
    requires after.phase != Serving ==> after.checked == {}
    ensures ClaimInv(after)
  {
    forall a | a in after.approvals && after.approvals[a].state == Pending && Claimed(after.log, a) ensures Spent(after, a) {
      assert Spent(db, a);
    }
  }

  lemma TurnClaimsKept(db: Db, step: Step)
    requires StopInv(db) && ClaimInv(db) && TurnStep(step) && ServeTurn(db, step).Some?
    ensures ClaimInv(ServeTurn(db, step).value)
  {
    match step
    case DoOpenSession(session, retryDisabled) => OpenClaims(db, session, retryDisabled);
    case DoAcquire(session, turn, entry, event) => AcquireClaims(db, session, turn, entry, event);
    case DoComplete(session, turn, event, unfinished) => CompleteClaims(db, session, turn, event, unfinished);
    case DoFail(session, turn, event) => FailClaims(db, session, turn, event);
    case DoBlock(session, turn) => ReleasedClaims(db, session);
  }

  lemma OpenClaims(db: Db, session: Id, retryDisabled: bool)
    requires StopInv(db) && ClaimInv(db) && OpenSession(db, session, retryDisabled).Some?
    ensures ClaimInv(OpenSession(db, session, retryDisabled).value)
  {
  }

  lemma ApprovalClaimsKept(db: Db, step: Step)
    requires StopInv(db) && ClaimInv(db) && db.phase == Serving && ApprovalStep(step) && ServeApproval(db, step).Some?
    ensures ClaimInv(ServeApproval(db, step).value)
  {
    match step
    case DoCreate(approval, session, turn, authorized) => CreateClaims(db, approval, session, turn, authorized);
    case DoClaim(approval, approve, automatic) => ClaimClaims(db, approval, approve, automatic);
    case DoPersist(approval, approve, receipt) => PersistClaims(db, approval, approve, receipt);
    case DoStop(session, turn, at) => StopClaims(db, session, turn, at);
    case DoFinishStop(turn, confirmed) => SettleClaims(db, turn, FinalState(db.approvals, turn, confirmed));
  }

  lemma VolatileClaims(db: Db, step: Step)
    requires StopInv(db) && ClaimInv(db) && db.phase == Serving && VolatileStep(step) && ServeVolatile(db, step).Some?
    ensures ClaimInv(ServeVolatile(db, step).value)
  {
    if step.DoCheck? {
      CheckClaims(db, step.approval);
    } else {
      SameKeepsClaims(db, ServeVolatile(db, step).value);
    }
  }

  lemma RecoverClaims(db: Db, step: Step)
    requires StopInv(db) && ClaimInv(db) && RecoveryStep(step) && Recover(db, step).Some?
    ensures ClaimInv(Recover(db, step).value)
  {
    if step.DoRecoverApprovals? {
      RecoverApprovalsClaims(db, step.verdicts);
    } else if step.DoRecoverTurn? {
      RecoverTurnClaims(db, step.session, step.event);
    } else if step.DoRecoverControls? {
      RecoverControlsClaims(db, step.latest);
    } else {
      SameKeepsClaims(db, Recover(db, step).value);
    }
  }

  lemma KeepsClaims(db: Db, step: Step)
    requires StopInv(db) && ClaimInv(db) && Next(db, step).Some?
    ensures ClaimInv(Next(db, step).value)
  {
    if step.DoCrash? {
      SameKeepsClaims(db, Crash(db).value);
    } else if RecoveryStep(step) {
      RecoverClaims(db, step);
    } else if TurnStep(step) {
      TurnClaimsKept(db, step);
    } else if ApprovalStep(step) {
      ApprovalClaimsKept(db, step);
    } else if VolatileStep(step) {
      VolatileClaims(db, step);
    } else if QueueStep(step) {
      QueueClaims(db, step);
      SameKeepsClaims(db, ServeQueue(db, step).value);
    } else {
      RetryClaims(db, step);
      SameKeepsClaims(db, ServeRetry(db, step).value);
    }
  }
}
