/** Whole runs of the turn machine: every interleaving of its transactions, with crashes and restarts anywhere. */
module TurnRuns {
  import opened Wrappers
  import opened TurnStore
  import opened TurnStops
  import opened TurnClaims
  import opened TurnQueue
  import opened TurnRetries

  ghost predicate Inv(db: Db) {
    StopInv(db) && ClaimInv(db) && QueueInv(db) && RetryInv(db)
  }

  lemma KeepsInv(db: Db, step: Step)
    requires Inv(db) && Next(db, step).Some?
    ensures Inv(Next(db, step).value)
  {
    KeepsStops(db, step);
    KeepsClaims(db, step);
    KeepsQueue(db, step);
    KeepsRetries(db, step);
  }

  lemma {:induction false} RunKeepsInv(db: Db, steps: seq<Step>)
    requires Inv(db) && Run(db, steps).Some?
    ensures Inv(Run(db, steps).value)
  {
    if steps != [] {
      var n := |steps| - 1;
      RunKeepsInv(db, steps[..n]);
      KeepsInv(Run(db, steps[..n]).value, steps[n]);
    }
  }

  lemma EmptyIsGood()
    ensures Inv(EMPTY_DB)
  {
  }

  /** Leases, one-shot decisions, stops, keys, queue rows and allowances hold in every reachable state. */
  lemma Reachable(steps: seq<Step>)
    requires Run(EMPTY_DB, steps).Some?
    ensures Inv(Run(EMPTY_DB, steps).value)
  {
    EmptyIsGood();
    RunKeepsInv(EMPTY_DB, steps);
  }

  /** Read off the log: no approval was decided twice, and no key, queued message or outcome opened two turns. */
  lemma OnceInEveryRun(steps: seq<Step>, i: nat, j: nat)
    requires Run(EMPTY_DB, steps).Some? && i < j < |Run(EMPTY_DB, steps).value.log|
    ensures
      var log := Run(EMPTY_DB, steps).value.log;
      && (log[i].Decided? && log[j].Decided? ==> log[i].approval != log[j].approval)
      && (log[i].TurnOpened? && log[j].TurnOpened? ==>
            && (log[i].session == log[j].session && log[i].entry.Key() != "" ==> log[i].entry.Key() != log[j].entry.Key())
            && (log[i].entry.FromQueue? ==> log[i].entry != log[j].entry)
            && (log[i].entry.Automatic? && log[i].session == log[j].session ==> log[i].entry != log[j].entry))
  {
    Reachable(steps);
    var db := Run(EMPTY_DB, steps).value;
    if db.log[i].TurnOpened? && db.log[j].TurnOpened? {
      OneTurnEach(db.log, db.queue, db.controls, i, j);
    }
  }

  /** The state before step n of a run, and what the step made of it. */
  lemma StepOf(db: Db, steps: seq<Step>, n: nat)
    requires Run(db, steps).Some? && n < |steps|
    ensures Run(db, steps[..n]).Some? && Next(Run(db, steps[..n]).value, steps[n]).Some?
    ensures Run(db, steps[..n + 1]) == Next(Run(db, steps[..n]).value, steps[n])
  {
    RunPrefix(db, steps, n);
    RunPrefix(db, steps, n + 1);
    assert steps[..n + 1][..n] == steps[..n];
  }

  /**
   * Whenever a queued message opens a turn, in any run, it is a message of that session, and if it changes direction the
   * stop of the turn it turns away from is confirmed at that moment and that turn is over.
   */
  lemma SteersWaitForStop(steps: seq<Step>, n: nat)
    requires Run(EMPTY_DB, steps).Some? && n < |steps| && steps[n].DoAcquire? && steps[n].entry.FromQueue?
    ensures Run(EMPTY_DB, steps[..n]).Some?
    ensures
      var db, session, row := Run(EMPTY_DB, steps[..n]).value, steps[n].session, steps[n].entry.row;
      && row in db.queue && db.queue[row].session == session
      && (db.queue[row].mode == Steer ==>
            StopConfirmed(db, session, db.queue[row].baseTurn) && !Live(db, session, db.queue[row].baseTurn))
  {
    StepOf(EMPTY_DB, steps, n);
    Reachable(steps[..n]);
    OpensBehindStop(Run(EMPTY_DB, steps[..n]).value, steps[n].session, steps[n].turn, steps[n].entry, steps[n].event);
  }

  lemma OpensBehindStop(db: Db, session: Id, turn: Id, entry: Entry, event: Id)
    requires Inv(db) && Acquire(db, session, turn, entry, event).Some? && entry.FromQueue?
    ensures RowMayOpen(db.queue, db.controls, entry.row, session)
    ensures forall t | t in db.controls && db.controls[t].state == Stopped :: !Live(db, session, t)
  {
  }

  /** At every moment of every run, at most MAX_ATTEMPTS automatic turns have opened since the owner's last turn. */
  lemma BurstsInEveryRun(steps: seq<Step>, n: nat, session: Id)
    requires Run(EMPTY_DB, steps).Some? && n <= |Run(EMPTY_DB, steps).value.log|
    ensures AutoSince(Run(EMPTY_DB, steps).value.log[..n], session) <= MAX_ATTEMPTS
  {
    Reachable(steps);
  }

  // ---- Lifetimes ----

  lemma TurnLives(db: Db, step: Step, session: Id, turn: Id)
    requires TurnStep(step) && ServeTurn(db, step).Some? && turn in db.turns && !Live(db, session, turn)
    ensures turn in ServeTurn(db, step).value.turns && !Live(ServeTurn(db, step).value, session, turn)
  {
  }

  lemma ApprovalLives(db: Db, step: Step, session: Id, turn: Id)
    requires ApprovalStep(step) && ServeApproval(db, step).Some? && turn in db.turns && !Live(db, session, turn)
    ensures turn in ServeApproval(db, step).value.turns && !Live(ServeApproval(db, step).value, session, turn)
  {
  }

  lemma RecoverLives(db: Db, step: Step, session: Id, turn: Id)
    requires RecoveryStep(step) && Recover(db, step).Some? && turn in db.turns && !Live(db, session, turn)
    ensures turn in Recover(db, step).value.turns && !Live(Recover(db, step).value, session, turn)
  {
  }

  /** A turn that is no longer running or waiting never runs or waits again. */
  lemma EndedStaysEnded(db: Db, step: Step, session: Id, turn: Id)
    requires StopInv(db) && Next(db, step).Some? && turn in db.turns && !Live(db, session, turn)
    ensures turn in Next(db, step).value.turns && !Live(Next(db, step).value, session, turn)
  {
    if step.DoCrash? {
    } else if RecoveryStep(step) {
      RecoverLives(db, step, session, turn);
    } else if TurnStep(step) {
      TurnLives(db, step, session, turn);
    } else if ApprovalStep(step) {
      ApprovalLives(db, step, session, turn);
    } else if QueueStep(step) {
      QueueSame(db, step);
    } else if RetryStep(step) {
      RetrySame(db, step);
    } else {
      VolatileSame(db, step);
    }
  }

  lemma {:induction false} EndedForGood(db: Db, steps: seq<Step>, session: Id, turn: Id)
    requires Inv(db) && Run(db, steps).Some? && turn in db.turns && !Live(db, session, turn)
    ensures turn in Run(db, steps).value.turns && !Live(Run(db, steps).value, session, turn)
  {
    if steps != [] {
      var n := |steps| - 1;
      EndedForGood(db, steps[..n], session, turn);
      RunKeepsInv(db, steps[..n]);
      EndedStaysEnded(Run(db, steps[..n]).value, steps[n], session, turn);
    }
  }

  lemma {:induction false} TurnsStay(db: Db, steps: seq<Step>, turn: Id)
    requires Inv(db) && Run(db, steps).Some? && turn in db.turns
    ensures turn in Run(db, steps).value.turns
  {
    if steps != [] {
      var n := |steps| - 1;
      TurnsStay(db, steps[..n], turn);
      RunKeepsInv(db, steps[..n]);
      KeepsTurns(Run(db, steps[..n]).value, steps[n], turn);
    }
  }

  lemma TurnKeepsTurns(db: Db, step: Step)
    requires TurnStep(step) && ServeTurn(db, step).Some?
    ensures forall t | t in db.turns :: t in ServeTurn(db, step).value.turns
  {
  }

  lemma ApprovalKeepsTurns(db: Db, step: Step)
    requires ApprovalStep(step) && ServeApproval(db, step).Some?
    ensures ServeApproval(db, step).value.turns == db.turns
  {
  }

  lemma RecoverKeepsTurns(db: Db, step: Step)
    requires RecoveryStep(step) && Recover(db, step).Some?
    ensures Recover(db, step).value.turns == db.turns
  {
  }

  lemma KeepsTurns(db: Db, step: Step, turn: Id)
    requires StopInv(db) && Next(db, step).Some? && turn in db.turns
    ensures turn in Next(db, step).value.turns
  {
    if step.DoCrash? {
    } else if RecoveryStep(step) {
      RecoverKeepsTurns(db, step);
    } else if TurnStep(step) {
      TurnKeepsTurns(db, step);
    } else if ApprovalStep(step) {
      ApprovalKeepsTurns(db, step);
    } else if QueueStep(step) {
      QueueSame(db, step);
    } else if RetryStep(step) {
      RetrySame(db, step);
    } else {
      VolatileSame(db, step);
    }
  }

  /** The turns of a session never overlap: once another one is live, the first is over for good. */
  lemma TurnsNeverOverlap(db: Db, first: seq<Step>, second: seq<Step>, session: Id, turn: Id, other: Id)
    requires Inv(db) && Run(db, first).Some? && Run(Run(db, first).value, second).Some?
    requires turn != other && Live(db, session, turn) && Live(Run(db, first).value, session, other)
    ensures !Live(Run(Run(db, first).value, second).value, session, turn)
  {
    var mid := Run(db, first).value;
    TurnsStay(db, first, turn);
    RunKeepsInv(db, first);
    EndedForGood(mid, second, session, turn);
  }

  // ---- Owner stop ----

  /** What happened since, as far as one stopped turn goes: no answer of it, and no decision of its approvals. */
  predicate Untouched(log: seq<Event>, from: nat, approvals: map<Id, Approval>, turn: Id) {
    forall i | from <= i < |log| ::
      && !(log[i].Answered? && log[i].turn == turn)
      && (log[i].Decided? ==> log[i].approval in approvals && approvals[log[i].approval].turn != turn)
  }

  /** Approvals stay with their turn, and the log only grows. */
  predicate Extends(db: Db, after: Db) {
    && (forall a | a in db.approvals :: a in after.approvals && after.approvals[a].turn == db.approvals[a].turn)
    && |db.log| <= |after.log| <= |db.log| + 1 && after.log[..|db.log|] == db.log
  }

  lemma TurnExtends(db: Db, step: Step)
    requires TurnStep(step) && ServeTurn(db, step).Some?
    ensures Extends(db, ServeTurn(db, step).value)
  {
  }

  lemma ApprovalExtends(db: Db, step: Step)
    requires ApprovalStep(step) && ServeApproval(db, step).Some?
    ensures Extends(db, ServeApproval(db, step).value)
  {
  }

  lemma RecoverExtends(db: Db, step: Step)
    requires RecoveryStep(step) && Recover(db, step).Some?
    ensures Extends(db, Recover(db, step).value)
  {
  }

  lemma StepExtends(db: Db, step: Step)
    requires Next(db, step).Some?
    ensures Extends(db, Next(db, step).value)
  {
    if step.DoCrash? {
    } else if RecoveryStep(step) {
      RecoverExtends(db, step);
    } else if TurnStep(step) {
      TurnExtends(db, step);
    } else if ApprovalStep(step) {
      ApprovalExtends(db, step);
    } else if QueueStep(step) {
      QueueClaims(db, step);
    } else if RetryStep(step) {
      RetryClaims(db, step);
    } else {
      VolatileLog(db, step);
    }
  }

  lemma VolatileLog(db: Db, step: Step)
    requires VolatileStep(step) && ServeVolatile(db, step).Some?
    ensures SameStops(db, ServeVolatile(db, step).value) && ServeVolatile(db, step).value.log == db.log
  {
  }

  lemma TurnRespectsStop(db: Db, step: Step, turn: Id)
    requires TurnStep(step) && ServeTurn(db, step).Some? && turn in db.controls
    ensures turn in ServeTurn(db, step).value.controls
    ensures Untouched(ServeTurn(db, step).value.log, |db.log|, ServeTurn(db, step).value.approvals, turn)
  {
  }

  lemma ApprovalRespectsStop(db: Db, step: Step, turn: Id)
    requires ApprovalStep(step) && ServeApproval(db, step).Some? && turn in db.controls
    ensures turn in ServeApproval(db, step).value.controls
    ensures Untouched(ServeApproval(db, step).value.log, |db.log|, ServeApproval(db, step).value.approvals, turn)
  {
  }

  lemma RecoverRespectsStop(db: Db, step: Step, turn: Id)
    requires RecoveryStep(step) && Recover(db, step).Some? && turn in db.controls
    ensures turn in Recover(db, step).value.controls
    ensures Untouched(Recover(db, step).value.log, |db.log|, Recover(db, step).value.approvals, turn)
  {
  }

  lemma StepRespectsStop(db: Db, step: Step, turn: Id)
    requires Next(db, step).Some? && turn in db.controls
    ensures turn in Next(db, step).value.controls
    ensures Untouched(Next(db, step).value.log, |db.log|, Next(db, step).value.approvals, turn)
  {
    if step.DoCrash? {
    } else if RecoveryStep(step) {
      RecoverRespectsStop(db, step, turn);
    } else if TurnStep(step) {
      TurnRespectsStop(db, step, turn);
    } else if ApprovalStep(step) {
      ApprovalRespectsStop(db, step, turn);
    } else if QueueStep(step) {
      QueueClaims(db, step);
    } else if RetryStep(step) {
      RetryClaims(db, step);
    } else {
      VolatileLog(db, step);
    }
  }

  lemma ControlStep(db: Db, step: Step, turn: Id)
    requires Next(db, step).Some? && turn in db.controls
    ensures turn in Next(db, step).value.controls
    ensures ControlMoves(db.controls[turn], Next(db, step).value.controls[turn])
  {
    if !step.DoAcquire? {
      StepSteady(db, step);
    }
  }

  /**
   * From the moment a stop row exists: no approval of that turn is decided and no completion of it commits, in any
   * continuation of the run, and the row moves only from stopping to review or stopped, where it stays.
   */
  lemma {:induction false} StopIsHonoured(db: Db, steps: seq<Step>, turn: Id)
    requires Run(db, steps).Some? && turn in db.controls
    ensures
      var after := Run(db, steps).value;
      && |db.log| <= |after.log| && after.log[..|db.log|] == db.log
      && turn in after.controls && ControlMoves(db.controls[turn], after.controls[turn])
      && Untouched(after.log, |db.log|, after.approvals, turn)
  {
    if steps != [] {
      var n := |steps| - 1;
      var before, after := Run(db, steps[..n]).value, Run(db, steps).value;
      StopIsHonoured(db, steps[..n], turn);
      ControlStep(before, steps[n], turn);
      StepRespectsStop(before, steps[n], turn);
      StepExtends(before, steps[n]);
      forall i | |db.log| <= i < |after.log|
        ensures !(after.log[i].Answered? && after.log[i].turn == turn)
        ensures after.log[i].Decided? ==>
          after.log[i].approval in after.approvals && after.approvals[after.log[i].approval].turn != turn
      {
        if i < |before.log| {
          assert after.log[i] == before.log[i];
        }
      }
    }
  }

  // ---- Blocked sessions ----

  /** A session that waits for a confirmed stop; during a recovery, by its stop row alone. */
  predicate Held(db: Db, session: Id) {
    && session in db.sessions
    && (if db.phase == Serving then db.sessions[session].state == ControlBlocked else UnderReview(db.controls, session))
  }

  predicate ConfirmedStop(db: Db, step: Step, session: Id) {
    && step.DoFinishStop? && step.confirmed && db.phase == Serving && session in db.sessions
    && db.sessions[session].activeTurn == step.turn
    && FinalState(db.approvals, step.turn, step.confirmed) == Stopped
  }

  lemma CrashHolds(db: Db, session: Id)
    requires StopInv(db) && Held(db, session)
    ensures Held(Crash(db).value, session)
  {
    if db.phase == Serving {
      assert UnderReview(db.controls, session) by {
        assert db.sessions[session].activeTurn in db.controls;
      }
    }
  }

  lemma RecoveryHolds(db: Db, step: Step, session: Id)
    requires StopInv(db) && Held(db, session) && RecoveryStep(step) && Recover(db, step).Some?
    ensures Held(Recover(db, step).value, session)
  {
    if step.DoRecoverControls? {
      var controls := Reviewed(db.controls);
      var t :| t in db.controls && db.controls[t].session == session && db.controls[t].state == NeedsReview;
      assert controls[t] == db.controls[t];
      assert UnderReview(controls, session);
    }
  }

  lemma TurnHolds(db: Db, step: Step, session: Id)
    requires db.phase == Serving && Held(db, session) && TurnStep(step) && ServeTurn(db, step).Some?
    ensures Held(ServeTurn(db, step).value, session)
  {
  }

  lemma FinishHolds(db: Db, turn: Id, confirmed: bool, session: Id)
    requires StopInv(db) && db.phase == Serving && Held(db, session) && FinishStop(db, turn, confirmed).Some?
    ensures Held(FinishStop(db, turn, confirmed).value, session) || ConfirmedStop(db, DoFinishStop(turn, confirmed), session)
  {
  }

  lemma ApprovalHolds(db: Db, step: Step, session: Id)
    requires StopInv(db) && db.phase == Serving && Held(db, session) && ApprovalStep(step) && ServeApproval(db, step).Some?
    ensures Held(ServeApproval(db, step).value, session) || ConfirmedStop(db, step, session)
  {
    if step.DoFinishStop? {
      FinishHolds(db, step.turn, step.confirmed, session);
    }
  }

  /** A blocked session is released only by a confirmed stop of the turn it names; a whole restart does not do it. */
  lemma HeldUntilConfirmed(db: Db, step: Step, session: Id)
    requires StopInv(db) && Held(db, session) && Next(db, step).Some?
    ensures Held(Next(db, step).value, session) || ConfirmedStop(db, step, session)
  {
    if step.DoCrash? {
      CrashHolds(db, session);
    } else if RecoveryStep(step) {
      RecoveryHolds(db, step, session);
    } else if TurnStep(step) {
      TurnHolds(db, step, session);
    } else if ApprovalStep(step) {
      ApprovalHolds(db, step, session);
    } else if QueueStep(step) {
      QueueClaims(db, step);
    } else if RetryStep(step) {
      RetryClaims(db, step);
    } else {
      VolatileHolds(db, step);
    }
  }

  lemma VolatileHolds(db: Db, step: Step)
    requires VolatileStep(step) && ServeVolatile(db, step).Some?
    ensures SameStops(db, ServeVolatile(db, step).value) && ServeVolatile(db, step).value.phase == db.phase
  {
  }

  /** No step of a run confirms the stop a session waits for. */
  predicate NeverConfirmed(db: Db, steps: seq<Step>, session: Id) {
    forall k | 0 <= k < |steps| && Run(db, steps[..k]).Some? :: !ConfirmedStop(Run(db, steps[..k]).value, steps[k], session)
  }

  lemma NeverConfirmedBefore(db: Db, steps: seq<Step>, session: Id)
    requires steps != [] && Run(db, steps).Some? && NeverConfirmed(db, steps, session)
    ensures Run(db, steps[..|steps| - 1]).Some? && NeverConfirmed(db, steps[..|steps| - 1], session)
    ensures !ConfirmedStop(Run(db, steps[..|steps| - 1]).value, steps[|steps| - 1], session)
  {
    var n := |steps| - 1;
    forall k | 0 <= k < n && Run(db, steps[..n][..k]).Some?
      ensures !ConfirmedStop(Run(db, steps[..n][..k]).value, steps[..n][k], session)
    {
      assert steps[..n][..k] == steps[..k];
    }
  }

  lemma HeldNext(before: Db, step: Step, after: Db, session: Id)
    requires Inv(before) && Held(before, session) && Next(before, step) == Some(after)
    requires !ConfirmedStop(before, step, session)
    ensures Held(after, session)
  {
    HeldUntilConfirmed(before, step, session);
  }

  /** So over any run without such a confirmation, crashes and restarts included, a blocked session stays blocked. */
  lemma {:induction false} BlockedThroughRestart(db: Db, steps: seq<Step>, session: Id)
    requires Inv(db) && Held(db, session) && Run(db, steps).Some? && NeverConfirmed(db, steps, session)
    ensures Held(Run(db, steps).value, session)
  {
    if steps != [] {
      var n := |steps| - 1;
      NeverConfirmedBefore(db, steps, session);
      BlockedThroughRestart(db, steps[..n], session);
      RunKeepsInv(db, steps[..n]);
      HeldNext(Run(db, steps[..n]).value, steps[n], Run(db, steps).value, session);
    }
  }

  // ---- Paused continuation ----

  lemma {:induction false} PausedForGood(db: Db, steps: seq<Step>, session: Id)
    requires Run(db, steps).Some?
    requires session in db.retries && db.retries[session].state == RetryPaused
    ensures
      var after := Run(db, steps).value;
      session in after.retries && after.retries[session].state == RetryPaused
  {
    if steps != [] {
      var n := |steps| - 1;
      PausedForGood(db, steps[..n], session);
      PausedStays(Run(db, steps[..n]).value, steps[n], session);
    }
  }

  // ---- What the machine does not promise ----

  /** A stop that ends under review blocks its session exactly if the session still names the turn when it ends. */
  lemma ReviewBlocksExactly(db: Db, turn: Id, confirmed: bool)
    requires StopInv(db) && FinishStop(db, turn, confirmed).Some?
    requires FinalState(db.approvals, turn, confirmed) == NeedsReview
    ensures
      var after, session := FinishStop(db, turn, confirmed).value, db.controls[turn].session;
      && after.controls[turn].state == NeedsReview
      && (Holds(after, session, turn, ControlBlocked) <==> db.sessions[session].activeTurn == turn)
  {
  }

  /** blockContinuation frees a lease under stop, so a stop under review need not block its session. */
  lemma BlockEscapesReview(db: Db, session: Id, turn: Id)
    requires StopInv(db) && Holds(db, session, turn, Running) && turn in db.controls && db.controls[turn].state == Stopping
    ensures
      var released := BlockContinuation(db, session, turn);
      && released.Some? && FinishStop(released.value, turn, false).Some?
      && var after := FinishStop(released.value, turn, false).value;
         after.controls[turn].state == NeedsReview && after.sessions[session].state == Idle
  {
    var released := BlockContinuation(db, session, turn).value;
    ReleasedStop(db, session);
    assert !Holds(FinishStop(released, turn, false).value, session, turn, ControlBlocked) by {
      ReviewBlocksExactly(released, turn, false);
    }
  }

  lemma OneMore(steps: seq<Step>, db: Db, step: Step)
    requires Run(EMPTY_DB, steps) == Some(db) && Next(db, step).Some?
    ensures Run(EMPTY_DB, steps + [step]) == Next(db, step)
  {
    assert (steps + [step])[..|steps|] == steps;
  }

  /** A stop, then the loss of the lease to a contract that drifted, then the unconfirmed end of the stop. */
  function DriftUnderStop(session: Id, turn: Id, at: int): seq<Step> {
    [DoStop(session, turn, at)] + [DoBlock(session, turn)] + [DoFinishStop(turn, false)]
  }

  predicate ReviewUnblocked(db: Db, session: Id, turn: Id) {
    && turn in db.controls && db.controls[turn].session == session && db.controls[turn].state == NeedsReview
    && Holds(db, session, "", Idle)
  }

  lemma StopLeaves(db: Db, session: Id, turn: Id, at: int)
    requires db.phase == Serving && Holds(db, session, turn, Running) && turn != "" && turn !in db.controls
    ensures
      var stopping := Next(db, DoStop(session, turn, at));
      && stopping.Some? && stopping.value.phase == Serving && Holds(stopping.value, session, turn, Running)
      && turn in stopping.value.controls && stopping.value.controls[turn] == Control(session, Stopping, at)
  {
  }

  lemma BlockLeaves(db: Db, session: Id, turn: Id)
    requires db.phase == Serving && Holds(db, session, turn, Running) && turn != ""
    ensures Next(db, DoBlock(session, turn)) == BlockContinuation(db, session, turn)
    ensures BlockContinuation(db, session, turn).Some? && BlockContinuation(db, session, turn).value.phase == Serving
  {
  }

  /** From every reachable state that runs a turn nobody stopped, a run goes on to a stop under review that blocks nothing. */
  lemma ReviewWithoutBlock(steps: seq<Step>, session: Id, turn: Id, at: int)
    requires Run(EMPTY_DB, steps).Some? && Run(EMPTY_DB, steps).value.phase == Serving
    requires Holds(Run(EMPTY_DB, steps).value, session, turn, Running) && turn !in Run(EMPTY_DB, steps).value.controls
    ensures Run(EMPTY_DB, steps + DriftUnderStop(session, turn, at)).Some?
    ensures ReviewUnblocked(Run(EMPTY_DB, steps + DriftUnderStop(session, turn, at)).value, session, turn)
  {
    var db := Run(EMPTY_DB, steps).value;
    Reachable(steps);
    assert turn != "";
    StopLeaves(db, session, turn, at);
    OneMore(steps, db, DoStop(session, turn, at));
    var stopped := steps + [DoStop(session, turn, at)];
    Reachable(stopped);
    DriftLeaves(stopped, session, turn);
    assert steps + DriftUnderStop(session, turn, at) == stopped + [DoBlock(session, turn)] + [DoFinishStop(turn, false)];
  }

  lemma DriftLeaves(steps: seq<Step>, session: Id, turn: Id)
    requires Run(EMPTY_DB, steps).Some? && Inv(Run(EMPTY_DB, steps).value) && Run(EMPTY_DB, steps).value.phase == Serving
    requires Holds(Run(EMPTY_DB, steps).value, session, turn, Running) && turn != ""
    requires turn in Run(EMPTY_DB, steps).value.controls && Run(EMPTY_DB, steps).value.controls[turn].state == Stopping
    ensures Run(EMPTY_DB, steps + [DoBlock(session, turn)] + [DoFinishStop(turn, false)]).Some?
    ensures ReviewUnblocked(Run(EMPTY_DB, steps + [DoBlock(session, turn)] + [DoFinishStop(turn, false)]).value, session, turn)
  {
    var db := Run(EMPTY_DB, steps).value;
    BlockLeaves(db, session, turn);
    BlockEscapesReview(db, session, turn);
    OneMore(steps, db, DoBlock(session, turn));
    var released := BlockContinuation(db, session, turn).value;
    ReleasedStop(db, session);
    EndsUnblocked(db, released, session, turn);
    OneMore(steps + [DoBlock(session, turn)], released, DoFinishStop(turn, false));
  }

  lemma EndsUnblocked(db: Db, released: Db, session: Id, turn: Id)
    requires StopInv(db) && StopInv(released) && BlockContinuation(db, session, turn) == Some(released)
    requires released.phase == Serving && turn in db.controls && db.controls[turn].state == Stopping
    requires Holds(db, session, turn, Running)
    ensures Next(released, DoFinishStop(turn, false)) == FinishStop(released, turn, false)
    ensures FinishStop(released, turn, false).Some?
    ensures ReviewUnblocked(FinishStop(released, turn, false).value, session, turn)
  {
  }

  /** Such a state is reached: a session opens, and a turn in it. */
  lemma RunningReachable()
    ensures
      var last := Run(EMPTY_DB, [DoOpenSession("session", false)] + [DoAcquire("session", "turn", Manual("key"), "event")]);
      && last.Some? && last.value.phase == Serving && Holds(last.value, "session", "turn", Running)
      && "turn" !in last.value.controls
  {
    var begun := OpenSession(EMPTY_DB, "session", false).value;
    assert [] + [DoOpenSession("session", false)] == [DoOpenSession("session", false)];
    OneMore([], EMPTY_DB, DoOpenSession("session", false));
    OneMore([DoOpenSession("session", false)], begun, DoAcquire("session", "turn", Manual("key"), "event"));
  }
}
