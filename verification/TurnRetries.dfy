/** Automatic continuation: bounded between two turns the owner opened, and never revived once paused. */
module TurnRetries {
  import opened Wrappers
  import opened TurnStore
  import opened TurnQueue

  /** Automatic turns of a session since its last turn that was not automatic. */
  function AutoSince(log: seq<Event>, session: Id): nat {
    if log == [] then 0
    else
      var e := log[|log| - 1];
      var before := AutoSince(log[..|log| - 1], session);
      if !e.TurnOpened? || e.session != session then before
      else if e.entry.Automatic? then before + 1
      else 0
  }

  /** Every automatic turn was paid for by one attempt, and a claimed attempt not yet spent is still owed one. */
  predicate Budgeted(log: seq<Event>, retries: map<Id, Retry>, session: Id) {
    if session !in retries then AutoSince(log, session) == 0
    else
      var owed := if retries[session].state == RetryRunning then 1 else 0;
      AutoSince(log, session) + owed <= retries[session].attempts <= MAX_ATTEMPTS
  }

  /** At every moment of a history the current burst of automatic turns is within the allowance. */
  ghost predicate BurstsBounded(log: seq<Event>) {
    forall s: Id, n | 0 <= n <= |log| :: AutoSince(log[..n], s) <= MAX_ATTEMPTS
  }

  ghost predicate RetryInv(db: Db) {
    (forall s: Id :: Budgeted(db.log, db.retries, s)) && BurstsBounded(db.log)
  }

  // ---- How schedules move ----

  /** No attempt is added, none starts, and a paused schedule stays paused. */
  predicate RetryMoves(before: Retry, after: Retry) {
    && after.attempts == before.attempts
    && (after.state == RetryRunning ==> before.state == RetryRunning)
    && (before.state == RetryPaused ==> after.state == RetryPaused)
  }

  predicate RetriesKept(before: map<Id, Retry>, after: map<Id, Retry>) {
    && (forall s | s in before :: s in after && RetryMoves(before[s], after[s]))
    && (forall s | s in after && s !in before :: after[s].attempts == 0 && after[s].state != RetryRunning)
  }

  lemma ScheduleKept(db: Db, session: Id, event: Id, unfinished: bool)
    requires session in db.sessions
    ensures RetriesKept(db.retries, Schedule(db, session, event, unfinished))
  {
  }

  lemma TurnRetriesKept(db: Db, step: Step)
    requires TurnStep(step) && !step.DoAcquire? && ServeTurn(db, step).Some?
    ensures RetriesKept(db.retries, ServeTurn(db, step).value.retries)
  {
    if step.DoComplete? {
      ScheduleKept(db, step.session, step.event, step.unfinished);
    } else if step.DoFail? {
      ScheduleKept(db, step.session, step.event, true);
    }
  }

  lemma ApprovalRetriesSame(db: Db, step: Step)
    requires ApprovalStep(step) && ServeApproval(db, step).Some?
    ensures ServeApproval(db, step).value.retries == db.retries
  {
  }

  lemma QueueRetriesSame(db: Db, step: Step)
    requires QueueStep(step) && ServeQueue(db, step).Some?
    ensures ServeQueue(db, step).value.retries == db.retries
  {
  }

  lemma RetryStepKept(db: Db, step: Step)
    requires RetryStep(step) && !step.DoClaimRetry? && ServeRetry(db, step).Some?
    ensures RetriesKept(db.retries, ServeRetry(db, step).value.retries)
  {
  }

  lemma RecoverRetriesKept(db: Db, step: Step)
    requires RecoveryStep(step) && Recover(db, step).Some?
    ensures RetriesKept(db.retries, Recover(db, step).value.retries)
  {
    if step.DoAdoptOutcomes? {
      AdoptKept(db);
    }
  }

  lemma AdoptKept(db: Db)
    requires AdoptOutcomes(db).Some?
    ensures RetriesKept(db.retries, AdoptOutcomes(db).value.retries)
  {
  }

  lemma StepRetries(db: Db, step: Step)
    requires !step.DoAcquire? && !step.DoClaimRetry? && Next(db, step).Some?
    ensures RetriesKept(db.retries, Next(db, step).value.retries)
  {
    if step.DoCrash? {
    } else if RecoveryStep(step) {
      RecoverRetriesKept(db, step);
    } else if TurnStep(step) {
      TurnRetriesKept(db, step);
    } else if ApprovalStep(step) {
      ApprovalRetriesSame(db, step);
    } else if QueueStep(step) {
      QueueRetriesSame(db, step);
    } else if RetryStep(step) {
      RetryStepKept(db, step);
    }
  }

  // ---- The allowance ----

  lemma QuietCount(before: seq<Event>, after: seq<Event>, session: Id)
    requires QuietLog(before, after)
    ensures AutoSince(after, session) == AutoSince(before, session)
  {
  }

  lemma BurstsGrow(before: seq<Event>, after: seq<Event>)
    requires BurstsBounded(before)
    requires after == before || (|after| == |before| + 1 && after[..|before|] == before)
    requires forall s: Id :: AutoSince(after, s) <= MAX_ATTEMPTS
    ensures BurstsBounded(after)
  {
    forall s: Id, n | 0 <= n <= |after| ensures AutoSince(after[..n], s) <= MAX_ATTEMPTS {
      if n <= |before| {
        assert after[..n] == before[..n];
      } else {
        assert after[..n] == after;
      }
    }
  }

  lemma KeptIsBudgeted(db: Db, after: Db)
    requires RetryInv(db) && QuietLog(db.log, after.log) && RetriesKept(db.retries, after.retries)
    ensures RetryInv(after)
  {
    forall s: Id ensures Budgeted(after.log, after.retries, s) && AutoSince(after.log, s) <= MAX_ATTEMPTS {
      QuietCount(db.log, after.log, s);
      assert Budgeted(db.log, db.retries, s);
    }
    BurstsGrow(db.log, after.log);
  }

  lemma AcquireBudget(db: Db, session: Id, turn: Id, entry: Entry, event: Id)
    requires RetryInv(db) && Acquire(db, session, turn, entry, event).Some?
    ensures RetryInv(Acquire(db, session, turn, entry, event).value)
  {
    var after := Acquire(db, session, turn, entry, event).value;
    assert after.log == db.log + [TurnOpened(session, event, turn, entry)];
    assert after.log[..|db.log|] == db.log;
    forall s: Id ensures Budgeted(after.log, after.retries, s) && AutoSince(after.log, s) <= MAX_ATTEMPTS {
      assert Budgeted(db.log, db.retries, s);
    }
    BurstsGrow(db.log, after.log);
  }

  lemma ClaimBudget(db: Db, session: Id, source: Id)
    requires RetryInv(db) && ClaimRetry(db, session, source).Some?
    ensures RetryInv(ClaimRetry(db, session, source).value)
  {
    var after := ClaimRetry(db, session, source).value;
    forall s: Id ensures Budgeted(after.log, after.retries, s) {
      assert Budgeted(db.log, db.retries, s);
    }
  }

  lemma KeepsRetries(db: Db, step: Step)
    requires RetryInv(db) && Next(db, step).Some?
    ensures RetryInv(Next(db, step).value)
  {
    if step.DoAcquire? {
      AcquireBudget(db, step.session, step.turn, step.entry, step.event);
    } else if step.DoClaimRetry? {
      ClaimBudget(db, step.session, step.source);
    } else {
      StepRetries(db, step);
      StepSteady(db, step);
      KeptIsBudgeted(db, Next(db, step).value);
    }
  }

  /** No step, restart included, revives a paused schedule. */
  lemma PausedStays(db: Db, step: Step, session: Id)
    requires Next(db, step).Some?
    requires session in db.retries && db.retries[session].state == RetryPaused
    ensures session in Next(db, step).value.retries && Next(db, step).value.retries[session].state == RetryPaused
  {
    if !step.DoAcquire? && !step.DoClaimRetry? {
      StepRetries(db, step);
      assert RetryMoves(db.retries[session], Next(db, step).value.retries[session]);
    }
  }
}
