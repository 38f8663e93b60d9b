/** Keys and queued messages: each opens at most one turn, and a steer only after its base turn is confirmed stopped. */
module TurnQueue {
  import opened Wrappers
  import opened TurnStore
  import opened TurnStops

  // ---- What no step undoes ----

  /** Stop rows stay, in their session, and only move from stopping to review or stopped; stopped is final. */
  predicate ControlMoves(before: Control, after: Control) {
    && after.session == before.session && after.requestedAt == before.requestedAt
    && (before.state == NeedsReview ==> after.state != Stopping)
    && (before.state == Stopped ==> after.state == Stopped)
  }

  predicate ControlsKept(before: map<Id, Control>, after: map<Id, Control>) {
    forall t | t in before :: t in after && ControlMoves(before[t], after[t])
  }

  /** Queue rows stay what they were asked for, and keep the turn they opened. */
  predicate RowMoves(before: QueueRow, after: QueueRow) {
    && after.session == before.session && after.mode == before.mode && after.baseTurn == before.baseTurn
    && (before.turn != "" ==> after.turn == before.turn)
    && (after.state == RowQueued ==> before.state == RowQueued && after.turn == before.turn)
  }

  predicate RowsKept(before: map<Id, QueueRow>, after: map<Id, QueueRow>) {
    forall q | q in before :: q in after && RowMoves(before[q], after[q])
  }

  /** The log grows by at most one event, and it opens no turn. */
  predicate QuietLog(before: seq<Event>, after: seq<Event>) {
    after == before || (|after| == |before| + 1 && after[..|before|] == before && !after[|before|].TurnOpened?)
  }

  predicate RowsFresh(queue: map<Id, QueueRow>) {
    forall q | q in queue && queue[q].state == RowQueued :: queue[q].turn == ""
  }

  predicate NewRowsFresh(before: map<Id, QueueRow>, after: map<Id, QueueRow>) {
    forall q | q in after && q !in before && after[q].state == RowQueued :: after[q].turn == ""
  }

  predicate Steady(db: Db, after: Db) {
    && ControlsKept(db.controls, after.controls) && RowsKept(db.queue, after.queue)
    && NewRowsFresh(db.queue, after.queue) && QuietLog(db.log, after.log) && after.keys == db.keys
  }

  lemma SettledRowsKept(queue: map<Id, QueueRow>, turn: Id, state: RowState)
    requires state != RowQueued
    ensures RowsKept(queue, SettleRows(queue, turn, state)) && NewRowsFresh(queue, SettleRows(queue, turn, state))
  {
  }

  lemma TurnSteady(db: Db, step: Step)
    requires TurnStep(step) && !step.DoAcquire? && ServeTurn(db, step).Some?
    ensures Steady(db, ServeTurn(db, step).value)
  {
    if step.DoComplete? {
      SettledRowsKept(db.queue, step.turn, RowCompleted);
    } else if step.DoFail? {
      SettledRowsKept(db.queue, step.turn, RowFailed);
    }
  }

  lemma ApprovalSteady(db: Db, step: Step)
    requires ApprovalStep(step) && ServeApproval(db, step).Some?
    ensures Steady(db, ServeApproval(db, step).value)
  {
    if step.DoFinishStop? {
      FinishSteady(db, step.turn, step.confirmed);
    }
  }

  lemma FinishSteady(db: Db, turn: Id, confirmed: bool)
    requires FinishStop(db, turn, confirmed).Some?
    ensures Steady(db, FinishStop(db, turn, confirmed).value)
  {
    var final := FinalState(db.approvals, turn, confirmed);
    SettledRowsKept(db.queue, turn, if final == Stopped then RowCancelled else RowNeedsReview);
  }

  lemma EnqueueSteady(db: Db, row: Id, session: Id, mode: Mode, baseTurn: Id)
    requires Enqueue(db, row, session, mode, baseTurn).Some?
    ensures Steady(db, Enqueue(db, row, session, mode, baseTurn).value)
  {
  }

  lemma RowSteady(db: Db, row: Id, state: RowState)
    requires row in db.queue && state != RowQueued
    ensures Steady(db, WithRow(db, row, state))
  {
  }

  lemma QueueSteady(db: Db, step: Step)
    requires QueueStep(step) && ServeQueue(db, step).Some?
    ensures Steady(db, ServeQueue(db, step).value)
  {
    match step
    case DoEnqueue(row, session, mode, baseTurn) => EnqueueSteady(db, row, session, mode, baseTurn);
    case DoQuarantine(row) => RowSteady(db, row, RowNeedsReview);
    case DoCancelRow(row) => RowSteady(db, row, RowCancelled);
    case DoPick(row) =>
    case DoFinishDrain(row, outcome) => DrainSteady(db, row, outcome);
  }

  lemma DrainSteady(db: Db, row: Id, outcome: RowState)
    requires FinishDrain(db, row, outcome).Some?
    ensures Steady(db, FinishDrain(db, row, outcome).value)
  {
  }

  lemma RetrySteady(db: Db, step: Step)
    requires RetryStep(step) && ServeRetry(db, step).Some?
    ensures Steady(db, ServeRetry(db, step).value)
  {
  }

  lemma VolatileSteady(db: Db, step: Step)
    requires VolatileStep(step) && ServeVolatile(db, step).Some?
    ensures Steady(db, ServeVolatile(db, step).value)
  {
  }

  lemma RecoverSteady(db: Db, step: Step)
    requires RecoveryStep(step) && Recover(db, step).Some?
    ensures Steady(db, Recover(db, step).value)
  {
  }

  lemma StepSteady(db: Db, step: Step)
    requires !step.DoAcquire? && Next(db, step).Some?
    ensures Steady(db, Next(db, step).value)
  {
    if step.DoCrash? {
    } else if RecoveryStep(step) {
      RecoverSteady(db, step);
    } else if TurnStep(step) {
      TurnSteady(db, step);
    } else if ApprovalStep(step) {
      ApprovalSteady(db, step);
    } else if QueueStep(step) {
      QueueSteady(db, step);
    } else if RetryStep(step) {
      RetrySteady(db, step);
    } else {
      VolatileSteady(db, step);
    }
  }

  // ---- One turn a key, one turn a row ----

  predicate KeysRecorded(log: seq<Event>, keys: map<(Id, string), Id>) {
    forall i | 0 <= i < |log| && log[i].TurnOpened? && log[i].entry.Key() != "" ::
      (log[i].session, log[i].entry.Key()) in keys
  }

  /** No two turns of a session open under the same key. */
  predicate KeysOnce(log: seq<Event>) {
    forall i, j | 0 <= i < j < |log| && log[i].TurnOpened? && log[j].TurnOpened? ::
      log[i].session != log[j].session || log[i].entry.Key() != log[j].entry.Key() || log[j].entry.Key() == ""
  }

  /** A row is known, belongs to this session, and if it is a steer its base turn is confirmed stopped. */
  predicate RowMayOpen(queue: map<Id, QueueRow>, controls: map<Id, Control>, row: Id, session: Id) {
    && row in queue && queue[row].session == session
    && (queue[row].mode == Steer ==>
          && queue[row].baseTurn in controls && controls[queue[row].baseTurn].session == session
          && controls[queue[row].baseTurn].state == Stopped)
  }

  predicate RowsJustified(log: seq<Event>, queue: map<Id, QueueRow>, controls: map<Id, Control>) {
    forall i | 0 <= i < |log| && log[i].TurnOpened? && log[i].entry.FromQueue? ::
      RowMayOpen(queue, controls, log[i].entry.row, log[i].session)
  }

  predicate DrainJustified(db: Db) {
    db.draining.Some? && db.draining.value in db.queue ==>
      RowMayOpen(db.queue, db.controls, db.draining.value, db.queue[db.draining.value].session)
  }

  predicate QueueInv(db: Db) {
    && KeysRecorded(db.log, db.keys) && KeysOnce(db.log) && RowsFresh(db.queue)
    && RowsJustified(db.log, db.queue, db.controls) && DrainJustified(db)
    && (db.draining.Some? ==> db.draining.value in db.queue)
  }

  lemma StaysJustified(db: Db, after: Db, row: Id, session: Id)
    requires ControlsKept(db.controls, after.controls) && RowsKept(db.queue, after.queue)
    requires RowMayOpen(db.queue, db.controls, row, session)
    ensures RowMayOpen(after.queue, after.controls, row, session)
  {
    assert RowMoves(db.queue[row], after.queue[row]);
    if db.queue[row].mode == Steer {
      assert ControlMoves(db.controls[db.queue[row].baseTurn], after.controls[db.queue[row].baseTurn]);
    }
  }

  lemma QuietLogJustified(db: Db, after: Db)
    requires QueueInv(db) && Steady(db, after)
    ensures KeysRecorded(after.log, after.keys) && KeysOnce(after.log) && RowsFresh(after.queue)
    ensures RowsJustified(after.log, after.queue, after.controls)
  {
    assert forall i | 0 <= i < |after.log| && after.log[i].TurnOpened? :: i < |db.log| && after.log[i] == db.log[i];
    forall i | 0 <= i < |after.log| && after.log[i].TurnOpened? && after.log[i].entry.FromQueue?
      ensures RowMayOpen(after.queue, after.controls, after.log[i].entry.row, after.log[i].session)
    {
      StaysJustified(db, after, db.log[i].entry.row, db.log[i].session);
    }
    forall q | q in after.queue && after.queue[q].state == RowQueued ensures after.queue[q].turn == "" {
      if q in db.queue {
        assert RowMoves(db.queue[q], after.queue[q]);
      }
    }
  }

  predicate DrainKept(db: Db, after: Db) {
    after.draining == db.draining || after.draining == None
  }

  lemma TurnDrain(db: Db, step: Step)
    requires TurnStep(step) && ServeTurn(db, step).Some?
    ensures DrainKept(db, ServeTurn(db, step).value)
  {
  }

  lemma ApprovalDrain(db: Db, step: Step)
    requires ApprovalStep(step) && ServeApproval(db, step).Some?
    ensures DrainKept(db, ServeApproval(db, step).value)
  {
  }

  lemma RecoverDrain(db: Db, step: Step)
    requires RecoveryStep(step) && Recover(db, step).Some?
    ensures DrainKept(db, Recover(db, step).value)
  {
  }

  lemma QueueDrain(db: Db, step: Step)
    requires QueueStep(step) && !step.DoPick? && ServeQueue(db, step).Some?
    ensures DrainKept(db, ServeQueue(db, step).value)
  {
  }

  lemma RetryDrain(db: Db, step: Step)
    requires RetryStep(step) && ServeRetry(db, step).Some?
    ensures DrainKept(db, ServeRetry(db, step).value)
  {
  }

  lemma VolatileDrain(db: Db, step: Step)
    requires VolatileStep(step) && ServeVolatile(db, step).Some?
    ensures DrainKept(db, ServeVolatile(db, step).value)
  {
  }

  lemma DrainingMoves(db: Db, step: Step)
    requires Next(db, step).Some? && !step.DoPick?
    ensures DrainKept(db, Next(db, step).value)
  {
    if step.DoCrash? {
    } else if RecoveryStep(step) {
      RecoverDrain(db, step);
    } else if TurnStep(step) {
      TurnDrain(db, step);
    } else if ApprovalStep(step) {
      ApprovalDrain(db, step);
    } else if QueueStep(step) {
      QueueDrain(db, step);
    } else if RetryStep(step) {
      RetryDrain(db, step);
    } else {
      VolatileDrain(db, step);
    }
  }

  lemma SteadyKeepsQueue(db: Db, step: Step)
    requires QueueInv(db) && !step.DoAcquire? && Next(db, step).Some?
    ensures QueueInv(Next(db, step).value)
  {
    var after := Next(db, step).value;
    StepSteady(db, step);
    QuietLogJustified(db, after);
    if step.DoPick? {
      assert after == db.(draining := Some(step.row));
    } else {
      DrainingMoves(db, step);
      if after.draining.Some? {
        StaysJustified(db, after, db.draining.value, db.queue[db.draining.value].session);
      }
    }
  }

  lemma AcquireKeepsQueue(db: Db, session: Id, turn: Id, entry: Entry, event: Id)
    requires QueueInv(db) && Acquire(db, session, turn, entry, event).Some?
    ensures QueueInv(Acquire(db, session, turn, entry, event).value)
    ensures RowsKept(db.queue, Acquire(db, session, turn, entry, event).value.queue)
  {
    var after := Acquire(db, session, turn, entry, event).value;
    assert after.log == db.log + [TurnOpened(session, event, turn, entry)];
    assert RowsKept(db.queue, after.queue);
    forall i | 0 <= i < |after.log| && after.log[i].TurnOpened? && after.log[i].entry.FromQueue?
      ensures RowMayOpen(after.queue, after.controls, after.log[i].entry.row, after.log[i].session)
    {
      if i < |db.log| {
        StaysJustified(db, after, db.log[i].entry.row, db.log[i].session);
      } else {
        StaysJustified(db, after, entry.row, session);
      }
    }
    if after.draining.Some? {
      StaysJustified(db, after, db.draining.value, db.queue[db.draining.value].session);
    }
  }

  lemma KeepsQueue(db: Db, step: Step)
    requires QueueInv(db) && Next(db, step).Some?
    ensures QueueInv(Next(db, step).value)
  {
    if step.DoAcquire? {
      AcquireKeepsQueue(db, step.session, step.turn, step.entry, step.event);
    } else {
      SteadyKeepsQueue(db, step);
    }
  }

  /** So a queued message opens at most one turn ever, and so does an outcome that is continued automatically. */
  lemma OneTurnEach(log: seq<Event>, queue: map<Id, QueueRow>, controls: map<Id, Control>, i: nat, j: nat)
    requires KeysOnce(log) && RowsJustified(log, queue, controls)
    requires i < j < |log| && log[i].TurnOpened? && log[j].TurnOpened?
    ensures log[i].entry.FromQueue? ==> log[i].entry != log[j].entry
    ensures log[i].entry.Automatic? && log[i].session == log[j].session ==> log[i].entry != log[j].entry
  {
  }
}
