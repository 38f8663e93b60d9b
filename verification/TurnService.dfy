/**
 * The service object that owns the tables. Each request is one transaction, written statement by statement (the Write
 * methods), one step of the machine, and keeps every invariant of its runs; a guard that
 * refuses leaves every table as it was. Startup runs the recoveries in their fixed order.
 */
module TurnService {
  import opened Wrappers
  import opened TurnStore
  import opened TurnStops
  import opened TurnClaims
  import opened TurnRetries
  import opened TurnOutcomes
  import opened TurnRuns

  class Service {
    var sessions: map<Id, Session>
    var turns: map<Id, Id>
    var approvals: map<Id, Approval>
    var controls: map<Id, Control>
    var queue: map<Id, QueueRow>
    var retries: map<Id, Retry>
    var keys: map<(Id, string), Id>
    var autoMode: set<Id>
    var log: seq<Event>
    var executions: set<Id>
    var checked: set<Id>
    var draining: Option<Id>
    var phase: Phase

    function Tables(): Db
      reads this
    {
      Db(sessions, turns, approvals, controls, queue, retries, keys, autoMode, log, executions, checked, draining, phase)
    }

    /** Between two requests: the machine is serving and keeps every invariant of its runs. */
    ghost predicate Valid()
      reads this
    {
      phase == Serving && Inv(Tables())
    }

    /** The request took one step of the machine, or was refused and changed nothing. */
    twostate predicate Stepped(step: Step, ok: bool)
      reads this
    {
      if ok then Next(old(Tables()), step) == Some(Tables())
      else Next(old(Tables()), step) == None && Tables() == old(Tables())
    }

    constructor ()
      ensures Valid() && Tables() == EMPTY_DB
    {
      sessions, turns, approvals, controls := map[], map[], map[], map[];
      queue, retries, keys, autoMode, log := map[], map[], map[], {}, [];
      executions, checked, draining, phase := {}, {}, None, Serving;
      new;
      EmptyIsGood();
    }

    /** The process starts again on the tables another one left, wherever it stopped. */
    constructor Reopen(tables: Db)
      requires Inv(tables)
      ensures Restarted() && Tables() == Crash(tables).value
    {
      sessions, turns, approvals, controls := tables.sessions, tables.turns, tables.approvals, tables.controls;
      queue, retries, keys, autoMode, log := tables.queue, tables.retries, tables.keys, tables.autoMode, tables.log;
      executions, checked, draining, phase := {}, {}, None, QueueRecovery;
      new;
      KeepsInv(tables, DoCrash);
    }

    /** Before the recoveries: the tables keep every invariant, and nothing volatile is left. */
    ghost predicate Restarted()
      reads this
    {
      phase == QueueRecovery && Inv(Tables()) && CleanSoFar(Tables())
    }

    method CreateSession(session: Id, retryDisabled: bool) returns (ok: bool)
      requires Valid()
      modifies this`sessions
      ensures Valid() && Stepped(DoOpenSession(session, retryDisabled), ok)
    {
      ghost var before := Tables();
      ok := session !in sessions;
      if ok {
        sessions := sessions[session := Session(Idle, "", retryDisabled)];
      }
      Commits(before, DoOpenSession(session, retryDisabled), ok, Tables());
    }

    /** internal/agent/service.go:750-855, acquireTurn. */
    method AcquireTurn(session: Id, turn: Id, entry: Entry, event: Id) returns (ok: bool)
      requires Valid()
      modifies this
      ensures Valid() && Stepped(DoAcquire(session, turn, entry, event), ok)
      ensures ok ==> OpenedAs(old(Tables()), Tables(), session, turn, entry, event)
    {
      ghost var before := Tables();
      ok := CheckOpening(session, turn, entry);
      if ok {
        CommitOpening(session, turn, entry, event, entry.Key());
      }
      Commits(before, DoAcquire(session, turn, entry, event), ok, Tables());
      if ok {
        OpeningCommits(before, session, turn, entry, event);
      }
    }

    method CheckOpening(session: Id, turn: Id, entry: Entry) returns (ok: bool)
      ensures ok <==> MayOpen(Tables(), session, turn, entry)
    {
      if turn == "" || turn in turns || (entry.Key() != "" && (session, entry.Key()) in keys) {
        return false;
      }
      if !EntryAllowed(Tables(), session, entry) {
        return false;
      }
      return session in sessions && sessions[session].state == Idle && sessions[session].activeTurn == "";
    }

    method CommitOpening(session: Id, turn: Id, entry: Entry, event: Id, key: string)
      requires session in sessions && (entry.FromQueue? ==> entry.row in queue)
      modifies this
      ensures Tables() == Opened(old(Tables()), session, turn, entry, event, key)
    {
      TakeLease(session, turn, entry);
      RecordOpening(session, turn, entry, event, key);
    }

    method TakeLease(session: Id, turn: Id, entry: Entry)
      requires session in sessions && (entry.FromQueue? ==> entry.row in queue)
      modifies this`sessions, this`retries, this`queue
      ensures sessions == old(sessions)[session := old(sessions)[session].(state := Running, activeTurn := turn)]
      ensures retries == RetriesOnOpen(old(retries), session, entry.Automatic?)
      ensures queue == QueueOnOpen(old(queue), entry, turn)
    {
      var cancelled := CancelSchedule(session, entry.Automatic?);
      sessions := sessions[session := sessions[session].(state := Running, activeTurn := turn)];
      retries := cancelled;
      queue := QueueOnOpen(queue, entry, turn);
    }

    method RecordOpening(session: Id, turn: Id, entry: Entry, event: Id, key: string)
      modifies this`log, this`turns, this`keys
      ensures log == old(log) + [TurnOpened(session, event, turn, entry)] && turns == old(turns)[turn := session]
      ensures keys == if key == "" then old(keys) else old(keys)[(session, key) := turn]
    {
      log, turns := log + [TurnOpened(session, event, turn, entry)], turns[turn := session];
      if key != "" {
        keys := keys[(session, key) := turn];
      }
    }

    method CancelSchedule(session: Id, automatic: bool) returns (after: map<Id, Retry>)
      ensures after == RetriesOnOpen(retries, session, automatic)
    {
      after := retries;
      if session in after && after[session].state != RetryPaused {
        after := after[session := after[session].(state := RetryCancelled)];
      }
      if !automatic && session in after {
        after := after[session := after[session].(attempts := 0)];
      }
    }

    /** The lease of a running turn that no stop row names. */
    method ReleaseUnlessStopped(session: Id, turn: Id) returns (ok: bool)
      modifies this`sessions
      ensures ok <==> Holds(old(Tables()), session, turn, Running) && turn != "" && turn !in controls
      ensures Tables() == if ok then Released(old(Tables()), session) else old(Tables())
    {
      if session !in sessions || sessions[session].state != Running || sessions[session].activeTurn != turn
         || turn == "" || turn in controls {
        return false;
      }
      sessions := sessions[session := sessions[session].(state := Idle, activeTurn := "")];
      return true;
    }

    /** internal/agent/retry.go:28-47, scheduleRetryTx. */
    method ScheduleRetry(session: Id, event: Id, unfinished: bool)
      requires session in sessions
      modifies this`retries
      ensures retries == Schedule(old(Tables()), session, event, unfinished)
    {
      if unfinished && sessions[session].retryDisabled {
        return;
      }
      if session !in retries {
        if unfinished {
          retries := retries[session := Retry(RetryPending, 0, event)];
        }
        return;
      }
      if retries[session].state == RetryPaused {
        return;
      }
      if unfinished {
        var state := if retries[session].attempts >= MAX_ATTEMPTS then RetryPaused else RetryPending;
        retries := retries[session := retries[session].(state := state, source := event)];
      } else {
        retries := retries[session := retries[session].(state := RetryCompleted)];
      }
    }

    method WriteCompletion(session: Id, turn: Id, event: Id, unfinished: bool) returns (ok: bool)
      modifies this
      ensures ok <==> Complete(old(Tables()), session, turn, event, unfinished).Some?
      ensures Tables() == if ok then Complete(old(Tables()), session, turn, event, unfinished).value else old(Tables())
    {
      ok := ReleaseUnlessStopped(session, turn);
      if !ok {
        return;
      }
      log := log + [Answered(session, event, turn, unfinished)];
      queue := SettleRows(queue, turn, RowCompleted);
      ScheduleRetry(session, event, unfinished);
    }

    /** internal/agent/service.go:2745-2811, completeTurn. */
    method CompleteTurn(session: Id, turn: Id, event: Id, unfinished: bool) returns (ok: bool)
      requires Valid()
      modifies this
      ensures Valid() && Stepped(DoComplete(session, turn, event, unfinished), ok)
      ensures ok ==> CompletedAs(old(Tables()), Tables(), session, turn, event, unfinished)
    {
      ghost var before := Tables();
      ok := WriteCompletion(session, turn, event, unfinished);
      Commits(before, DoComplete(session, turn, event, unfinished), ok, Tables());
      if ok {
        CompletionCommits(before, session, turn, event, unfinished);
      }
    }

    method WriteFailure(session: Id, turn: Id, event: Id) returns (ok: bool)
      modifies this
      ensures ok <==> Fail(old(Tables()), session, turn, event).Some?
      ensures Tables() == if ok then Fail(old(Tables()), session, turn, event).value else old(Tables())
    {
      ok := ReleaseUnlessStopped(session, turn);
      if !ok {
        return;
      }
      log := log + [TurnFailed(session, event, turn)];
      queue := SettleRows(queue, turn, RowFailed);
      ScheduleRetry(session, event, true);
    }

    /** internal/agent/service.go:2813-2880, failTurn. */
    method FailTurn(session: Id, turn: Id, event: Id) returns (ok: bool)
      requires Valid()
      modifies this
      ensures Valid() && Stepped(DoFail(session, turn, event), ok)
      ensures ok ==> FailedAs(old(Tables()), Tables(), session, turn, event)
    {
      ghost var before := Tables();
      ok := WriteFailure(session, turn, event);
      Commits(before, DoFail(session, turn, event), ok, Tables());
      if ok {
        FailureCommits(before, session, turn, event);
      }
    }

    method WriteApproval(approval: Id, session: Id, turn: Id, authorized: bool) returns (ok: bool)
      modifies this
      ensures ok <==> CreateApproval(old(Tables()), approval, session, turn, authorized).Some?
      ensures Tables() ==
        if ok then CreateApproval(old(Tables()), approval, session, turn, authorized).value else old(Tables())
    {
      if approval in approvals || turn == "" || !Holds(Tables(), session, turn, Running) {
        return false;
      }
      approvals := approvals[approval := Approval(session, turn, Pending)];
      sessions := sessions[session := sessions[session].(state := AwaitingApproval)];
      if authorized {
        checked := checked + {approval};
      }
      return true;
    }

    /** internal/agent/service.go:1716-1764, createToolApproval. */
    method CreateToolApproval(approval: Id, session: Id, turn: Id, authorized: bool) returns (ok: bool)
      requires Valid()
      modifies this
      ensures Valid() && Stepped(DoCreate(approval, session, turn, authorized), ok)
      ensures ok ==> PausedAs(old(Tables()), Tables(), approval, session, turn, authorized)
    {
      ghost var before := Tables();
      ok := WriteApproval(approval, session, turn, authorized);
      Commits(before, DoCreate(approval, session, turn, authorized), ok, Tables());
      if ok {
        PauseCommits(before, approval, session, turn, authorized);
      }
    }

    method WriteDecision(approval: Id, approve: bool, automatic: bool) returns (ok: bool)
      modifies this
      ensures ok <==> Claim(old(Tables()), approval, approve, automatic).Some?
      ensures Tables() == if ok then Claim(old(Tables()), approval, approve, automatic).value else old(Tables())
    {
      if approval !in approvals || approval !in checked {
        return false;
      }
      var a := approvals[approval];
      if automatic && (a.session !in autoMode || a.session !in retries || retries[a.session].state == RetryPaused) {
        return false;
      }
      if a.state != Pending || a.turn in controls {
        return false;
      }
      approvals := approvals[approval := a.(state := if approve then Executing else Denied)];
      log := log + [Decided(a.session, approval, approve)];
      return true;
    }

    /** internal/agent/service.go:1984-2044, claimApprovalDecision. */
    method ClaimApprovalDecision(approval: Id, approve: bool, automatic: bool) returns (ok: bool)
      requires Valid()
      modifies this
      ensures Valid() && Stepped(DoClaim(approval, approve, automatic), ok)
      ensures ok ==> !Claimed(old(log), approval) && Claimed(log, approval)
    {
      ghost var before := Tables();
      ok := WriteDecision(approval, approve, automatic);
      Commits(before, DoClaim(approval, approve, automatic), ok, Tables());
      if ok {
        DecisionCommits(before, approval, approve, automatic);
      }
    }

    method WriteReceipt(approval: Id, approve: bool, receipt: Receipt) returns (ok: bool)
      modifies this
      ensures ok <==> PersistReceipt(old(Tables()), approval, approve, receipt).Some?
      ensures Tables() == if ok then PersistReceipt(old(Tables()), approval, approve, receipt).value else old(Tables())
    {
      if approval !in approvals {
        return false;
      }
      var a := approvals[approval];
      var final := Denied;
      if approve {
        final := match receipt case Succeeded => Executed case Unsure => Uncertain case Unsuccessful => Failed;
      }
      if a.state != (if approve then Executing else Denied) || !Holds(Tables(), a.session, a.turn, AwaitingApproval) {
        return false;
      }
      approvals := approvals[approval := a.(state := final)];
      sessions := sessions[a.session := sessions[a.session].(state := Running)];
      return true;
    }

    /** internal/agent/service.go:2046-2104, persistApprovalReceipt. */
    method PersistApprovalReceipt(approval: Id, approve: bool, receipt: Receipt) returns (ok: bool)
      requires Valid()
      modifies this
      ensures Valid() && Stepped(DoPersist(approval, approve, receipt), ok)
      ensures ok ==> ReceivedAs(old(Tables()), Tables(), approval, approve, receipt)
    {
      ghost var before := Tables();
      ok := WriteReceipt(approval, approve, receipt);
      Commits(before, DoPersist(approval, approve, receipt), ok, Tables());
      if ok {
        ReceiptCommits(before, approval, approve, receipt);
      }
    }

    /** internal/agent/turn_control.go:119-169, StopTurn. */
    method StopTurn(session: Id, turn: Id, at: int) returns (ok: bool)
      requires Valid()
      modifies this
      ensures Valid() && Stepped(DoStop(session, turn, at), ok)
    {
      ghost var before := Tables();
      if turn == "" {
        return false;
      }
      if turn in controls {
        return controls[turn].session == session;
      }
      if !Live(Tables(), session, turn) {
        return false;
      }
      controls := controls[turn := Control(session, Stopping, at)];
      ok := true;
      Commits(before, DoStop(session, turn, at), ok, Tables());
    }

    /** How many effects of a turn have no known result. */
    method CountUnresolved(turn: Id) returns (n: nat)
      ensures n == 0 <==> !exists a | a in approvals :: Unresolved(approvals[a], turn)
    {
      n := 0;
      var left := approvals.Keys;
      while left != {}
        invariant left <= approvals.Keys
        invariant n == 0 <==> !exists a | a in approvals.Keys - left :: Unresolved(approvals[a], turn)
        decreases left
      {
        var a :| a in left;
        if Unresolved(approvals[a], turn) {
          n := n + 1;
          assert a in approvals.Keys - (left - {a});
        }
        assert approvals.Keys - (left - {a}) == (approvals.Keys - left) + {a};
        left := left - {a};
      }
    }

    method WriteStopEnd(turn: Id, confirmed: bool) returns (ok: bool)
      modifies this
      ensures ok <==> FinishStop(old(Tables()), turn, confirmed).Some?
      ensures Tables() == if ok then FinishStop(old(Tables()), turn, confirmed).value else old(Tables())
    {
      if turn !in controls {
        return false;
      }
      var c := controls[turn];
      if c.state == Stopped || c.session !in sessions || (c.state == NeedsReview && !confirmed) {
        return false;
      }
      var uncertain := CountUnresolved(turn);
      var final := if confirmed && uncertain == 0 then Stopped else NeedsReview;
      approvals := CancelPending(approvals, turn);
      controls := controls[turn := c.(state := final)];
      sessions := SessionsOnStop(sessions, c.session, turn, final);
      queue := SettleRows(queue, turn, if final == Stopped then RowCancelled else RowNeedsReview);
      return true;
    }

    /** internal/agent/turn_control.go:207-326, finishStoppedTurn. */
    method FinishStoppedTurn(turn: Id, confirmed: bool) returns (ok: bool)
      requires Valid()
      modifies this
      ensures Valid() && Stepped(DoFinishStop(turn, confirmed), ok)
      ensures ok ==> StoppedAs(old(Tables()), Tables(), turn, confirmed)
    {
      ghost var before := Tables();
      ok := WriteStopEnd(turn, confirmed);
      Commits(before, DoFinishStop(turn, confirmed), ok, Tables());
      if ok {
        StopCommits(before, turn, confirmed);
      }
    }

    /** internal/agent/service.go:3145-3179, blockContinuation. */
    method BlockTurn(session: Id, turn: Id) returns (ok: bool)
      requires Valid()
      modifies this`sessions
      ensures Valid() && Stepped(DoBlock(session, turn), ok)
    {
      ghost var before := Tables();
      ok := turn != "" && Holds(Tables(), session, turn, Running);
      if ok {
        sessions := sessions[session := sessions[session].(state := Idle, activeTurn := "")];
      }
      Commits(before, DoBlock(session, turn), ok, Tables());
    }

    /** internal/agent/turn_control.go:57-89, controlExecution: one execution a turn. */
    method ControlExecution(turn: Id) returns (ok: bool)
      requires Valid()
      modifies this`executions
      ensures Valid() && Stepped(DoRegister(turn), ok)
    {
      ghost var before := Tables();
      ok := turn !in executions;
      if ok {
        executions := executions + {turn};
      }
      Commits(before, DoRegister(turn), ok, Tables());
    }

    method ReleaseExecution(turn: Id) returns (ok: bool)
      requires Valid()
      modifies this`executions
      ensures Valid() && Stepped(DoEnd(turn), ok)
    {
      ghost var before := Tables();
      ok := turn in executions;
      if ok {
        executions := executions - {turn};
      }
      Commits(before, DoEnd(turn), ok, Tables());
    }

    method SetApprovalMode(session: Id, auto: bool) returns (ok: bool)
      requires Valid()
      modifies this`autoMode
      ensures Valid() && Stepped(DoSetMode(session, auto), ok)
    {
      ghost var before := Tables();
      ok := session in sessions;
      if ok {
        autoMode := if auto then autoMode + {session} else autoMode - {session};
      }
      Commits(before, DoSetMode(session, auto), ok, Tables());
    }

    /** The reads DecideApproval makes before it registers and claims. */
    method WriteCheck(approval: Id) returns (ok: bool)
      modifies this`checked
      ensures ok <==> CheckDecision(old(Tables()), approval).Some?
      ensures Tables() == if ok then CheckDecision(old(Tables()), approval).value else old(Tables())
    {
      if approval !in approvals {
        return false;
      }
      var a := approvals[approval];
      ok := a.state == Pending && a.session in sessions && sessions[a.session].activeTurn == a.turn;
      if ok {
        checked := checked + {approval};
      }
    }

    /** internal/agent/service.go:1809-1823, the reads of DecideApproval. */
    method CheckApproval(approval: Id) returns (ok: bool)
      requires Valid()
      modifies this
      ensures Valid() && Stepped(DoCheck(approval), ok)
    {
      ghost var before := Tables();
      ok := WriteCheck(approval);
      Commits(before, DoCheck(approval), ok, Tables());
    }

    // ---- The message queue ----

    method WriteMessage(row: Id, session: Id, mode: Mode, baseTurn: Id) returns (ok: bool)
      modifies this`queue
      ensures ok <==> Enqueue(old(Tables()), row, session, mode, baseTurn).Some?
      ensures Tables() == if ok then Enqueue(old(Tables()), row, session, mode, baseTurn).value else old(Tables())
    {
      if row in queue || session !in sessions || (mode == Steer && baseTurn == "") {
        return false;
      }
      var rows := queue;
      if mode == Steer {
        rows := map q | q in queue ::
          if queue[q].session == session && queue[q].state == RowQueued
          then queue[q].(state := RowNeedsReview) else queue[q];
      }
      queue := rows[row := QueueRow(session, mode, baseTurn, RowQueued, "")];
      return true;
    }

    /** internal/agent/message_queue.go:35-91, QueueMessage. */
    method QueueMessage(row: Id, session: Id, mode: Mode, baseTurn: Id) returns (ok: bool)
      requires Valid()
      modifies this
      ensures Valid() && Stepped(DoEnqueue(row, session, mode, baseTurn), ok)
    {
      ghost var before := Tables();
      ok := WriteMessage(row, session, mode, baseTurn);
      Commits(before, DoEnqueue(row, session, mode, baseTurn), ok, Tables());
    }

    /** internal/agent/message_queue.go:119-132, CancelQueuedMessage. */
    method CancelQueuedMessage(row: Id) returns (ok: bool)
      requires Valid()
      modifies this`queue
      ensures Valid() && Stepped(DoCancelRow(row), ok)
    {
      ghost var before := Tables();
      ok := row in queue && (queue[row].state == RowQueued || queue[row].state == RowNeedsReview);
      if ok {
        queue := queue[row := queue[row].(state := RowCancelled)];
      }
      Commits(before, DoCancelRow(row), ok, Tables());
    }

    /** internal/agent/message_queue.go:136-147, the pick of DrainOneQueued. */
    method PickQueued(row: Id) returns (ok: bool)
      requires Valid()
      modifies this`draining
      ensures Valid() && Stepped(DoPick(row), ok)
    {
      ghost var before := Tables();
      if draining.Some? || row !in queue {
        return false;
      }
      var q := queue[row];
      ok := q.state == RowQueued && Holds(Tables(), q.session, "", Idle)
            && (q.mode == Steer ==> StopConfirmed(Tables(), q.session, q.baseTurn));
      if ok {
        draining := Some(row);
      }
      Commits(before, DoPick(row), ok, Tables());
    }

    method WriteDrain(row: Id, outcome: RowState) returns (ok: bool)
      modifies this`queue, this`draining
      ensures ok <==> FinishDrain(old(Tables()), row, outcome).Some?
      ensures Tables() == if ok then FinishDrain(old(Tables()), row, outcome).value else old(Tables())
    {
      ok := draining == Some(row) && row in queue;
      if ok {
        var q := queue[row];
        if (q.state == RowRunning && outcome in {RowCompleted, RowAwaiting, RowFailed})
           || (q.state == RowQueued && outcome == RowNeedsReview) {
          queue := queue[row := q.(state := outcome)];
        }
        draining := None;
      }
    }

    /** internal/agent/message_queue.go:152-182, the end of DrainOneQueued. */
    method FinishQueued(row: Id, outcome: RowState) returns (ok: bool)
      requires Valid()
      modifies this
      ensures Valid() && Stepped(DoFinishDrain(row, outcome), ok)
    {
      ghost var before := Tables();
      ok := WriteDrain(row, outcome);
      Commits(before, DoFinishDrain(row, outcome), ok, Tables());
    }

    // ---- Automatic continuation ----

    /** internal/agent/retry.go:66-73, PauseAutoRetry. */
    method PauseAutoRetry(session: Id) returns (ok: bool)
      requires Valid()
      modifies this`retries
      ensures Valid() && Stepped(DoPauseRetry(session), ok)
    {
      ghost var before := Tables();
      ok := session in sessions;
      if ok {
        if session in retries {
          retries := retries[session := retries[session].(state := RetryPaused)];
        } else {
          retries := retries[session := Retry(RetryPaused, 0, "")];
        }
      }
      Commits(before, DoPauseRetry(session), ok, Tables());
    }

    /** internal/agent/retry.go:94-115, the claim of RunDueAutoRetry. */
    method ClaimDueRetry(session: Id, source: Id) returns (ok: bool)
      requires Valid()
      modifies this`retries
      ensures Valid() && Stepped(DoClaimRetry(session, source), ok)
      ensures ok ==> AutoSince(log, session) < MAX_ATTEMPTS
    {
      ghost var before := Tables();
      if session !in retries {
        return false;
      }
      var r := retries[session];
      ok := r.state == RetryPending && r.source == source && r.attempts < MAX_ATTEMPTS;
      if ok {
        retries := retries[session := r.(state := RetryRunning, attempts := r.attempts + 1)];
      }
      Commits(before, DoClaimRetry(session, source), ok, Tables());
      if ok {
        ClaimedIsOwed(before, session, source);
      }
    }

    /** internal/agent/retry.go:154-160, the end of RunDueAutoRetry. */
    method EndDueRetry(session: Id, source: Id) returns (ok: bool)
      requires Valid()
      modifies this`retries
      ensures Valid() && Stepped(DoEndRetry(session, source), ok)
    {
      ghost var before := Tables();
      ok := session in retries && retries[session].state == RetryRunning && retries[session].source == source;
      if ok {
        var state := if retries[session].attempts >= MAX_ATTEMPTS then RetryPaused else RetryPending;
        retries := retries[session := retries[session].(state := state)];
      }
      Commits(before, DoEndRetry(session, source), ok, Tables());
    }

    // ---- Startup ----

    /** internal/agent/message_queue.go:197-213, RecoverMessageQueue. */
    method RecoverMessageQueue()
      requires phase == QueueRecovery
      modifies this
      ensures RecoverQueue(old(Tables())) == Some(Tables())
    {
      var tables := Tables();
      queue := map q | q in tables.queue ::
        if tables.queue[q].state == RowRunning
           || (tables.queue[q].state == RowQueued && InterruptedRow(tables, tables.queue[q]))
        then tables.queue[q].(state := RowNeedsReview) else tables.queue[q];
      phase := ApprovalRecovery;
    }

    method ReconcileApproval(approval: Id, state: ApprovalState)
      requires approval in approvals && approvals[approval].session in sessions
      modifies this`approvals, this`sessions
      ensures approvals == old(approvals)[approval := old(approvals)[approval].(state := state)]
      ensures
        var s := old(approvals)[approval].session;
        sessions == old(sessions)[s := old(sessions)[s].(state := Idle, activeTurn := "")]
    {
      var s := approvals[approval].session;
      approvals := approvals[approval := approvals[approval].(state := state)];
      sessions := sessions[s := sessions[s].(state := Idle, activeTurn := "")];
    }

    /** One pass over the effects that were in flight, releasing the session of each. */
    method ReconcileInFlight(verdicts: map<Id, Verdict>)
      requires forall a | a in approvals :: approvals[a].session in sessions
      modifies this`approvals, this`sessions
      ensures approvals == ReconcileAll(old(approvals), InFlight(old(approvals)), verdicts)
      ensures sessions == ReleaseAll(old(sessions), old(approvals), InFlight(old(approvals)))
    {
      ghost var was, open := approvals, sessions;
      var items := set a | a in approvals && approvals[a].state == Executing;
      ghost var done: set<Id> := {};
      while items != {}
        invariant done !! items && done + items == InFlight(was)
        invariant approvals == ReconcileAll(was, done, verdicts)
        invariant sessions == ReleaseAll(open, was, done)
        decreases items
      {
        var a :| a in items;
        ReconcileOne(was, done, verdicts, a);
        ReleaseOne(open, was, done, a);
        ReconcileApproval(a, Reconciled(VerdictOf(verdicts, a)));
        items, done := items - {a}, done + {a};
      }
    }

    method RecoverInterruptedApprovals(verdicts: map<Id, Verdict>)
      requires phase == ApprovalRecovery
      requires forall a | a in approvals :: approvals[a].session in sessions
      modifies this
      ensures RecoverApprovals(old(Tables()), verdicts) == Some(Tables())
    {
      AllReconciled(Tables(), verdicts);
      ReconcileInFlight(verdicts);
      phase := TurnRecovery;
    }

    method CloseTurn(session: Id, event: Id)
      requires phase == TurnRecovery && session in sessions && sessions[session].state == Running
      modifies this`sessions, this`log
      ensures RecoverTurn(old(Tables()), session, event) == Some(Tables())
      ensures sessions.Keys == old(sessions).Keys && sessions[session].state == Idle
      ensures forall s | s in old(sessions) && s != session :: sessions[s] == old(sessions)[s]
    {
      log := log + [TurnFailed(session, event, sessions[session].activeTurn)];
      sessions := sessions[session := sessions[session].(state := Idle, activeTurn := "")];
    }

    /** Close one running session after another; every pass is a transaction of its own. */
    method RecoverInterruptedTurns(event: Id) returns (ghost steps: seq<Step>)
      requires phase == TurnRecovery
      modifies this
      ensures Run(old(Tables()), steps) == Some(Tables()) && phase == RetryRecovery && OnlyRecoveries(steps)
    {
      steps := [];
      ghost var start := Tables();
      var left := sessions.Keys;
      while left != {}
        invariant Run(start, steps) == Some(Tables()) && phase == TurnRecovery && OnlyRecoveries(steps)
        invariant sessions.Keys == start.sessions.Keys && left <= sessions.Keys
        invariant forall s | s in sessions.Keys - left :: sessions[s].state != Running
        decreases left
        modifies this`sessions, this`log
      {
        var s :| s in left;
        if sessions[s].state == Running {
          ghost var before := Tables();
          CloseTurn(s, event);
          RecoveryJoins(start, steps, before, DoRecoverTurn(s, event), Tables());
          steps := steps + [DoRecoverTurn(s, event)];
        }
        left := left - {s};
      }
      ghost var closed := Tables();
      phase := RetryRecovery;
      RecoveryJoins(start, steps, closed, DoTurnsRecovered, Tables());
      steps := steps + [DoTurnsRecovered];
    }

    /** The latest request of a session still under review: ORDER BY requested_at DESC LIMIT 1. */
    method LatestReviewOf(rows: map<Id, Control>, session: Id) returns (turn: Option<Id>)
      ensures turn.None? <==> !UnderReview(rows, session)
      ensures turn.Some? ==> LatestReview(rows, session, turn.value)
    {
      turn := None;
      var left := rows.Keys;
      while left != {}
        invariant left <= rows.Keys
        invariant turn.None? ==> forall t | t in rows.Keys - left :: !(rows[t].session == session && rows[t].state == NeedsReview)
        invariant turn.Some? ==>
          && turn.value in rows && rows[turn.value].session == session && rows[turn.value].state == NeedsReview
          && forall t | t in rows.Keys - left && rows[t].session == session && rows[t].state == NeedsReview ::
               rows[t].requestedAt <= rows[turn.value].requestedAt
        decreases left
      {
        var t :| t in left;
        if rows[t].session == session && rows[t].state == NeedsReview
           && (turn.None? || rows[turn.value].requestedAt < rows[t].requestedAt) {
          turn := Some(t);
        }
        left := left - {t};
      }
    }

    method ChooseReviews(rows: map<Id, Control>) returns (chosen: map<Id, Id>)
      ensures LatestReviews(sessions, rows, chosen)
    {
      chosen := map[];
      var left := sessions.Keys;
      while left != {}
        invariant left <= sessions.Keys && chosen.Keys <= sessions.Keys - left
        invariant forall s | s in sessions.Keys - left && UnderReview(rows, s) ::
          s in chosen && LatestReview(rows, s, chosen[s])
        decreases left
        modifies {}
      {
        var s :| s in left;
        var turn := LatestReviewOf(rows, s);
        if turn.Some? {
          chosen := chosen[s := turn.value];
        }
        left := left - {s};
      }
    }

    method RecoverTurnControls() returns (ghost latest: map<Id, Id>)
      requires phase == ControlRecovery
      modifies this
      ensures RecoverControls(old(Tables()), latest) == Some(Tables())
    {
      var reviewed := Reviewed(controls);
      var chosen := ChooseReviews(reviewed);
      latest := chosen;
      controls, sessions := reviewed, Retaken(sessions, reviewed, chosen);
      approvals, queue := CancelStopped(approvals, reviewed), HoldSteers(queue, reviewed);
      phase := Serving;
    }

    method RequeueInterruptedRetries()
      requires phase == RetryRecovery
      modifies this
      ensures RequeueRetries(old(Tables())) == Some(Tables())
    {
      var tables := Tables();
      retries := map s | s in tables.retries ::
        if tables.retries[s].state == RetryRunning then tables.retries[s].(state := RetryPending) else tables.retries[s];
      phase := OutcomeRecovery;
    }

    method AdoptUnfinishedOutcomes()
      requires phase == OutcomeRecovery
      modifies this
      ensures AdoptOutcomes(old(Tables())) == Some(Tables())
    {
      var tables := Tables();
      var all := retries.Keys + set s | s in sessions && Continues(tables, s);
      retries := map s | s in all :: Adopted(tables, s);
      phase := ControlRecovery;
    }

    /**
     * The recoveries in the order the process runs them before it serves: one run of the machine, after which it serves
     * with every invariant kept and nothing left that only the process that died could have finished.
     */
    method Startup(verdicts: map<Id, Verdict>, event: Id) returns (ghost steps: seq<Step>)
      requires Restarted()
      modifies this
      ensures Run(old(Tables()), steps) == Some(Tables()) && OnlyRecoveries(steps)
      ensures Valid() && Clean(Tables())
    {
      ghost var start := Tables();
      ApprovalsHaveSessions(start);
      steps := RecoverLeases(verdicts, event);
      ghost var leased := Tables();
      ghost var more := RecoverSchedules();
      RunJoin(start, steps, more);
      steps := steps + more;
      RunKeepsInv(start, steps);
      RecoveriesClean(start, steps);
    }

    method RecoverLeases(verdicts: map<Id, Verdict>, event: Id) returns (ghost steps: seq<Step>)
      requires phase == QueueRecovery
      requires forall a | a in approvals :: approvals[a].session in sessions
      modifies this
      ensures Run(old(Tables()), steps) == Some(Tables()) && phase == RetryRecovery && OnlyRecoveries(steps)
    {
      ghost var start := Tables();
      RecoverMessageQueue();
      ghost var queued := Tables();
      RecoverInterruptedApprovals(verdicts);
      ghost var settled := Tables();
      TwoRecoveries(start, DoRecoverQueue, queued, DoRecoverApprovals(verdicts), settled);
      ghost var more := RecoverInterruptedTurns(event);
      RunJoin(start, [DoRecoverQueue, DoRecoverApprovals(verdicts)], more);
      steps := [DoRecoverQueue, DoRecoverApprovals(verdicts)] + more;
    }

    method RecoverSchedules() returns (ghost steps: seq<Step>)
      requires phase == RetryRecovery
      modifies this
      ensures Run(old(Tables()), steps) == Some(Tables()) && phase == Serving && OnlyRecoveries(steps)
    {
      ghost var start := Tables();
      RequeueInterruptedRetries();
      ghost var requeued := Tables();
      AdoptUnfinishedOutcomes();
      ghost var adopted := Tables();
      TwoRecoveries(start, DoRequeueRetries, requeued, DoAdoptOutcomes, adopted);
      ghost var latest := RecoverTurnControls();
      OneRecovery(adopted, DoRecoverControls(latest), Tables());
      RunJoin(start, [DoRequeueRetries, DoAdoptOutcomes], [DoRecoverControls(latest)]);
      steps := [DoRequeueRetries, DoAdoptOutcomes] + [DoRecoverControls(latest)];
    }
  }

  predicate OnlyRecoveries(steps: seq<Step>) {
    forall i | 0 <= i < |steps| :: RecoveryStep(steps[i])
  }

  lemma ApprovalsHaveSessions(db: Db)
    requires StopInv(db)
    ensures forall a | a in db.approvals :: db.approvals[a].session in db.sessions
  {
  }

  /** A committed decision is the first and only one of its approval. */
  lemma DecisionCommits(db: Db, approval: Id, approve: bool, automatic: bool)
    requires Inv(db) && Claim(db, approval, approve, automatic).Some?
    ensures !Claimed(db.log, approval) && Claimed(Claim(db, approval, approve, automatic).value.log, approval)
  {
    var after := Claim(db, approval, approve, automatic).value;
    ClaimClaims(db, approval, approve, automatic);
    assert IsDecision(after.log[|db.log|], approval);
  }

  /** A claimed continuation is one the allowance still covers. */
  lemma ClaimedIsOwed(db: Db, session: Id, source: Id)
    requires Inv(db) && ClaimRetry(db, session, source).Some?
    ensures AutoSince(ClaimRetry(db, session, source).value.log, session) < MAX_ATTEMPTS
  {
    var after := ClaimRetry(db, session, source).value;
    ClaimBudget(db, session, source);
    assert Budgeted(after.log, after.retries, session);
  }

  /** What one committed request amounts to: the step was allowed, and everything the machine keeps still holds. */
  lemma Commits(before: Db, step: Step, ok: bool, after: Db)
    requires Inv(before) && before.phase == Serving && !RecoveryStep(step) && !step.DoCrash?
    requires if ok then Next(before, step) == Some(after) else after == before
    ensures Inv(after) && after.phase == Serving
  {
    if ok {
      KeepsInv(before, step);
      StaysServing(before, step);
    }
  }

  lemma StaysServing(db: Db, step: Step)
    requires db.phase == Serving && !RecoveryStep(step) && !step.DoCrash? && Next(db, step).Some?
    ensures Next(db, step).value.phase == Serving
  {
    if TurnStep(step) {
      TurnServes(db, step);
    } else if ApprovalStep(step) {
      ApprovalServes(db, step);
    } else if QueueStep(step) {
      QueueClaims(db, step);
    } else if RetryStep(step) {
      RetryClaims(db, step);
    } else {
      VolatileHolds(db, step);
    }
  }

  lemma TurnServes(db: Db, step: Step)
    requires TurnStep(step) && ServeTurn(db, step).Some?
    ensures ServeTurn(db, step).value.phase == db.phase
  {
  }

  lemma ApprovalServes(db: Db, step: Step)
    requires ApprovalStep(step) && ServeApproval(db, step).Some?
    ensures ServeApproval(db, step).value.phase == db.phase
  {
  }

  function InFlight(approvals: map<Id, Approval>): set<Id> {
    set a | a in approvals && approvals[a].state == Executing
  }

  function ReconcileAll(approvals: map<Id, Approval>, done: set<Id>, verdicts: map<Id, Verdict>): map<Id, Approval> {
    map a | a in approvals ::
      if a in done then approvals[a].(state := Reconciled(VerdictOf(verdicts, a))) else approvals[a]
  }

  predicate OwnsOne(approvals: map<Id, Approval>, done: set<Id>, session: Id) {
    exists a | a in done :: a in approvals && approvals[a].session == session
  }

  function ReleaseAll(sessions: map<Id, Session>, approvals: map<Id, Approval>, done: set<Id>): map<Id, Session> {
    map s | s in sessions ::
      if OwnsOne(approvals, done, s) then sessions[s].(state := Idle, activeTurn := "") else sessions[s]
  }

  lemma ReconcileOne(approvals: map<Id, Approval>, done: set<Id>, verdicts: map<Id, Verdict>, a: Id)
    requires a in approvals && a !in done
    ensures ReconcileAll(approvals, done, verdicts)[a] == approvals[a]
    ensures ReconcileAll(approvals, done + {a}, verdicts) ==
      ReconcileAll(approvals, done, verdicts)[a := approvals[a].(state := Reconciled(VerdictOf(verdicts, a)))]
  {
  }

  lemma ReleaseOne(sessions: map<Id, Session>, approvals: map<Id, Approval>, done: set<Id>, a: Id)
    requires a in approvals && approvals[a].session in sessions
    ensures
      var s := approvals[a].session;
      var before := ReleaseAll(sessions, approvals, done);
      ReleaseAll(sessions, approvals, done + {a}) == before[s := before[s].(state := Idle, activeTurn := "")]
  {
    forall s | s in sessions
      ensures OwnsOne(approvals, done + {a}, s) <==> OwnsOne(approvals, done, s) || approvals[a].session == s
    {
      assert a in done + {a};
    }
  }

  lemma AllReconciled(db: Db, verdicts: map<Id, Verdict>)
    requires db.phase == ApprovalRecovery
    ensures
      var done := InFlight(db.approvals);
      RecoverApprovals(db, verdicts) == Some(db.(
        phase := TurnRecovery, approvals := ReconcileAll(db.approvals, done, verdicts),
        sessions := ReleaseAll(db.sessions, db.approvals, done)))
  {
    var done := InFlight(db.approvals);
    var goal := RecoverApprovals(db, verdicts).value;
    assert goal.approvals == ReconcileAll(db.approvals, done, verdicts);
    forall s | s in db.sessions ensures Interrupted(db, s) <==> OwnsOne(db.approvals, done, s) {
      if Interrupted(db, s) {
        var a :| a in db.approvals && db.approvals[a].session == s && db.approvals[a].state == Executing;
        assert a in done;
      }
    }
    assert goal.sessions == ReleaseAll(db.sessions, db.approvals, done);
  }

  lemma OneRecovery(db: Db, step: Step, after: Db)
    requires RecoveryStep(step) && Recover(db, step) == Some(after)
    ensures Run(db, [step]) == Some(after)
  {
    assert [step][..0] == [];
  }

  lemma TwoRecoveries(db: Db, first: Step, mid: Db, second: Step, after: Db)
    requires RecoveryStep(first) && Recover(db, first) == Some(mid)
    requires RecoveryStep(second) && Recover(mid, second) == Some(after)
    ensures Run(db, [first, second]) == Some(after)
  {
    OneRecovery(db, first, mid);
    OneRecovery(mid, second, after);
    assert [first, second] == [first] + [second];
    RunJoin(db, [first], [second]);
  }

  lemma RecoveryJoins(start: Db, steps: seq<Step>, db: Db, step: Step, after: Db)
    requires Run(start, steps) == Some(db) && RecoveryStep(step) && Recover(db, step) == Some(after)
    ensures Run(start, steps + [step]) == Some(after)
  {
    OneRecovery(db, step, after);
    RunJoin(start, steps, [step]);
  }
}
