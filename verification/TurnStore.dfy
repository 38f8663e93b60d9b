/**
 * The durable tables of the turn machine and the transactions on them. Every function here is one guarded atomic
 * step: None when a guard refuses, and then nothing changes.
 */
module TurnStore {
  import opened Wrappers

  type Id = string

  datatype SessionState = Idle | Running | AwaitingApproval | ControlBlocked

  /** One row of agent_sessions; the state Idle is written "active" in the table. */
  datatype Session = Session(state: SessionState, activeTurn: Id, retryDisabled: bool)

  datatype ApprovalState = Pending | Executing | Denied | Executed | Failed | Uncertain | Cancelled

  datatype Approval = Approval(session: Id, turn: Id, state: ApprovalState)

  datatype ControlState = Stopping | NeedsReview | Stopped

  datatype Control = Control(session: Id, state: ControlState, requestedAt: int)

  datatype Mode = Follow | Steer

  datatype RowState = RowQueued | RowRunning | RowAwaiting | RowCompleted | RowFailed | RowCancelled | RowNeedsReview

  datatype QueueRow = QueueRow(session: Id, mode: Mode, baseTurn: Id, state: RowState, turn: Id)

  datatype RetryState = RetryPending | RetryRunning | RetryCompleted | RetryCancelled | RetryPaused

  datatype Retry = Retry(state: RetryState, attempts: nat, source: Id)

  /** What opens a turn: the owner, a due automatic continuation of one outcome, or a queued message. */
  datatype Entry = Manual(key: string) | Automatic(source: Id) | FromQueue(row: Id) {
    /** The idempotency key the turn commits under; an empty key commits none. */
    function Key(): string {
      match this
      case Manual(key) => key
      case Automatic(source) => "auto-retry:" + source
      case FromQueue(row) => "queue:" + row
    }
  }

  /** The events the machine reads back. */
  datatype Event =
    | TurnOpened(session: Id, id: Id, turn: Id, entry: Entry)
    | Answered(session: Id, id: Id, turn: Id, unfinished: bool)
    | TurnFailed(session: Id, id: Id, turn: Id)
    | Decided(session: Id, approval: Id, approve: bool)

  /** Serving, or the next step of a startup recovery. */
  datatype Phase =
    | Serving | QueueRecovery | ApprovalRecovery | TurnRecovery | RetryRecovery | OutcomeRecovery | ControlRecovery

  /**
   * The tables, and the part of the state a crash loses: registered executions, approvals that passed the checks
   * before their claim, and the queue row being drained.
   */
  datatype Db = Db(
    sessions: map<Id, Session>, turns: map<Id, Id>, approvals: map<Id, Approval>, controls: map<Id, Control>,
    queue: map<Id, QueueRow>, retries: map<Id, Retry>, keys: map<(Id, string), Id>, autoMode: set<Id>, log: seq<Event>,
    executions: set<Id>, checked: set<Id>, draining: Option<Id>, phase: Phase)

  const MAX_ATTEMPTS := 3

  const EMPTY_DB :=
    Db(map[], map[], map[], map[], map[], map[], map[], {}, [], {}, {}, None, Serving)

  // ---- Reading ----

  predicate Holds(db: Db, session: Id, turn: Id, state: SessionState) {
    session in db.sessions && db.sessions[session].state == state && db.sessions[session].activeTurn == turn
  }

  /** A turn that is running or waiting for a decision. */
  predicate Live(db: Db, session: Id, turn: Id) {
    Holds(db, session, turn, Running) || Holds(db, session, turn, AwaitingApproval)
  }

  function LatestOutcome(log: seq<Event>, session: Id): (latest: Option<Event>)
    ensures latest.Some? ==> !latest.value.Decided?
  {
    if log == [] then None
    else
      var e := log[|log| - 1];
      if !e.Decided? && e.session == session then Some(e) else LatestOutcome(log[..|log| - 1], session)
  }

  function WithSession(db: Db, session: Id, state: SessionState, turn: Id): Db
    requires session in db.sessions
  {
    db.(sessions := db.sessions[session := db.sessions[session].(state := state, activeTurn := turn)])
  }

  function Released(db: Db, session: Id): Db
    requires session in db.sessions
  {
    WithSession(db, session, Idle, "")
  }

  function Logged(db: Db, event: Event): Db {
    db.(log := db.log + [event])
  }

  // ---- Sessions and turns ----

  function OpenSession(db: Db, session: Id, retryDisabled: bool): Option<Db> {
    if session in db.sessions then None
    else Some(db.(sessions := db.sessions[session := Session(Idle, "", retryDisabled)]))
  }

  predicate EntryAllowed(db: Db, session: Id, entry: Entry) {
    match entry
    case Manual(_) => true
    case Automatic(source) =>
      var latest := LatestOutcome(db.log, session);
      latest.Some? && latest.value.id == source && session in db.retries && db.retries[session].state == RetryRunning
    case FromQueue(row) =>
      db.draining == Some(row) && row in db.queue && db.queue[row].session == session && db.queue[row].state == RowQueued
  }

  /** Opening a turn cancels a schedule that is not paused, and a turn the owner opened restores its allowance. */
  function RetriesOnOpen(retries: map<Id, Retry>, session: Id, automatic: bool): map<Id, Retry> {
    if session !in retries then retries
    else
      var r := retries[session];
      var cancelled := if r.state == RetryPaused then r else r.(state := RetryCancelled);
      retries[session := if automatic then cancelled else cancelled.(attempts := 0)]
  }

  function QueueOnOpen(queue: map<Id, QueueRow>, entry: Entry, turn: Id): map<Id, QueueRow>
    requires entry.FromQueue? ==> entry.row in queue
  {
    if entry.FromQueue? then queue[entry.row := queue[entry.row].(state := RowRunning, turn := turn)] else queue
  }

  predicate MayOpen(db: Db, session: Id, turn: Id, entry: Entry) {
    && turn != "" && turn !in db.turns
    && (entry.Key() != "" ==> (session, entry.Key()) !in db.keys)
    && EntryAllowed(db, session, entry)
    && Holds(db, session, "", Idle)
  }

  function Opened(db: Db, session: Id, turn: Id, entry: Entry, event: Id, key: string): Db
    requires session in db.sessions && (entry.FromQueue? ==> entry.row in db.queue)
  {
    db.(
      sessions := db.sessions[session := db.sessions[session].(state := Running, activeTurn := turn)],
      log := db.log + [TurnOpened(session, event, turn, entry)],
      turns := db.turns[turn := session],
      retries := RetriesOnOpen(db.retries, session, entry.Automatic?),
      queue := QueueOnOpen(db.queue, entry, turn),
      keys := if key == "" then db.keys else db.keys[(session, key) := turn])
  }

  /** acquireTurn: the lease, the schedule, the queue row, the key and the opening message in one transaction. */
  function Acquire(db: Db, session: Id, turn: Id, entry: Entry, event: Id): Option<Db> {
    if MayOpen(db, session, turn, entry) then Some(Opened(db, session, turn, entry, event, entry.Key())) else None
  }

  /** scheduleRetryTx: a failed or unfinished outcome is scheduled, any other completes the schedule. */
  function Schedule(db: Db, session: Id, event: Id, unfinished: bool): map<Id, Retry>
    requires session in db.sessions
  {
    var retries := db.retries;
    if unfinished && db.sessions[session].retryDisabled then retries
    else if session !in retries then (if unfinished then retries[session := Retry(RetryPending, 0, event)] else retries)
    else
      var r := retries[session];
      if r.state == RetryPaused then retries
      else if !unfinished then retries[session := r.(state := RetryCompleted)]
      else
        retries[session :=
          r.(state := if r.attempts >= MAX_ATTEMPTS then RetryPaused else RetryPending, source := event)]
  }

  predicate InTurn(row: QueueRow, turn: Id) {
    row.turn == turn && (row.state == RowRunning || row.state == RowAwaiting)
  }

  function SettleRows(queue: map<Id, QueueRow>, turn: Id, state: RowState): map<Id, QueueRow> {
    map q | q in queue :: if InTurn(queue[q], turn) then queue[q].(state := state) else queue[q]
  }

  /** completeTurn, refused once a stop row exists. */
  function Complete(db: Db, session: Id, turn: Id, event: Id, unfinished: bool): Option<Db> {
    if !Holds(db, session, turn, Running) || turn == "" || turn in db.controls then None
    else
      Some(Logged(Released(db, session), Answered(session, event, turn, unfinished)).(
        queue := SettleRows(db.queue, turn, RowCompleted), retries := Schedule(db, session, event, unfinished)))
  }

  /** failTurn, likewise. */
  function Fail(db: Db, session: Id, turn: Id, event: Id): Option<Db> {
    if !Holds(db, session, turn, Running) || turn == "" || turn in db.controls then None
    else
      Some(Logged(Released(db, session), TurnFailed(session, event, turn)).(
        queue := SettleRows(db.queue, turn, RowFailed), retries := Schedule(db, session, event, true)))
  }

  /** blockContinuation releases the lease without looking at stop rows or the queue. */
  function BlockContinuation(db: Db, session: Id, turn: Id): Option<Db> {
    if !Holds(db, session, turn, Running) || turn == "" then None else Some(Released(db, session))
  }

  function RegisterExecution(db: Db, turn: Id): Option<Db> {
    if turn in db.executions then None else Some(db.(executions := db.executions + {turn}))
  }

  function EndExecution(db: Db, turn: Id): Option<Db> {
    if turn !in db.executions then None else Some(db.(executions := db.executions - {turn}))
  }

  // ---- Approvals ----

  function WithApproval(db: Db, approval: Id, state: ApprovalState): Db
    requires approval in db.approvals
  {
    db.(approvals := db.approvals[approval := db.approvals[approval].(state := state)])
  }

  /** createToolApproval; an authorised call goes straight on to its claim. */
  function CreateApproval(db: Db, approval: Id, session: Id, turn: Id, authorized: bool): Option<Db> {
    if approval in db.approvals || turn == "" || !Holds(db, session, turn, Running) then None
    else
      Some(WithSession(db, session, AwaitingApproval, turn).(
        approvals := db.approvals[approval := Approval(session, turn, Pending)],
        checked := if authorized then db.checked + {approval} else db.checked))
  }

  /** The checks DecideApproval makes before it claims. */
  function CheckDecision(db: Db, approval: Id): Option<Db> {
    if approval !in db.approvals then None
    else
      var a := db.approvals[approval];
      if a.state != Pending || a.session !in db.sessions || db.sessions[a.session].activeTurn != a.turn then None
      else Some(db.(checked := db.checked + {approval}))
  }

  /** claimApprovalDecision: one decision of a pending approval whose turn nobody stopped. */
  function Claim(db: Db, approval: Id, approve: bool, automatic: bool): Option<Db> {
    if approval !in db.approvals || approval !in db.checked then None
    else
      var a := db.approvals[approval];
      if automatic &&
         (a.session !in db.autoMode || a.session !in db.retries || db.retries[a.session].state == RetryPaused) then None
      else if a.state != Pending || a.turn in db.controls then None
      else
        Some(Logged(WithApproval(db, approval, if approve then Executing else Denied),
                    Decided(a.session, approval, approve)))
  }

  datatype Receipt = Succeeded | Unsure | Unsuccessful

  /** persistApprovalReceipt: the effect lock and the paused lease must both still be held. */
  function PersistReceipt(db: Db, approval: Id, approve: bool, receipt: Receipt): Option<Db> {
    if approval !in db.approvals then None
    else
      var a := db.approvals[approval];
      var expected := if approve then Executing else Denied;
      var final := if !approve then Denied
                   else match receipt case Succeeded => Executed case Unsure => Uncertain case Unsuccessful => Failed;
      if a.state != expected || !Holds(db, a.session, a.turn, AwaitingApproval) then None
      else Some(WithSession(WithApproval(db, approval, final), a.session, Running, a.turn))
  }

  // ---- Owner stop ----

  /** StopTurn: the stop row of a live turn; a turn that has one keeps it. */
  function Stop(db: Db, session: Id, turn: Id, at: int): Option<Db> {
    if turn == "" then None
    else if turn in db.controls then (if db.controls[turn].session == session then Some(db) else None)
    else if !Live(db, session, turn) then None
    else Some(db.(controls := db.controls[turn := Control(session, Stopping, at)]))
  }

  predicate Unresolved(a: Approval, turn: Id) {
    a.turn == turn && (a.state == Executing || a.state == Uncertain)
  }

  function CancelPending(approvals: map<Id, Approval>, turn: Id): map<Id, Approval> {
    map a | a in approvals ::
      if approvals[a].turn == turn && approvals[a].state == Pending then approvals[a].(state := Cancelled)
      else approvals[a]
  }

  /** A confirmed stop is overruled by an effect without a known result. */
  function FinalState(approvals: map<Id, Approval>, turn: Id, confirmed: bool): ControlState {
    if confirmed && !(exists a | a in approvals :: Unresolved(approvals[a], turn)) then Stopped else NeedsReview
  }

  /** A final stop releases the lease it still holds; one under review keeps it. */
  function SessionsOnStop(sessions: map<Id, Session>, session: Id, turn: Id, final: ControlState): map<Id, Session>
    requires session in sessions
  {
    var v := sessions[session];
    if v.activeTurn != turn then sessions
    else if final == Stopped then sessions[session := v.(state := Idle, activeTurn := "")]
    else sessions[session := v.(state := ControlBlocked)]
  }

  function SettleStop(db: Db, turn: Id, final: ControlState): Db
    requires turn in db.controls && db.controls[turn].session in db.sessions
  {
    var c := db.controls[turn];
    db.(sessions := SessionsOnStop(db.sessions, c.session, turn, final),
        approvals := CancelPending(db.approvals, turn),
        controls := db.controls[turn := c.(state := final)],
        queue := SettleRows(db.queue, turn, if final == Stopped then RowCancelled else RowNeedsReview))
  }

  /** finishStoppedTurn, given what the runtime and the commands confirmed. A stop becomes final only here. */
  function FinishStop(db: Db, turn: Id, confirmed: bool): Option<Db> {
    if turn !in db.controls then None
    else
      var c := db.controls[turn];
      if c.state == Stopped || c.session !in db.sessions || (c.state == NeedsReview && !confirmed) then None
      else Some(SettleStop(db, turn, FinalState(db.approvals, turn, confirmed)))
  }

  // ---- The message queue ----

  function WithRow(db: Db, row: Id, state: RowState): Db
    requires row in db.queue
  {
    db.(queue := db.queue[row := db.queue[row].(state := state)])
  }

  /** QueueMessage: a change of direction sends earlier queued messages back for review. */
  function Enqueue(db: Db, row: Id, session: Id, mode: Mode, baseTurn: Id): Option<Db> {
    if row in db.queue || session !in db.sessions || (mode == Steer && baseTurn == "") then None
    else
      var others := if mode == Follow then db.queue
                    else map q | q in db.queue ::
                           if db.queue[q].session == session && db.queue[q].state == RowQueued
                           then db.queue[q].(state := RowNeedsReview) else db.queue[q];
      Some(db.(queue := others[row := QueueRow(session, mode, baseTurn, RowQueued, "")]))
  }

  /** A steer whose stop failed is put aside. */
  function Quarantine(db: Db, row: Id): Option<Db> {
    if row in db.queue && db.queue[row].state == RowQueued then Some(WithRow(db, row, RowNeedsReview)) else None
  }

  function CancelRow(db: Db, row: Id): Option<Db> {
    if row in db.queue && (db.queue[row].state == RowQueued || db.queue[row].state == RowNeedsReview)
    then Some(WithRow(db, row, RowCancelled)) else None
  }

  predicate StopConfirmed(db: Db, session: Id, turn: Id) {
    turn in db.controls && db.controls[turn].session == session && db.controls[turn].state == Stopped
  }

  /** DrainOneQueued picks a message for an idle session; a steer waits until its base turn is confirmed stopped. */
  function PickRow(db: Db, row: Id): Option<Db> {
    if db.draining.Some? || row !in db.queue then None
    else
      var q := db.queue[row];
      if q.state != RowQueued || !Holds(db, q.session, "", Idle) then None
      else if q.mode == Steer && !StopConfirmed(db, q.session, q.baseTurn) then None
      else Some(db.(draining := Some(row)))
  }

  /** After its turn returned, a row that is still running takes the outcome; one that never started needs review. */
  function Drained(queue: map<Id, QueueRow>, row: Id, outcome: RowState): map<Id, QueueRow>
    requires row in queue
  {
    var q := queue[row];
    if (q.state == RowRunning && outcome in {RowCompleted, RowAwaiting, RowFailed})
       || (q.state == RowQueued && outcome == RowNeedsReview)
    then queue[row := q.(state := outcome)]
    else queue
  }

  function FinishDrain(db: Db, row: Id, outcome: RowState): Option<Db> {
    if db.draining != Some(row) || row !in db.queue then None
    else Some(db.(draining := None, queue := Drained(db.queue, row, outcome)))
  }

  // ---- Automatic continuation ----

  function PauseRetry(db: Db, session: Id): Option<Db> {
    if session !in db.sessions then None
    else
      var r := if session in db.retries then db.retries[session].(state := RetryPaused) else Retry(RetryPaused, 0, "");
      Some(db.(retries := db.retries[session := r]))
  }

  function PauseExhausted(db: Db): Option<Db> {
    Some(db.(retries := map s | s in db.retries ::
      if db.retries[s].state == RetryPending && db.retries[s].attempts >= MAX_ATTEMPTS
      then db.retries[s].(state := RetryPaused) else db.retries[s]))
  }

  /** RunDueAutoRetry claims a schedule and counts the attempt before it opens a turn. */
  function ClaimRetry(db: Db, session: Id, source: Id): Option<Db> {
    if session !in db.retries then None
    else
      var r := db.retries[session];
      if r.state != RetryPending || r.source != source || r.attempts >= MAX_ATTEMPTS then None
      else Some(db.(retries := db.retries[session := r.(state := RetryRunning, attempts := r.attempts + 1)]))
  }

  function EndRetry(db: Db, session: Id, source: Id): Option<Db> {
    if session !in db.retries || db.retries[session].state != RetryRunning || db.retries[session].source != source then None
    else
      var r := db.retries[session];
      Some(db.(retries := db.retries[session :=
        r.(state := if r.attempts >= MAX_ATTEMPTS then RetryPaused else RetryPending)]))
  }

  function SetMode(db: Db, session: Id, auto: bool): Option<Db> {
    if session !in db.sessions then None
    else Some(db.(autoMode := if auto then db.autoMode + {session} else db.autoMode - {session}))
  }

  // ---- Restart ----

  /** A crash keeps the tables, even halfway through a recovery, and loses everything else. */
  function Crash(db: Db): Option<Db> {
    Some(db.(executions := {}, checked := {}, draining := None, phase := QueueRecovery))
  }

  predicate InterruptedRow(db: Db, q: QueueRow) {
    || (q.session in db.sessions && db.sessions[q.session].state in {Running, ControlBlocked})
    || (exists a | a in db.approvals ::
          db.approvals[a].session == q.session && db.approvals[a].state in {Executing, Uncertain})
    || (exists r | r in db.queue :: db.queue[r].session == q.session && db.queue[r].state == RowRunning)
  }

  /** RecoverMessageQueue. */
  function RecoverQueue(db: Db): Option<Db> {
    if db.phase != QueueRecovery then None
    else
      Some(db.(phase := ApprovalRecovery, queue := map q | q in db.queue ::
        if db.queue[q].state == RowRunning || (db.queue[q].state == RowQueued && InterruptedRow(db, db.queue[q]))
        then db.queue[q].(state := RowNeedsReview) else db.queue[q]))
  }

  /** What re-reading a workspace write says about an interrupted effect. */
  datatype Verdict = Applied | NotApplied | Indeterminate

  function VerdictOf(verdicts: map<Id, Verdict>, approval: Id): Verdict {
    if approval in verdicts then verdicts[approval] else Indeterminate
  }

  function Reconciled(verdict: Verdict): ApprovalState {
    match verdict case Applied => Executed case NotApplied => Pending case Indeterminate => Uncertain
  }

  predicate Interrupted(db: Db, session: Id) {
    exists a | a in db.approvals :: db.approvals[a].session == session && db.approvals[a].state == Executing
  }

  /** RecoverInterruptedApprovals releases the sessions of every interrupted effect, whatever their state. */
  function RecoverApprovals(db: Db, verdicts: map<Id, Verdict>): Option<Db> {
    if db.phase != ApprovalRecovery then None
    else
      Some(db.(
        phase := TurnRecovery,
        approvals := map a | a in db.approvals ::
          if db.approvals[a].state == Executing then db.approvals[a].(state := Reconciled(VerdictOf(verdicts, a)))
          else db.approvals[a],
        sessions := map s | s in db.sessions ::
          if Interrupted(db, s) then db.sessions[s].(state := Idle, activeTurn := "") else db.sessions[s]))
  }

  /** RecoverInterruptedTurns closes one session that was running; it schedules nothing itself. */
  function RecoverTurn(db: Db, session: Id, event: Id): Option<Db> {
    if db.phase != TurnRecovery || session !in db.sessions || db.sessions[session].state != Running then None
    else Some(Logged(Released(db, session), TurnFailed(session, event, db.sessions[session].activeTurn)))
  }

  function TurnsRecovered(db: Db): Option<Db> {
    if db.phase != TurnRecovery || exists s | s in db.sessions :: db.sessions[s].state == Running then None
    else Some(db.(phase := RetryRecovery))
  }

  /** RecoverAutoRetries, first statement. */
  function RequeueRetries(db: Db): Option<Db> {
    if db.phase != RetryRecovery then None
    else
      Some(db.(phase := OutcomeRecovery, retries := map s | s in db.retries ::
        if db.retries[s].state == RetryRunning then db.retries[s].(state := RetryPending) else db.retries[s]))
  }

  /** The unfinished outcome an idle session ended with, if it may be continued. */
  predicate Continues(db: Db, session: Id) {
    && session in db.sessions && db.sessions[session].state == Idle && !db.sessions[session].retryDisabled
    && var latest := LatestOutcome(db.log, session);
       latest.Some? && (latest.value.TurnFailed? || (latest.value.Answered? && latest.value.unfinished))
  }

  function Adopted(db: Db, session: Id): Retry
    requires session in db.retries || Continues(db, session)
  {
    var known := session in db.retries;
    if !Continues(db, session) then db.retries[session]
    else
      var source := LatestOutcome(db.log, session).value.id;
      if !known then Retry(RetryPending, 0, source)
      else
        var r := db.retries[session];
        if r.state == RetryPaused || r.source == source then r else r.(state := RetryPending, source := source)
  }

  /** RecoverAutoRetries, second statement. */
  function AdoptOutcomes(db: Db): Option<Db> {
    if db.phase != OutcomeRecovery then None
    else
      var all := db.retries.Keys + set s | s in db.sessions && Continues(db, s);
      Some(db.(phase := ControlRecovery, retries := map s | s in all :: Adopted(db, s)))
  }

  predicate UnderReview(controls: map<Id, Control>, session: Id) {
    exists t | t in controls :: controls[t].session == session && controls[t].state == NeedsReview
  }

  /** The latest request of a session still under review. */
  predicate LatestReview(controls: map<Id, Control>, session: Id, turn: Id) {
    && turn in controls && controls[turn].session == session && controls[turn].state == NeedsReview
    && forall t | t in controls && controls[t].session == session && controls[t].state == NeedsReview ::
         controls[t].requestedAt <= controls[turn].requestedAt
  }

  function Reviewed(controls: map<Id, Control>): map<Id, Control> {
    map t | t in controls ::
      if controls[t].state == Stopping then controls[t].(state := NeedsReview) else controls[t]
  }

  function Retaken(sessions: map<Id, Session>, controls: map<Id, Control>, latest: map<Id, Id>): map<Id, Session> {
    map s | s in sessions ::
      if UnderReview(controls, s) && s in latest
      then sessions[s].(state := ControlBlocked, activeTurn := latest[s]) else sessions[s]
  }

  function CancelStopped(approvals: map<Id, Approval>, controls: map<Id, Control>): map<Id, Approval> {
    map a | a in approvals ::
      if approvals[a].state == Pending && approvals[a].turn in controls
      then approvals[a].(state := Cancelled) else approvals[a]
  }

  function HoldSteers(queue: map<Id, QueueRow>, controls: map<Id, Control>): map<Id, QueueRow> {
    map q | q in queue ::
      if queue[q].state == RowQueued && queue[q].mode == Steer && queue[q].baseTurn in controls
         && controls[queue[q].baseTurn].state == NeedsReview
      then queue[q].(state := RowNeedsReview) else queue[q]
  }

  predicate LatestReviews(sessions: map<Id, Session>, controls: map<Id, Control>, latest: map<Id, Id>) {
    forall s | s in sessions && UnderReview(controls, s) :: s in latest && LatestReview(controls, s, latest[s])
  }

  /**
   * RecoverTurnControls: unconfirmed stops take their sessions back. Which of several equally late requests a session
   * names is left open, so the choice is a parameter.
   */
  function RecoverControls(db: Db, latest: map<Id, Id>): Option<Db> {
    var controls := Reviewed(db.controls);
    if db.phase != ControlRecovery || !LatestReviews(db.sessions, controls, latest) then None
    else
      Some(db.(
        phase := Serving, controls := controls, sessions := Retaken(db.sessions, controls, latest),
        approvals := CancelStopped(db.approvals, controls), queue := HoldSteers(db.queue, controls)))
  }

  // ---- Steps and runs ----

  datatype Step =
    | DoOpenSession(session: Id, retryDisabled: bool)
    | DoAcquire(session: Id, turn: Id, entry: Entry, event: Id)
    | DoComplete(session: Id, turn: Id, event: Id, unfinished: bool)
    | DoFail(session: Id, turn: Id, event: Id)
    | DoBlock(session: Id, turn: Id)
    | DoRegister(turn: Id)
    | DoEnd(turn: Id)
    | DoCreate(approval: Id, session: Id, turn: Id, authorized: bool)
    | DoCheck(approval: Id)
    | DoClaim(approval: Id, approve: bool, automatic: bool)
    | DoPersist(approval: Id, approve: bool, receipt: Receipt)
    | DoStop(session: Id, turn: Id, at: int)
    | DoFinishStop(turn: Id, confirmed: bool)
    | DoEnqueue(row: Id, session: Id, mode: Mode, baseTurn: Id)
    | DoQuarantine(row: Id)
    | DoCancelRow(row: Id)
    | DoPick(row: Id)
    | DoFinishDrain(row: Id, outcome: RowState)
    | DoPauseRetry(session: Id)
    | DoPauseExhausted
    | DoClaimRetry(session: Id, source: Id)
    | DoEndRetry(session: Id, source: Id)
    | DoSetMode(session: Id, auto: bool)
    | DoCrash
    | DoRecoverQueue
    | DoRecoverApprovals(verdicts: map<Id, Verdict>)
    | DoRecoverTurn(session: Id, event: Id)
    | DoTurnsRecovered
    | DoRequeueRetries
    | DoAdoptOutcomes
    | DoRecoverControls(latest: map<Id, Id>)

  predicate QueueStep(step: Step) {
    || step.DoEnqueue? || step.DoQuarantine? || step.DoCancelRow? || step.DoPick? || step.DoFinishDrain?
  }

  predicate RetryStep(step: Step) {
    step.DoPauseRetry? || step.DoPauseExhausted? || step.DoClaimRetry? || step.DoEndRetry?
  }

  predicate VolatileStep(step: Step) {
    step.DoRegister? || step.DoEnd? || step.DoCheck? || step.DoSetMode?
  }

  predicate TurnStep(step: Step) {
    step.DoOpenSession? || step.DoAcquire? || step.DoComplete? || step.DoFail? || step.DoBlock?
  }

  predicate ApprovalStep(step: Step) {
    step.DoCreate? || step.DoClaim? || step.DoPersist? || step.DoStop? || step.DoFinishStop?
  }

  predicate RecoveryStep(step: Step) {
    || step.DoRecoverQueue? || step.DoRecoverApprovals? || step.DoRecoverTurn? || step.DoTurnsRecovered?
    || step.DoRequeueRetries? || step.DoAdoptOutcomes? || step.DoRecoverControls?
  }

  function ServeQueue(db: Db, step: Step): Option<Db>
    requires QueueStep(step)
  {
    match step
    case DoEnqueue(row, session, mode, baseTurn) => Enqueue(db, row, session, mode, baseTurn)
    case DoQuarantine(row) => Quarantine(db, row)
    case DoCancelRow(row) => CancelRow(db, row)
    case DoPick(row) => PickRow(db, row)
    case DoFinishDrain(row, outcome) => FinishDrain(db, row, outcome)
  }

  function ServeRetry(db: Db, step: Step): Option<Db>
    requires RetryStep(step)
  {
    match step
    case DoPauseRetry(session) => PauseRetry(db, session)
    case DoPauseExhausted => PauseExhausted(db)
    case DoClaimRetry(session, source) => ClaimRetry(db, session, source)
    case DoEndRetry(session, source) => EndRetry(db, session, source)
  }

  function ServeVolatile(db: Db, step: Step): Option<Db>
    requires VolatileStep(step)
  {
    match step
    case DoRegister(turn) => RegisterExecution(db, turn)
    case DoEnd(turn) => EndExecution(db, turn)
    case DoCheck(approval) => CheckDecision(db, approval)
    case DoSetMode(session, auto) => SetMode(db, session, auto)
  }

  function ServeTurn(db: Db, step: Step): Option<Db>
    requires TurnStep(step)
  {
    match step
    case DoOpenSession(session, retryDisabled) => OpenSession(db, session, retryDisabled)
    case DoAcquire(session, turn, entry, event) => Acquire(db, session, turn, entry, event)
    case DoComplete(session, turn, event, unfinished) => Complete(db, session, turn, event, unfinished)
    case DoFail(session, turn, event) => Fail(db, session, turn, event)
    case DoBlock(session, turn) => BlockContinuation(db, session, turn)
  }

  function ServeApproval(db: Db, step: Step): Option<Db>
    requires ApprovalStep(step)
  {
    match step
    case DoCreate(approval, session, turn, authorized) => CreateApproval(db, approval, session, turn, authorized)
    case DoClaim(approval, approve, automatic) => Claim(db, approval, approve, automatic)
    case DoPersist(approval, approve, receipt) => PersistReceipt(db, approval, approve, receipt)
    case DoStop(session, turn, at) => Stop(db, session, turn, at)
    case DoFinishStop(turn, confirmed) => FinishStop(db, turn, confirmed)
  }

  function Recover(db: Db, step: Step): Option<Db>
    requires RecoveryStep(step)
  {
    match step
    case DoRecoverQueue => RecoverQueue(db)
    case DoRecoverApprovals(verdicts) => RecoverApprovals(db, verdicts)
    case DoRecoverTurn(session, event) => RecoverTurn(db, session, event)
    case DoTurnsRecovered => TurnsRecovered(db)
    case DoRequeueRetries => RequeueRetries(db)
    case DoAdoptOutcomes => AdoptOutcomes(db)
    case DoRecoverControls(latest) => RecoverControls(db, latest)
  }

  /** Any transaction while serving, a crash at any point, and recovery in its fixed order before serving again. */
  function Next(db: Db, step: Step): Option<Db> {
    if step.DoCrash? then Crash(db)
    else if RecoveryStep(step) then Recover(db, step)
    else if db.phase != Serving then None
    else if TurnStep(step) then ServeTurn(db, step)
    else if ApprovalStep(step) then ServeApproval(db, step)
    else if QueueStep(step) then ServeQueue(db, step)
    else if RetryStep(step) then ServeRetry(db, step)
    else ServeVolatile(db, step)
  }

  /** The state after a run of steps, if every guard let its step through. */
  function Run(db: Db, steps: seq<Step>): Option<Db> {
    if steps == [] then Some(db)
    else
      match Run(db, steps[..|steps| - 1])
      case None => None
      case Some(before) => Next(before, steps[|steps| - 1])
  }

  lemma {:induction false} RunJoin(db: Db, steps: seq<Step>, more: seq<Step>)
    requires Run(db, steps).Some?
    ensures Run(db, steps + more) == Run(Run(db, steps).value, more)
  {
    if more == [] {
      assert steps + more == steps;
    } else {
      var n := |more| - 1;
      RunJoin(db, steps, more[..n]);
      assert (steps + more)[..|steps + more| - 1] == steps + more[..n];
    }
  }

  lemma {:induction false} RunPrefix(db: Db, steps: seq<Step>, n: nat)
    requires Run(db, steps).Some? && n <= |steps|
    ensures Run(db, steps[..n]).Some?
  {
    if n < |steps| {
      assert steps[..|steps| - 1][..n] == steps[..n];
      RunPrefix(db, steps[..|steps| - 1], n);
    } else {
      assert steps[..n] == steps;
    }
  }
}
