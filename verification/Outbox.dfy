/**
 * Managed-agent delivery: a stream's sequence numbers, its immutable outbox rows, and acknowledgements that may be
 * lost, repeated or late.
 */
module Outbox {
  import opened Wrappers

  type RunId = string

  datatype Status = Pending | Failed | Acked

  datatype Row = Row(envelope: string, attempts: nat, status: Status)

  /** next is the sequence the next update will take; acked is the highest acknowledged one. */
  datatype Stream = Stream(next: int, acked: int)

  datatype Key = Key(run: RunId, sequence: int)

  datatype Sender = Sender(streams: map<RunId, Stream>, rows: map<Key, Row>)

  const EMPTY_SENDER := Sender(map[], map[])

  // ---- Transactions ----

  function Intake(s: Sender, run: RunId): Option<Sender> {
    if run in s.streams then None else Some(s.(streams := s.streams[run := Stream(1, 0)]))
  }

  /** ObserveInitial takes the stream's next sequence and inserts the row under it in one transaction. */
  function Observe(s: Sender, run: RunId, envelope: string): Option<Sender> {
    if run !in s.streams then None
    else
      var next := s.streams[run].next;
      if Key(run, next) in s.rows then None
      else
        Some(Sender(s.streams[run := s.streams[run].(next := next + 1)],
                    s.rows[Key(run, next) := Row(envelope, 0, Pending)]))
  }

  /** recordDeliveryAttempt, guarded by the attempts it saw. */
  function Attempt(s: Sender, key: Key, attempts: nat): Option<Sender> {
    if key !in s.rows || s.rows[key].attempts != attempts then None
    else Some(s.(rows := s.rows[key := s.rows[key].(attempts := attempts + 1)]))
  }

  /** recordDeliveryFailure. */
  function Failure(s: Sender, key: Key, attempts: nat): Option<Sender> {
    if key in s.rows && s.rows[key].attempts == attempts
    then Some(s.(rows := s.rows[key := s.rows[key].(status := Failed)]))
    else Some(s)
  }

  function MarkAcked(rows: map<Key, Row>, run: RunId, upTo: int): map<Key, Row> {
    map k | k in rows :: if k.run == run && k.sequence <= upTo then rows[k].(status := Acked) else rows[k]
  }

  /** applyACK: ahead of the stream it is refused, behind it changes nothing. */
  function ApplyAck(s: Sender, run: RunId, acked: int): Option<Sender> {
    if run !in s.streams || acked >= s.streams[run].next then None
    else if acked <= s.streams[run].acked then Some(s)
    else Some(Sender(s.streams[run := s.streams[run].(acked := acked)], MarkAcked(s.rows, run, acked)))
  }

  datatype Step =
    | DoIntake(run: RunId)
    | DoObserve(run: RunId, envelope: string)
    | DoAttempt(key: Key, attempts: nat)
    | DoFailure(key: Key, attempts: nat)
    | DoAck(run: RunId, acked: int)

  function Next(s: Sender, step: Step): Option<Sender> {
    match step
    case DoIntake(run) => Intake(s, run)
    case DoObserve(run, envelope) => Observe(s, run, envelope)
    case DoAttempt(key, attempts) => Attempt(s, key, attempts)
    case DoFailure(key, attempts) => Failure(s, key, attempts)
    case DoAck(run, acked) => ApplyAck(s, run, acked)
  }

  function Run(s: Sender, steps: seq<Step>): Option<Sender> {
    if steps == [] then Some(s)
    else
      match Run(s, steps[..|steps| - 1])
      case None => None
      case Some(before) => Next(before, steps[|steps| - 1])
  }

  lemma OneStep(s: Sender, step: Step, after: Sender)
    requires Next(s, step) == Some(after)
    ensures Run(s, [step]) == Some(after)
  {
    assert [step][..0] == [];
  }

  lemma RunMore(s: Sender, steps: seq<Step>, step: Step)
    requires Run(s, steps).Some?
    ensures Run(s, steps + [step]) == Next(Run(s, steps).value, step)
  {
    assert (steps + [step])[..|steps|] == steps;
  }

  lemma {:induction false} RunJoin(s: Sender, steps: seq<Step>, more: seq<Step>)
    requires Run(s, steps).Some?
    ensures Run(s, steps + more) == Run(Run(s, steps).value, more)
  {
    if more == [] {
      assert steps + more == steps;
    } else {
      var n := |more| - 1;
      RunJoin(s, steps, more[..n]);
      assert (steps + more)[..|steps + more| - 1] == steps + more[..n];
    }
  }

  // ---- What the sender keeps ----

  /** The rows of a stream are exactly the sequences it has given out. */
  predicate RowsExact(s: Sender) {
    && (forall k | k in s.rows :: k.run in s.streams && 1 <= k.sequence < s.streams[k.run].next)
    && (forall run, n | run in s.streams && 1 <= n < s.streams[run].next :: Key(run, n) in s.rows)
  }

  predicate AcksWithin(s: Sender) {
    forall run | run in s.streams :: 0 <= s.streams[run].acked < s.streams[run].next
  }

  predicate MarksJustified(s: Sender) {
    forall k | k in s.rows && s.rows[k].status == Acked :: k.run in s.streams && k.sequence <= s.streams[k.run].acked
  }

  predicate SenderInv(s: Sender) {
    RowsExact(s) && AcksWithin(s) && MarksJustified(s)
  }

  /** Nothing is taken back: sequences, acknowledgements and the bytes of a row only stay or grow. */
  predicate Forward(before: Sender, after: Sender) {
    && (forall run | run in before.streams ::
          && run in after.streams && before.streams[run].next <= after.streams[run].next
          && before.streams[run].acked <= after.streams[run].acked)
    && (forall k | k in before.rows ::
          && k in after.rows && after.rows[k].envelope == before.rows[k].envelope
          && before.rows[k].attempts <= after.rows[k].attempts)
  }

  lemma ObserveKeeps(s: Sender, run: RunId, envelope: string)
    requires SenderInv(s) && run in s.streams
    ensures Observe(s, run, envelope).Some?
    ensures SenderInv(Observe(s, run, envelope).value) && Forward(s, Observe(s, run, envelope).value)
  {
  }

  lemma AckKeeps(s: Sender, run: RunId, acked: int)
    requires SenderInv(s) && ApplyAck(s, run, acked).Some?
    ensures SenderInv(ApplyAck(s, run, acked).value) && Forward(s, ApplyAck(s, run, acked).value)
  {
  }

  lemma IntakeKeeps(s: Sender, run: RunId)
    requires SenderInv(s) && Intake(s, run).Some?
    ensures SenderInv(Intake(s, run).value) && Forward(s, Intake(s, run).value)
  {
  }

  lemma AttemptKeeps(s: Sender, key: Key, attempts: nat)
    requires SenderInv(s) && Attempt(s, key, attempts).Some?
    ensures SenderInv(Attempt(s, key, attempts).value) && Forward(s, Attempt(s, key, attempts).value)
  {
  }

  lemma FailureKeeps(s: Sender, key: Key, attempts: nat)
    requires SenderInv(s)
    ensures Failure(s, key, attempts).Some?
    ensures SenderInv(Failure(s, key, attempts).value) && Forward(s, Failure(s, key, attempts).value)
  {
  }

  lemma StepKeeps(s: Sender, step: Step)
    requires SenderInv(s) && Next(s, step).Some?
    ensures SenderInv(Next(s, step).value) && Forward(s, Next(s, step).value)
  {
    match step
    case DoIntake(run) => IntakeKeeps(s, run);
    case DoObserve(run, envelope) => ObserveKeeps(s, run, envelope);
    case DoAttempt(key, attempts) => AttemptKeeps(s, key, attempts);
    case DoFailure(key, attempts) => FailureKeeps(s, key, attempts);
    case DoAck(run, acked) => AckKeeps(s, run, acked);
  }

  lemma {:induction false} RunKeeps(s: Sender, steps: seq<Step>)
    requires SenderInv(s) && Run(s, steps).Some?
    ensures SenderInv(Run(s, steps).value) && Forward(s, Run(s, steps).value)
  {
    if steps != [] {
      var n := |steps| - 1;
      RunKeeps(s, steps[..n]);
      StepKeeps(Run(s, steps[..n]).value, steps[n]);
    }
  }

  // ---- The receiver and the network between them ----

  /** What the receiver has, and every acknowledgement it ever issued: each may arrive never, once or often, late. */
  datatype World = World(sender: Sender, got: set<Key>, issued: set<Key>)

  const EMPTY_WORLD := World(EMPTY_SENDER, {}, {})

  /** The highest sequence below which nothing is missing. */
  predicate IsContiguous(got: set<Key>, run: RunId, n: int) {
    n >= 0 && (forall k | 1 <= k <= n :: Key(run, k) in got) && Key(run, n + 1) !in got
  }

  datatype Happening = Local(step: Step) | Receive(key: Key, contiguous: int)

  function Happen(w: World, event: Happening): Option<World> {
    match event
    case Local(step) =>
      if step.DoAck? && Key(step.run, step.acked) !in w.issued then None
      else
        (match Next(w.sender, step) case None => None case Some(sender) => Some(w.(sender := sender)))
    case Receive(key, contiguous) =>
      var got := w.got + {key};
      if key !in w.sender.rows || w.sender.rows[key].attempts == 0 || !IsContiguous(got, key.run, contiguous) then None
      else Some(w.(got := got, issued := w.issued + {Key(key.run, contiguous)}))
  }

  function History(w: World, events: seq<Happening>): Option<World> {
    if events == [] then Some(w)
    else
      match History(w, events[..|events| - 1])
      case None => None
      case Some(before) => Happen(before, events[|events| - 1])
  }

  /** The receiver has only what was sent. */
  predicate GotSent(w: World) {
    forall k | k in w.got :: k in w.sender.rows
  }

  predicate AllGot(w: World, run: RunId, upTo: int) {
    forall k | 1 <= k <= upTo :: Key(run, k) in w.got
  }

  predicate AcksHonest(w: World) {
    forall a | a in w.issued :: a.sequence >= 0 && a.run in w.sender.streams && AllGot(w, a.run, a.sequence)
  }

  predicate AckedReceived(w: World) {
    forall run | run in w.sender.streams :: AllGot(w, run, w.sender.streams[run].acked)
  }

  predicate WorldInv(w: World) {
    SenderInv(w.sender) && GotSent(w) && AcksHonest(w) && AckedReceived(w)
  }

  lemma ReceiveKeeps(w: World, key: Key, contiguous: int)
    requires WorldInv(w) && Happen(w, Receive(key, contiguous)).Some?
    ensures WorldInv(Happen(w, Receive(key, contiguous)).value)
  {
    var after := Happen(w, Receive(key, contiguous)).value;
    forall a | a in after.issued ensures a.sequence >= 0 && a.run in after.sender.streams && AllGot(after, a.run, a.sequence) {
      if a in w.issued {
        assert AllGot(w, a.run, a.sequence);
      }
    }
    forall run | run in after.sender.streams ensures AllGot(after, run, after.sender.streams[run].acked) {
      assert AllGot(w, run, w.sender.streams[run].acked);
    }
  }

  lemma LocalKeeps(w: World, step: Step)
    requires WorldInv(w) && Happen(w, Local(step)).Some?
    ensures WorldInv(Happen(w, Local(step)).value)
  {
    var after := Happen(w, Local(step)).value;
    StepKeeps(w.sender, step);
    forall a | a in after.issued ensures a.sequence >= 0 && a.run in after.sender.streams && AllGot(after, a.run, a.sequence) {
      assert AllGot(w, a.run, a.sequence);
    }
    forall run | run in after.sender.streams ensures AllGot(after, run, after.sender.streams[run].acked) {
      if run in w.sender.streams && after.sender.streams[run].acked == w.sender.streams[run].acked {
        assert AllGot(w, run, w.sender.streams[run].acked);
      } else if step.DoAck? {
        assert Key(run, step.acked) in w.issued;
      }
    }
  }

  lemma {:induction false} HistoryKeeps(w: World, events: seq<Happening>)
    requires WorldInv(w) && History(w, events).Some?
    ensures WorldInv(History(w, events).value)
  {
    if events != [] {
      var n := |events| - 1;
      HistoryKeeps(w, events[..n]);
      var before := History(w, events[..n]).value;
      match events[n]
      case Local(step) => LocalKeeps(before, step);
      case Receive(key, contiguous) => ReceiveKeeps(before, key, contiguous);
    }
  }

  /** In every history, whatever was lost, repeated or late: everything up to acked was received. */
  lemma AckSafety(events: seq<Happening>, run: RunId, k: int)
    requires History(EMPTY_WORLD, events).Some?
    requires
      var w := History(EMPTY_WORLD, events).value;
      run in w.sender.streams && 1 <= k <= w.sender.streams[run].acked
    ensures
      var w := History(EMPTY_WORLD, events).value;
      Key(run, k) in w.got && Key(run, k) in w.sender.rows && k < w.sender.streams[run].next
  {
    HistoryKeeps(EMPTY_WORLD, events);
    var w := History(EMPTY_WORLD, events).value;
    assert AllGot(w, run, w.sender.streams[run].acked);
  }

  /** An acknowledgement the receiver issued is never ahead of the stream, however late it arrives. */
  lemma HonestAckAccepted(w: World, run: RunId, acked: int)
    requires WorldInv(w) && Key(run, acked) in w.issued
    ensures ApplyAck(w.sender, run, acked).Some?
  {
    assert AllGot(w, run, acked);
    if acked >= 1 {
      assert Key(run, acked) in w.got;
    }
  }

  /** A repeated or stale acknowledgement changes nothing. */
  lemma StaleAckIgnored(s: Sender, run: RunId, acked: int)
    requires ApplyAck(s, run, acked).Some?
    ensures
      var once := ApplyAck(s, run, acked).value;
      forall stale | stale <= acked :: ApplyAck(once, run, stale) == Some(once)
  {
  }

  // ---- When an acknowledged row is marked so ----

  /** The step moves the acknowledgement of the row's stream to the row or beyond. */
  predicate MarksRow(s: Sender, step: Step, key: Key) {
    && step.DoAck? && step.run == key.run && key.sequence <= step.acked
    && step.run in s.streams && s.streams[step.run].acked < step.acked
  }

  /** The step is a failure of this row that takes effect. */
  predicate FailsRow(s: Sender, step: Step, key: Key) {
    step.DoFailure? && step.key == key && key in s.rows && s.rows[key].attempts == step.attempts
  }

  /** Reading a history backwards, a failure of the row comes before any acknowledgement that covers it. */
  predicate FailedSince(w: World, events: seq<Happening>, key: Key) {
    if events == [] then false
    else
      var n := |events| - 1;
      match History(w, events[..n])
      case None => false
      case Some(before) =>
        if events[n].Local? && FailsRow(before.sender, events[n].step, key) then true
        else if events[n].Local? && MarksRow(before.sender, events[n].step, key) then false
        else FailedSince(w, events[..n], key)
  }

  predicate IsMarked(s: Sender, key: Key) {
    key in s.rows && s.rows[key].status == Acked
  }

  predicate Covered(s: Sender, key: Key) {
    key in s.rows && key.run in s.streams && key.sequence <= s.streams[key.run].acked
  }

  /** What one step does to a covered row: a failure unmarks it, an acknowledgement that moves the mark marks it. */
  lemma MarkMoves(s: Sender, step: Step, key: Key)
    requires SenderInv(s) && Next(s, step).Some? && Covered(Next(s, step).value, key)
    ensures
      var after := Next(s, step).value;
      if FailsRow(s, step, key) then !IsMarked(after, key)
      else if MarksRow(s, step, key) then IsMarked(after, key)
      else Covered(s, key) && (IsMarked(after, key) <==> IsMarked(s, key))
  {
  }

  /** In every history, a row at or below the acknowledged sequence is marked acked unless a failure of it came since. */
  lemma {:induction false} MarkedUnlessFailedSince(events: seq<Happening>, key: Key)
    requires History(EMPTY_WORLD, events).Some? && Covered(History(EMPTY_WORLD, events).value.sender, key)
    ensures IsMarked(History(EMPTY_WORLD, events).value.sender, key) <==> !FailedSince(EMPTY_WORLD, events, key)
  {
    if events != [] {
      var n := |events| - 1;
      HistoryKeeps(EMPTY_WORLD, events[..n]);
      var before := History(EMPTY_WORLD, events[..n]).value;
      if events[n].Local? {
        MarkMoves(before.sender, events[n].step, key);
      }
      if Covered(before.sender, key) {
        MarkedUnlessFailedSince(events[..n], key);
      }
    }
  }

  lemma HistoryMore(w: World, events: seq<Happening>, event: Happening)
    requires History(w, events).Some?
    ensures History(w, events + [event]) == Happen(History(w, events).value, event)
  {
    assert (events + [event])[..|events|] == events;
  }
}
