/** The sender's service object: its tables, and the delivery loop over a snapshot of what is still unacknowledged. */
module OutboxService {
  import opened Wrappers
  import opened Outbox
  import opened OutboxDelivery
  import StableSort

  datatype Delivery = Delivery(attempted: nat, acked: int, pending: nat, exhausted: nat)

  class Service {
    var streams: map<RunId, Stream>
    var rows: map<Key, Row>

    function Tables(): Sender
      reads this
    {
      Sender(streams, rows)
    }

    ghost predicate Valid()
      reads this
    {
      SenderInv(Tables())
    }

    constructor ()
      ensures Valid() && Tables() == EMPTY_SENDER
    {
      streams, rows := map[], map[];
    }

    /** The call took one step of the sender, or was refused and changed nothing. */
    twostate predicate Stepped(step: Step, ok: bool)
      reads this
    {
      if ok then Next(old(Tables()), step) == Some(Tables()) && Forward(old(Tables()), Tables())
      else Next(old(Tables()), step) == None && Tables() == old(Tables())
    }

    /** internal/agentplatform/intake.go:54-81: a stream starts at sequence 1. */
    method AcceptAssignment(run: RunId) returns (ok: bool)
      requires Valid()
      modifies this
      ensures Valid() && Stepped(DoIntake(run), ok)
      ensures run in streams && (!ok ==> run in old(streams))
    {
      ghost var before := Tables();
      ok := run !in streams;
      if ok {
        streams := streams[run := Stream(1, 0)];
        StepKeeps(before, DoIntake(run));
      }
    }

    /** The sequence of an update of a known run is always free. */
    method ObserveInitial(run: RunId, envelope: string) returns (ok: bool)
      requires Valid()
      modifies this
      ensures Valid() && Stepped(DoObserve(run, envelope), ok)
      ensures ok <==> run in old(streams)
      ensures ok ==> Key(run, old(streams)[run].next) !in old(rows)
      ensures MarksComplete(old(Tables())) ==> MarksComplete(Tables())
    {
      ghost var before := Tables();
      if run !in streams || Key(run, streams[run].next) in rows {
        return false;
      }
      var sequence := streams[run].next;
      rows := rows[Key(run, sequence) := Row(envelope, 0, Pending)];
      streams := streams[run := streams[run].(next := sequence + 1)];
      StepKeeps(before, DoObserve(run, envelope));
      if MarksComplete(before) {
        StepMarks(before, DoObserve(run, envelope));
      }
      return true;
    }

    /** internal/agentplatform/outbox.go:92-103, recordDeliveryAttempt. */
    method RecordDeliveryAttempt(item: Item) returns (ok: bool)
      requires Valid()
      modifies this`rows
      ensures Valid() && Stepped(DoAttempt(item.key, item.attempts), ok)
      ensures ok <==> item.key in old(rows) && old(rows)[item.key].attempts == item.attempts
    {
      ghost var before := Tables();
      ok := item.key in rows && rows[item.key].attempts == item.attempts;
      if ok {
        rows := rows[item.key := rows[item.key].(attempts := item.attempts + 1)];
        StepKeeps(before, DoAttempt(item.key, item.attempts));
      }
    }

    /** internal/agentplatform/outbox.go:105-110, recordDeliveryFailure. */
    method RecordDeliveryFailure(item: Item)
      requires Valid()
      modifies this`rows
      ensures Valid() && Stepped(DoFailure(item.key, item.attempts + 1), true)
    {
      ghost var before := Tables();
      if item.key in rows && rows[item.key].attempts == item.attempts + 1 {
        rows := rows[item.key := rows[item.key].(status := Failed)];
      }
      StepKeeps(before, DoFailure(item.key, item.attempts + 1));
    }

    /** An acknowledgement never leaves an acknowledged row unmarked, and once applied, older ones change nothing. */
    method ApplyACK(run: RunId, acked: int) returns (ok: bool)
      requires Valid()
      modifies this
      ensures Valid() && Stepped(DoAck(run, acked), ok)
      ensures ok <==> run in old(streams) && acked < old(streams)[run].next
      ensures ok ==> forall stale | stale <= acked :: ApplyAck(Tables(), run, stale) == Some(Tables())
      ensures MarksComplete(old(Tables())) ==> MarksComplete(Tables())
    {
      ghost var before := Tables();
      if run !in streams || acked >= streams[run].next {
        return false;
      }
      if acked > streams[run].acked {
        streams := streams[run := streams[run].(acked := acked)];
        rows := MarkAcked(rows, run, acked);
      }
      StepKeeps(before, DoAck(run, acked));
      StaleAckIgnored(before, run, acked);
      if MarksComplete(before) {
        StepMarks(before, DoAck(run, acked));
      }
      return true;
    }

    method Snapshot(maxAttempts: int) returns (items: seq<Item>)
      ensures IsSnapshot(Tables(), items, maxAttempts) && StableSort.Sorted(items, BY_RUN_AND_SEQUENCE)
    {
      var found := CollectDue(Tables(), maxAttempts);
      items := StableSort.Sort(found, BY_RUN_AND_SEQUENCE);
      SortedSnapshot(Tables(), found, items, maxAttempts);
      RunOrderIsWeak();
      StableSort.SortSorted(found, BY_RUN_AND_SEQUENCE);
    }

    /** What came back from a transmission. */
    method RecordAnswer(item: Item, reply: Reply) returns (ok: bool, ghost steps: seq<Step>)
      requires Valid()
      modifies this
      ensures Valid() && Answered(old(Tables()), item, reply) == (Tables(), ok)
      ensures Run(old(Tables()), steps) == Some(Tables()) && DeliveryStepsOnly(steps)
    {
      ghost var before := Tables();
      steps := [];
      if reply.AckFor? && reply.run == item.key.run {
        ok := ApplyACK(reply.run, reply.acked);
        if ok {
          OneStep(before, DoAck(reply.run, reply.acked), Tables());
          steps := [DoAck(reply.run, reply.acked)];
        }
      } else {
        RecordDeliveryFailure(item);
        ok := true;
        OneStep(before, DoFailure(item.key, item.attempts + 1), Tables());
        steps := [DoFailure(item.key, item.attempts + 1)];
      }
    }

    /** One transmission: the attempt is recorded before anything is sent. */
    method DeliverOne(item: Item, reply: Reply) returns (ok: bool, ghost steps: seq<Step>)
      requires Valid()
      modifies this
      ensures Valid() && Transmit(old(Tables()), item, reply) == (Tables(), ok)
      ensures Run(old(Tables()), steps) == Some(Tables()) && DeliveryStepsOnly(steps)
    {
      ghost var start, attempt := Tables(), DoAttempt(item.key, item.attempts);
      steps := [];
      ok := RecordDeliveryAttempt(item);
      if ok {
        OneStep(start, attempt, Tables());
        ghost var more;
        ok, more := RecordAnswer(item, reply);
        RunJoin(start, [attempt], more);
        steps := [attempt] + more;
      }
    }

    method CountPending(maxAttempts: int) returns (pending: nat, exhausted: nat)
      ensures pending == |set k | k in rows && Outstanding(Tables(), k)|
      ensures exhausted == |set k | k in rows && Outstanding(Tables(), k) && rows[k].attempts >= maxAttempts|
    {
      var left := set k | k in rows && Outstanding(Tables(), k);
      var spent := set k | k in rows && Outstanding(Tables(), k) && rows[k].attempts >= maxAttempts;
      pending, exhausted := |left|, |spent|;
    }

    /**
     * DeliverPending. The transport gets the stored envelopes of the due rows, each once, by run and sequence, up to the
     * transmission whose acknowledgement was refused; the rows, the marks and the result are those of that pass.
     */
    method DeliverPending(maxAttempts: int, replies: nat -> Reply)
      returns (ok: bool, result: Delivery, sent: seq<string>, ghost items: seq<Item>, ghost steps: seq<Step>)
      requires Valid()
      modifies this
      ensures Valid() && Forward(old(Tables()), Tables())
      ensures Run(old(Tables()), steps) == Some(Tables()) && DeliveryStepsOnly(steps)
      ensures IsSnapshot(old(Tables()), items, maxAttempts) && StableSort.Sorted(items, BY_RUN_AND_SEQUENCE)
      ensures
        var pass := Deliver(old(Tables()), items, replies);
        && Tables() == pass.sender && (ok <==> maxAttempts >= 1 && pass.ok)
        && result.attempted == pass.attempted && result.acked == pass.acked
      ensures result.attempted <= |items| && sent == Envelopes(items[..result.attempted])
      ensures ok ==> result.attempted == |items|
      ensures !ok && maxAttempts >= 1 ==> EndedOnAck(Deliver(old(Tables()), items, replies), items, replies)
      ensures ok ==> DueAttempted(old(Tables()), Tables(), maxAttempts)
      ensures ok ==>
        && result.pending == |set k | k in rows && Outstanding(Tables(), k)|
        && result.exhausted == |set k | k in rows && Outstanding(Tables(), k) && rows[k].attempts >= maxAttempts|
      ensures MarksComplete(old(Tables())) && OneDueEach(old(Tables()), maxAttempts) ==> MarksComplete(Tables())
    {
      if maxAttempts < 1 {
        return false, Delivery(0, 0, 0, 0), [], [], [];
      }
      ghost var start := Tables();
      var due := Snapshot(maxAttempts);
      items := due;
      var attempted, acked, pending, exhausted;
      ok, attempted, acked, sent, steps := SendAll(due, replies);
      RunKeeps(start, steps);
      PassOutcome(start, items, maxAttempts, replies);
      pending, exhausted := CountPending(maxAttempts);
      result := if ok then Delivery(attempted, acked, pending, exhausted) else Delivery(attempted, acked, 0, 0);
    }

    /** The loop of the delivery: one item after another, until an acknowledgement is refused. */
    method SendAll(items: seq<Item>, replies: nat -> Reply)
      returns (ok: bool, attempted: nat, acked: int, sent: seq<string>, ghost steps: seq<Step>)
      requires Valid()
      modifies this
      ensures Valid() && Deliver(old(Tables()), items, replies) == Pass(Tables(), ok, attempted, acked)
      ensures attempted <= |items| && sent == Envelopes(items[..attempted])
      ensures Run(old(Tables()), steps) == Some(Tables()) && DeliveryStepsOnly(steps)
    {
      ghost var start := Tables();
      ok, attempted, acked, sent, steps := true, 0, 0, [], [];
      for i := 0 to |items|
        invariant Valid() && Deliver(start, items[..i], replies) == Pass(Tables(), true, i, acked) && attempted == i && ok
        invariant sent == Envelopes(items[..i])
        invariant Run(start, steps) == Some(Tables()) && DeliveryStepsOnly(steps)
      {
        var item, reply := items[i], replies(i);
        attempted, sent := attempted + 1, sent + [item.envelope];
        EnvelopesMore(items, i);
        ghost var before, more := Tables(), [];
        ok, more := DeliverOne(item, reply);
        DeliverNext(start, items, replies, i, Pass(before, true, i, acked), Tables(), ok);
        RunJoin(start, steps, more);
        steps := steps + more;
        if !ok {
          PassStops(start, items, replies, i + 1);
          return;
        }
        if reply.AckFor? && reply.run == item.key.run && reply.acked > acked {
          acked := reply.acked;
        }
      }
      assert items[..|items|] == items;
    }
  }

  /** The stored bytes of the items, in their order. */
  function Envelopes(items: seq<Item>): seq<string> {
    seq(|items|, i requires 0 <= i < |items| => items[i].envelope)
  }

  lemma EnvelopesMore(items: seq<Item>, n: nat)
    requires n < |items|
    ensures Envelopes(items[..n + 1]) == Envelopes(items[..n]) + [items[n].envelope]
  {
  }

  method CollectDue(s: Sender, maxAttempts: int) returns (found: seq<Item>)
    ensures IsSnapshot(s, found, maxAttempts)
  {
    found := [];
    var left := s.rows.Keys;
    ghost var done: set<Key> := {};
    while left != {}
      invariant done + left == s.rows.Keys && done !! left
      invariant Collected(s, found, done, maxAttempts)
      decreases left
    {
      var k :| k in left;
      CollectOne(s, found, done, k, maxAttempts);
      found := if Due(s, k, maxAttempts) then found + [Item(k, s.rows[k].envelope, s.rows[k].attempts)] else found;
      left, done := left - {k}, done + {k};
    }
    CollectedAll(s, found, done, maxAttempts);
  }

  lemma CollectedAll(s: Sender, found: seq<Item>, keys: set<Key>, maxAttempts: int)
    requires Collected(s, found, keys, maxAttempts) && keys == s.rows.Keys
    ensures IsSnapshot(s, found, maxAttempts)
  {
  }

  /** A delivery only attempts, records failures, and applies acknowledgements. */
  predicate DeliveryStepsOnly(steps: seq<Step>) {
    forall i | 0 <= i < |steps| :: !steps[i].DoIntake? && !steps[i].DoObserve?
  }
}
