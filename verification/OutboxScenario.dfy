/** Two delivery passes after which an acknowledged row is marked failed, as one history of the empty world. */
module OutboxScenario {
  import opened Wrappers
  import opened Outbox
  import opened OutboxDelivery

  const FIRST := Key("run", 1)
  const SECOND := Key("run", 2)

  function SenderOf(acked: int, first: Row, second: Row): Sender {
    Sender(map["run" := Stream(3, acked)], map[FIRST := first, SECOND := second])
  }

  const STORED := SenderOf(0, Row("a", 0, Pending), Row("b", 0, Pending))

  /** The first transmission of row 1 was lost; row 2 arrived, and its answer acknowledged nothing yet. */
  const ONCE := SenderOf(0, Row("a", 1, Failed), Row("b", 1, Pending))

  /** Row 1 arrived and its answer acknowledged both; then row 2, sent again from the same snapshot, was lost. */
  const TWICE := SenderOf(2, Row("a", 2, Acked), Row("b", 2, Failed))

  const OBSERVED := [Local(DoIntake("run")), Local(DoObserve("run", "a")), Local(DoObserve("run", "b"))]

  const FIRST_PASS := [
    Local(DoAttempt(FIRST, 0)), Local(DoFailure(FIRST, 1)),
    Local(DoAttempt(SECOND, 0)), Receive(SECOND, 0), Local(DoAck("run", 0))]

  const SECOND_PASS := [
    Local(DoAttempt(FIRST, 1)), Receive(FIRST, 2), Local(DoAck("run", 2)),
    Local(DoAttempt(SECOND, 1)), Local(DoFailure(SECOND, 2))]

  function ItemsAt(attempts: nat): seq<Item> {
    [Item(FIRST, "a", attempts), Item(SECOND, "b", attempts)]
  }

  function FirstReplies(): nat -> Reply {
    (x: nat) => if x == 0 then Lost else AckFor("run", 0)
  }

  function SecondReplies(): nat -> Reply {
    (x: nat) => if x == 0 then AckFor("run", 2) else Lost
  }

  lemma DeliverTwo(s: Sender, a: Item, b: Item, replies: nat -> Reply)
    ensures
      var (mid, ok) := Transmit(s, a, replies(0));
      Deliver(s, [a, b], replies).sender == if ok then Transmit(mid, b, replies(1)).0 else mid
  {
    assert [a][..0] == [] && Deliver(s, [], replies) == Pass(s, true, 0, 0);
    var (mid, ok) := Transmit(s, a, replies(0));
    var first := Deliver(s, [a], replies);
    assert first.sender == mid && first.ok == ok;
    assert [a, b][..1] == [a];
  }

  lemma FirstMoves(acked: int, first: Row, second: Row)
    ensures
      var s := SenderOf(acked, first, second);
      && Attempt(s, FIRST, first.attempts) == Some(SenderOf(acked, first.(attempts := first.attempts + 1), second))
      && Failure(s, FIRST, first.attempts) == Some(SenderOf(acked, first.(status := Failed), second))
  {
    var s := SenderOf(acked, first, second);
    assert forall row :: s.rows[FIRST := row] == SenderOf(acked, row, second).rows;
  }

  lemma SecondMoves(acked: int, first: Row, second: Row)
    ensures
      var s := SenderOf(acked, first, second);
      && Attempt(s, SECOND, second.attempts) == Some(SenderOf(acked, first, second.(attempts := second.attempts + 1)))
      && Failure(s, SECOND, second.attempts) == Some(SenderOf(acked, first, second.(status := Failed)))
  {
    var s := SenderOf(acked, first, second);
    assert forall row :: s.rows[SECOND := row] == SenderOf(acked, first, row).rows;
  }

  lemma AckMoves(first: Row, second: Row)
    ensures
      var s := SenderOf(0, first, second);
      && ApplyAck(s, "run", 0) == Some(s)
      && ApplyAck(s, "run", 2) == Some(SenderOf(2, first.(status := Acked), second.(status := Acked)))
  {
    var s := SenderOf(0, first, second);
    assert s.streams["run" := Stream(3, 2)] == map["run" := Stream(3, 2)];
    assert MarkAcked(s.rows, "run", 2) == SenderOf(2, first.(status := Acked), second.(status := Acked)).rows;
  }

  lemma TwoItems(attempts: nat, first: Row, second: Row)
    requires first.envelope == "a" && second.envelope == "b" && first.attempts == second.attempts == attempts < 3
    ensures IsSnapshot(SenderOf(0, first, second), ItemsAt(attempts), 3)
  {
    assert ItemsAt(attempts)[0].key == FIRST && ItemsAt(attempts)[1].key == SECOND;
  }

  /** Two delivery passes, each from its own snapshot. */
  lemma FirstPass()
    ensures IsSnapshot(STORED, ItemsAt(0), 3) && Deliver(STORED, ItemsAt(0), FirstReplies()).sender == ONCE
  {
    TwoItems(0, Row("a", 0, Pending), Row("b", 0, Pending));
    DeliverTwo(STORED, ItemsAt(0)[0], ItemsAt(0)[1], FirstReplies());
    FirstMoves(0, Row("a", 0, Pending), Row("b", 0, Pending));
    FirstMoves(0, Row("a", 1, Pending), Row("b", 0, Pending));
    SecondMoves(0, Row("a", 1, Failed), Row("b", 0, Pending));
    AckMoves(Row("a", 1, Failed), Row("b", 1, Pending));
  }

  lemma SecondPass()
    ensures IsSnapshot(ONCE, ItemsAt(1), 3) && Deliver(ONCE, ItemsAt(1), SecondReplies()).sender == TWICE
  {
    TwoItems(1, Row("a", 1, Failed), Row("b", 1, Pending));
    DeliverTwo(ONCE, ItemsAt(1)[0], ItemsAt(1)[1], SecondReplies());
    FirstMoves(0, Row("a", 1, Failed), Row("b", 1, Pending));
    AckMoves(Row("a", 2, Failed), Row("b", 1, Pending));
    SecondMoves(2, Row("a", 2, Acked), Row("b", 1, Acked));
    SecondMoves(2, Row("a", 2, Acked), Row("b", 2, Acked));
  }

  /** The steps of these passes, with what the receiver did between them, form one history of the empty world. */
  lemma AckedRowMarkedFailed()
    ensures
      var w := History(EMPTY_WORLD, OBSERVED + FIRST_PASS + SECOND_PASS);
      && w.Some? && w.value.sender == TWICE
      && Covered(TWICE, SECOND) && TWICE.rows[SECOND].status == Failed
      && FailedSince(EMPTY_WORLD, OBSERVED + FIRST_PASS + SECOND_PASS, SECOND)
    ensures IsSnapshot(STORED, ItemsAt(0), 3) && Deliver(STORED, ItemsAt(0), FirstReplies()).sender == ONCE
    ensures IsSnapshot(ONCE, ItemsAt(1), 3) && Deliver(ONCE, ItemsAt(1), SecondReplies()).sender == TWICE
  {
    FirstPass();
    SecondPass();
    ObservedHistory();
    FirstPassHistory(OBSERVED);
    SecondPassHistory(OBSERVED + FIRST_PASS);
    MarkedUnlessFailedSince(OBSERVED + FIRST_PASS + SECOND_PASS, SECOND);
  }

  lemma OneMore(events: seq<Happening>, w: World, event: Happening, after: World)
    requires History(EMPTY_WORLD, events) == Some(w) && Happen(w, event) == Some(after)
    ensures History(EMPTY_WORLD, events + [event]) == Some(after)
  {
    HistoryMore(EMPTY_WORLD, events, event);
  }

  lemma FiveMore(
      events: seq<Happening>, w0: World, e0: Happening, w1: World, e1: Happening, w2: World, e2: Happening, w3: World,
      e3: Happening, w4: World, e4: Happening, w5: World)
    requires History(EMPTY_WORLD, events) == Some(w0)
    requires Happen(w0, e0) == Some(w1) && Happen(w1, e1) == Some(w2) && Happen(w2, e2) == Some(w3)
    requires Happen(w3, e3) == Some(w4) && Happen(w4, e4) == Some(w5)
    ensures History(EMPTY_WORLD, events + [e0, e1, e2, e3, e4]) == Some(w5)
  {
    var p1 := events + [e0];
    var p2 := p1 + [e1];
    var p3 := p2 + [e2];
    var p4 := p3 + [e3];
    OneMore(events, w0, e0, w1);
    OneMore(p1, w1, e1, w2);
    OneMore(p2, w2, e2, w3);
    OneMore(p3, w3, e3, w4);
    OneMore(p4, w4, e4, w5);
    assert p4 + [e4] == events + [e0, e1, e2, e3, e4];
  }

  lemma Stepped(w: World, step: Step, after: Sender)
    requires Next(w.sender, step) == Some(after)
    requires step.DoAck? ==> Key(step.run, step.acked) in w.issued
    ensures Happen(w, Local(step)) == Some(World(after, w.got, w.issued))
  {
  }

  lemma ThreeMore(
      w0: World, e0: Happening, w1: World, e1: Happening, w2: World, e2: Happening, w3: World)
    requires w0 == EMPTY_WORLD && Happen(w0, e0) == Some(w1) && Happen(w1, e1) == Some(w2) && Happen(w2, e2) == Some(w3)
    ensures History(EMPTY_WORLD, [e0, e1, e2]) == Some(w3)
  {
    var none: seq<Happening> := [];
    var p1 := none + [e0];
    var p2 := p1 + [e1];
    OneMore(none, w0, e0, w1);
    OneMore(p1, w1, e1, w2);
    OneMore(p2, w2, e2, w3);
    assert p2 + [e2] == [e0, e1, e2];
  }

  const BEGUN := Sender(map["run" := Stream(1, 0)], map[])
  const HALF := Sender(map["run" := Stream(2, 0)], map[FIRST := Row("a", 0, Pending)])

  lemma BeginStep()
    ensures Next(EMPTY_SENDER, DoIntake("run")) == Some(BEGUN)
  {
    assert EMPTY_SENDER.streams["run" := Stream(1, 0)] == BEGUN.streams;
  }

  lemma FirstRow()
    ensures Next(BEGUN, DoObserve("run", "a")) == Some(HALF)
  {
    assert BEGUN.streams["run" := Stream(2, 0)] == HALF.streams;
    assert BEGUN.rows[FIRST := Row("a", 0, Pending)] == HALF.rows;
  }

  lemma SecondRow()
    ensures Next(HALF, DoObserve("run", "b")) == Some(STORED)
  {
    assert HALF.streams["run" := Stream(3, 0)] == STORED.streams;
    assert HALF.rows[SECOND := Row("b", 0, Pending)] == STORED.rows;
  }

  lemma ObservedHistory()
    ensures History(EMPTY_WORLD, OBSERVED) == Some(World(STORED, {}, {}))
  {
    var w1, w2 := World(BEGUN, {}, {}), World(HALF, {}, {});
    BeginStep();
    Stepped(EMPTY_WORLD, DoIntake("run"), BEGUN);
    FirstRow();
    Stepped(w1, DoObserve("run", "a"), HALF);
    SecondRow();
    Stepped(w2, DoObserve("run", "b"), STORED);
    ThreeMore(EMPTY_WORLD, Local(DoIntake("run")), w1, Local(DoObserve("run", "a")), w2,
              Local(DoObserve("run", "b")), World(STORED, {}, {}));
  }

  /** Row 2 arrives first, so nothing is contiguous yet; once row 1 is there, both are. */
  lemma FirstArrival(w: World)
    requires w.got == {} && w.issued == {} && SECOND in w.sender.rows && w.sender.rows[SECOND].attempts > 0
    ensures Happen(w, Receive(SECOND, 0)) == Some(World(w.sender, {SECOND}, {Key("run", 0)}))
  {
    assert w.got + {SECOND} == {SECOND} && w.issued + {Key("run", 0)} == {Key("run", 0)};
    assert IsContiguous({SECOND}, "run", 0);
  }

  lemma SecondArrival(w: World)
    requires w.got == {SECOND} && w.issued == {Key("run", 0)}
    requires FIRST in w.sender.rows && w.sender.rows[FIRST].attempts > 0
    ensures Happen(w, Receive(FIRST, 2)) == Some(World(w.sender, {FIRST, SECOND}, {Key("run", 0), Key("run", 2)}))
  {
    assert w.got + {FIRST} == {FIRST, SECOND} && w.issued + {Key("run", 2)} == {Key("run", 0), Key("run", 2)};
    assert IsContiguous({FIRST, SECOND}, "run", 2);
  }

  lemma FirstPassHistory(events: seq<Happening>)
    requires History(EMPTY_WORLD, events) == Some(World(STORED, {}, {}))
    ensures History(EMPTY_WORLD, events + FIRST_PASS) == Some(World(ONCE, {SECOND}, {Key("run", 0)}))
  {
    var w0, w3, w4 := World(STORED, {}, {}), World(ONCE, {}, {}), World(ONCE, {SECOND}, {Key("run", 0)});
    var w1 := World(SenderOf(0, Row("a", 1, Pending), Row("b", 0, Pending)), {}, {});
    var w2 := World(SenderOf(0, Row("a", 1, Failed), Row("b", 0, Pending)), {}, {});
    FirstMoves(0, Row("a", 0, Pending), Row("b", 0, Pending));
    Stepped(w0, DoAttempt(FIRST, 0), w1.sender);
    FirstMoves(0, Row("a", 1, Pending), Row("b", 0, Pending));
    Stepped(w1, DoFailure(FIRST, 1), w2.sender);
    SecondMoves(0, Row("a", 1, Failed), Row("b", 0, Pending));
    Stepped(w2, DoAttempt(SECOND, 0), ONCE);
    FirstArrival(w3);
    AckMoves(Row("a", 1, Failed), Row("b", 1, Pending));
    Stepped(w4, DoAck("run", 0), ONCE);
    FiveMore(events, w0, Local(DoAttempt(FIRST, 0)), w1, Local(DoFailure(FIRST, 1)), w2,
             Local(DoAttempt(SECOND, 0)), w3, Receive(SECOND, 0), w4, Local(DoAck("run", 0)), w4);
  }

  lemma SecondPassHistory(events: seq<Happening>)
    requires History(EMPTY_WORLD, events) == Some(World(ONCE, {SECOND}, {Key("run", 0)}))
    ensures History(EMPTY_WORLD, events + SECOND_PASS) ==
      Some(World(TWICE, {FIRST, SECOND}, {Key("run", 0), Key("run", 2)}))
  {
    var w0, got, issued := World(ONCE, {SECOND}, {Key("run", 0)}), {FIRST, SECOND}, {Key("run", 0), Key("run", 2)};
    var w1 := World(SenderOf(0, Row("a", 2, Failed), Row("b", 1, Pending)), {SECOND}, {Key("run", 0)});
    var w2 := World(w1.sender, got, issued);
    var w3 := World(SenderOf(2, Row("a", 2, Acked), Row("b", 1, Acked)), got, issued);
    var w4 := World(SenderOf(2, Row("a", 2, Acked), Row("b", 2, Acked)), got, issued);
    FirstMoves(0, Row("a", 1, Failed), Row("b", 1, Pending));
    Stepped(w0, DoAttempt(FIRST, 1), w1.sender);
    SecondArrival(w1);
    AckMoves(Row("a", 2, Failed), Row("b", 1, Pending));
    Stepped(w2, DoAck("run", 2), w3.sender);
    SecondMoves(2, Row("a", 2, Acked), Row("b", 1, Acked));
    Stepped(w3, DoAttempt(SECOND, 1), w4.sender);
    SecondMoves(2, Row("a", 2, Acked), Row("b", 2, Acked));
    Stepped(w4, DoFailure(SECOND, 2), TWICE);
    FiveMore(events, w0, Local(DoAttempt(FIRST, 1)), w1, Receive(FIRST, 2), w2, Local(DoAck("run", 2)), w3,
             Local(DoAttempt(SECOND, 1)), w4, Local(DoFailure(SECOND, 2)), World(TWICE, got, issued));
  }
}
