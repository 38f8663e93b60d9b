/** What one delivery pass does to the sender, and when it leaves every acknowledged row marked. */
module OutboxDelivery {
  import opened Wrappers
  import opened Outbox
  import opened Multisets
  import LexOrder
  import StableSort

  /** What one transmission brings back: nothing, something that does not validate, or an authenticated ACK. */
  datatype Reply = Lost | Invalid | AckFor(run: RunId, acked: int)

  datatype Item = Item(key: Key, envelope: string, attempts: nat)

  /** A pass so far: the sender, whether it may go on, the transmissions started, and the highest acknowledgement. */
  datatype Pass = Pass(sender: Sender, ok: bool, attempted: nat, acked: int)

  predicate ItemBefore(a: Item, b: Item) {
    if a.key.run != b.key.run then LexOrder.LexLess(a.key.run, b.key.run, LexOrder.CHAR_RANK)
    else a.key.sequence < b.key.sequence
  }

  const BY_RUN_AND_SEQUENCE: (Item, Item) -> bool := (a, b) => ItemBefore(a, b)

  predicate Outstanding(s: Sender, k: Key) {
    k in s.rows && k.run in s.streams && k.sequence > s.streams[k.run].acked
  }

  predicate Due(s: Sender, k: Key, maxAttempts: int) {
    Outstanding(s, k) && s.rows[k].attempts < maxAttempts
  }

  predicate DistinctRows(items: seq<Item>) {
    forall i, j | 0 <= i < j < |items| :: items[i].key != items[j].key
  }

  /** Each due row once, as the table has it. */
  ghost predicate IsSnapshot(s: Sender, items: seq<Item>, maxAttempts: int) {
    && (forall i | 0 <= i < |items| ::
          && Due(s, items[i].key, maxAttempts)
          && s.rows[items[i].key].attempts == items[i].attempts && s.rows[items[i].key].envelope == items[i].envelope)
    && DistinctRows(items)
    && (forall k | Due(s, k, maxAttempts) :: exists i | 0 <= i < |items| :: items[i].key == k)
  }

  predicate Answers(item: Item, reply: Reply) {
    reply.AckFor? && reply.run == item.key.run
  }

  /** The answer or the failure of one transmission. */
  function Answered(tried: Sender, item: Item, reply: Reply): (Sender, bool) {
    if Answers(item, reply) then
      (match ApplyAck(tried, reply.run, reply.acked) case None => (tried, false) case Some(acked) => (acked, true))
    else
      (match Failure(tried, item.key, item.attempts + 1) case None => (tried, false) case Some(failed) => (failed, true))
  }

  /** One transmission: the attempt is recorded before anything is sent, what comes back after. */
  function Transmit(s: Sender, item: Item, reply: Reply): (Sender, bool) {
    match Attempt(s, item.key, item.attempts)
    case None => (s, false)
    case Some(tried) => Answered(tried, item, reply)
  }

  /** One item after another; a refused acknowledgement ends the pass. */
  function Deliver(s: Sender, items: seq<Item>, replies: nat -> Reply): Pass {
    if items == [] then Pass(s, true, 0, 0)
    else
      var n := |items| - 1;
      var before := Deliver(s, items[..n], replies);
      if !before.ok then before
      else
        var (after, ok) := Transmit(before.sender, items[n], replies(n));
        var acked := if ok && Answers(items[n], replies(n)) then Max(before.acked, replies(n).acked) else before.acked;
        Pass(after, ok, n + 1, acked)
  }

  function Max(a: int, b: int): int {
    if a < b then b else a
  }

  /** What a pass over one more item is, from the pass before it. */
  lemma DeliverNext(s: Sender, items: seq<Item>, replies: nat -> Reply, n: nat, before: Pass, after: Sender, ok: bool)
    requires n < |items| && Deliver(s, items[..n], replies) == before && before.ok
    requires Transmit(before.sender, items[n], replies(n)) == (after, ok)
    ensures Deliver(s, items[..n + 1], replies) ==
      Pass(after, ok, n + 1,
           if ok && Answers(items[n], replies(n)) then Max(before.acked, replies(n).acked) else before.acked)
  {
    assert items[..n + 1][..n] == items[..n];
  }

  // ---- What a pass attempts ----

  predicate SentBefore(items: seq<Item>, n: nat, k: Key)
    requires n <= |items|
  {
    exists j | 0 <= j < n :: items[j].key == k
  }

  /** The item is still what the snapshot read: outstanding, with the attempts it had. */
  predicate StillDue(s: Sender, item: Item) {
    Outstanding(s, item.key) && s.rows[item.key].attempts == item.attempts
  }

  /** Every row was attempted once more if it was among the first n items, and not otherwise. */
  predicate CountsSent(s: Sender, after: Sender, items: seq<Item>, n: nat)
    requires n <= |items|
  {
    && after.streams.Keys == s.streams.Keys && after.rows.Keys == s.rows.Keys
    && forall k | k in s.rows :: after.rows[k].attempts == s.rows[k].attempts + (if SentBefore(items, n, k) then 1 else 0)
  }

  /** The pass ended on an acknowledgement ahead of its stream. */
  predicate EndedOnAck(pass: Pass, items: seq<Item>, replies: nat -> Reply) {
    && 0 < pass.attempted <= |items| && Answers(items[pass.attempted - 1], replies(pass.attempted - 1))
    && var reply := replies(pass.attempted - 1);
       reply.run in pass.sender.streams && reply.acked >= pass.sender.streams[reply.run].next
  }

  lemma TransmitCounts(s: Sender, items: seq<Item>, n: nat, reply: Reply, start: Sender)
    requires n < |items| && DistinctRows(items) && CountsSent(start, s, items, n) && StillDue(start, items[n])
    ensures
      var (after, ok) := Transmit(s, items[n], reply);
      && CountsSent(start, after, items, n + 1)
      && (!ok ==> Answers(items[n], reply) && reply.run in after.streams && reply.acked >= after.streams[reply.run].next)
  {
    assert !SentBefore(items, n, items[n].key);
    forall k ensures SentBefore(items, n + 1, k) <==> SentBefore(items, n, k) || k == items[n].key {
      if k == items[n].key {
        assert items[n].key == k;
      }
    }
  }

  /** A pass attempts every item once, or ends on an acknowledgement ahead of its stream. */
  lemma {:induction false} PassCounts(s: Sender, items: seq<Item>, replies: nat -> Reply, n: nat)
    requires n <= |items| && DistinctRows(items) && forall i | 0 <= i < |items| :: StillDue(s, items[i])
    ensures
      var pass := Deliver(s, items[..n], replies);
      if pass.ok then pass.attempted == n && CountsSent(s, pass.sender, items, n) else EndedOnAck(pass, items[..n], replies)
  {
    if n > 0 {
      PassCounts(s, items, replies, n - 1);
      assert items[..n][..n - 1] == items[..n - 1];
      var before := Deliver(s, items[..n - 1], replies);
      if before.ok {
        TransmitCounts(before.sender, items, n - 1, replies(n - 1), s);
      }
    }
  }

  /** A pass that ended stays as it ended. */
  lemma {:induction false} PassStops(s: Sender, items: seq<Item>, replies: nat -> Reply, n: nat)
    requires n <= |items| && !Deliver(s, items[..n], replies).ok
    ensures Deliver(s, items, replies) == Deliver(s, items[..n], replies)
    decreases |items|
  {
    if n == |items| {
      assert items[..n] == items;
    } else {
      var m := |items| - 1;
      assert items[..m][..n] == items[..n];
      PassStops(s, items[..m], replies, n);
    }
  }

  // ---- Marks after a pass ----

  /** Every acknowledged row is marked acked. */
  predicate MarksComplete(s: Sender) {
    forall k | k in s.rows && Covered(s, k) :: IsMarked(s, k)
  }

  predicate OneDueEach(s: Sender, maxAttempts: int) {
    forall k, q | k in s.rows && q in s.rows && Due(s, k, maxAttempts) && Due(s, q, maxAttempts) && k.run == q.run :: k == q
  }

  /** Only a failure of an acknowledged row leaves one unmarked. */
  lemma StepMarks(s: Sender, step: Step)
    requires SenderInv(s) && MarksComplete(s) && Next(s, step).Some?
    requires step.DoFailure? ==> !Covered(s, step.key)
    ensures MarksComplete(Next(s, step).value)
  {
    var after := Next(s, step).value;
    forall k | k in after.rows && Covered(after, k) ensures IsMarked(after, k) {
      MarkMoves(s, step, k);
      assert k in s.rows && Covered(s, k) ==> IsMarked(s, k);
    }
  }

  lemma AttemptMarks(s: Sender, item: Item)
    requires SenderInv(s) && MarksComplete(s) && StillDue(s, item)
    ensures
      var tried := Attempt(s, item.key, item.attempts);
      tried.Some? && SenderInv(tried.value) && MarksComplete(tried.value) && !Covered(tried.value, item.key)
  {
    StepKeeps(s, DoAttempt(item.key, item.attempts));
    StepMarks(s, DoAttempt(item.key, item.attempts));
  }

  lemma AckMarks(s: Sender, run: RunId, acked: int)
    requires SenderInv(s) && MarksComplete(s) && ApplyAck(s, run, acked).Some?
    ensures SenderInv(ApplyAck(s, run, acked).value) && MarksComplete(ApplyAck(s, run, acked).value)
  {
    StepKeeps(s, DoAck(run, acked));
    StepMarks(s, DoAck(run, acked));
  }

  lemma FailureMarks(s: Sender, key: Key, attempts: nat)
    requires SenderInv(s) && MarksComplete(s) && !Covered(s, key)
    ensures Failure(s, key, attempts).Some?
    ensures SenderInv(Failure(s, key, attempts).value) && MarksComplete(Failure(s, key, attempts).value)
  {
    StepKeeps(s, DoFailure(key, attempts));
    StepMarks(s, DoFailure(key, attempts));
  }

  lemma TransmitMarks(s: Sender, item: Item, reply: Reply)
    requires SenderInv(s) && MarksComplete(s) && StillDue(s, item)
    ensures SenderInv(Transmit(s, item, reply).0) && MarksComplete(Transmit(s, item, reply).0)
  {
    AttemptMarks(s, item);
    var tried := Attempt(s, item.key, item.attempts).value;
    if !Answers(item, reply) {
      FailureMarks(tried, item.key, item.attempts + 1);
    } else if ApplyAck(tried, reply.run, reply.acked).Some? {
      AckMarks(tried, reply.run, reply.acked);
    }
  }

  /** A transmission concerns its own run only. */
  lemma OtherRunsSame(s: Sender, item: Item, reply: Reply, other: Item)
    requires StillDue(s, other) && other.key.run != item.key.run
    ensures StillDue(Transmit(s, item, reply).0, other)
  {
  }

  /** With at most one due row a run, whatever comes back, acknowledged rows stay marked. */
  lemma {:induction false} MarksStayComplete(s: Sender, items: seq<Item>, replies: nat -> Reply, n: nat)
    requires SenderInv(s) && MarksComplete(s) && n <= |items|
    requires forall i | 0 <= i < |items| :: StillDue(s, items[i])
    requires OneItemEach(items)
    ensures
      var pass := Deliver(s, items[..n], replies);
      && SenderInv(pass.sender) && MarksComplete(pass.sender)
      && forall i | n <= i < |items| :: StillDue(pass.sender, items[i])
  {
    if n > 0 {
      MarksStayComplete(s, items, replies, n - 1);
      assert items[..n][..n - 1] == items[..n - 1];
      var before := Deliver(s, items[..n - 1], replies);
      if before.ok {
        TransmitMarks(before.sender, items[n - 1], replies(n - 1));
        forall i | n <= i < |items| ensures StillDue(Transmit(before.sender, items[n - 1], replies(n - 1)).0, items[i]) {
          OtherRunsSame(before.sender, items[n - 1], replies(n - 1), items[i]);
        }
      }
    }
  }

  /** The answer to item i acknowledges item j too, and everything else is lost. */
  function AnswerBoth(items: seq<Item>, i: nat, j: nat): nat -> Reply
    requires i < j < |items|
  {
    (x: nat) => if x == i then AckFor(items[i].key.run, items[j].key.sequence) else Lost
  }

  /** The pass of AnswerBoth after n items: from item i on item j is acknowledged, and from item j on marked failed. */
  predicate BothAfter(s: Sender, pass: Pass, items: seq<Item>, i: nat, j: nat, n: nat)
    requires i < j < |items|
  {
    && pass.ok
    && (forall k | 0 <= k < |items| ::
          items[k].key in pass.sender.rows
          && (n <= k ==> pass.sender.rows[items[k].key].attempts == items[k].attempts))
    && pass.sender.streams.Keys == s.streams.Keys
    && (forall run | run in s.streams :: pass.sender.streams[run].next == s.streams[run].next)
    && (if n <= i then pass.sender.streams == s.streams
        else
          && items[i].key.run in pass.sender.streams
          && pass.sender.streams[items[i].key.run].acked == items[j].key.sequence)
    && (n > j ==> pass.sender.rows[items[j].key].status == Failed)
  }

  lemma TransmitBoth(s: Sender, pass: Pass, items: seq<Item>, i: nat, j: nat, n: nat)
    requires SenderInv(s) && i < j < |items| && n < |items| && items[i].key.run == items[j].key.run
    requires DistinctRows(items) && forall k | 0 <= k < |items| :: StillDue(s, items[k])
    requires BothAfter(s, pass, items, i, j, n)
    ensures
      var (after, ok) := Transmit(pass.sender, items[n], AnswerBoth(items, i, j)(n));
      BothAfter(s, Pass(after, ok, n + 1, 0), items, i, j, n + 1)
  {
    var reply := AnswerBoth(items, i, j)(n);
    var tried := Attempt(pass.sender, items[n].key, items[n].attempts).value;
    assert forall k | n < k < |items| :: items[k].key != items[n].key;
    if n == i {
      assert ApplyAck(tried, reply.run, reply.acked).Some?;
    }
  }

  lemma {:induction false} BothRuns(s: Sender, items: seq<Item>, i: nat, j: nat, n: nat)
    requires SenderInv(s) && i < j < |items| && n <= |items| && items[i].key.run == items[j].key.run
    requires DistinctRows(items) && forall k | 0 <= k < |items| :: StillDue(s, items[k])
    ensures BothAfter(s, Deliver(s, items[..n], AnswerBoth(items, i, j)), items, i, j, n)
  {
    if n > 0 {
      BothRuns(s, items, i, j, n - 1);
      assert items[..n][..n - 1] == items[..n - 1];
      TransmitBoth(s, Deliver(s, items[..n - 1], AnswerBoth(items, i, j)), items, i, j, n - 1);
    }
  }

  /**
   * Acknowledged rows stay marked whatever the transport brings back, exactly when each run has at most one due row.
   * With two, an answer to the first can acknowledge the second, which is then sent from the same snapshot and lost.
   */
  lemma MarksSafeExactly(s: Sender, items: seq<Item>, maxAttempts: int)
    requires SenderInv(s) && MarksComplete(s) && IsSnapshot(s, items, maxAttempts)
    ensures (forall replies: nat -> Reply :: MarksComplete(Deliver(s, items, replies).sender)) <==> OneDueEach(s, maxAttempts)
  {
    assert items[..|items|] == items;
    OneDueItem(s, items, maxAttempts);
    if OneItemEach(items) {
      forall replies: nat -> Reply ensures MarksComplete(Deliver(s, items, replies).sender) {
        MarksStayComplete(s, items, replies, |items|);
      }
    } else {
      var i, j :| 0 <= i < j < |items| && items[i].key.run == items[j].key.run;
      LeavesUnmarked(s, items, i, j);
    }
  }

  predicate OneItemEach(items: seq<Item>) {
    forall i, j | 0 <= i < j < |items| :: items[i].key.run != items[j].key.run
  }

  lemma OneDueItem(s: Sender, items: seq<Item>, maxAttempts: int)
    requires IsSnapshot(s, items, maxAttempts)
    ensures OneItemEach(items) <==> OneDueEach(s, maxAttempts)
  {
    if !OneDueEach(s, maxAttempts) {
      var k, q :| k in s.rows && q in s.rows && Due(s, k, maxAttempts) && Due(s, q, maxAttempts) && k.run == q.run && k != q;
      var i :| 0 <= i < |items| && items[i].key == k;
      var j :| 0 <= j < |items| && items[j].key == q;
    }
  }

  lemma LeavesUnmarked(s: Sender, items: seq<Item>, i: nat, j: nat)
    requires SenderInv(s) && i < j < |items| && items[i].key.run == items[j].key.run
    requires DistinctRows(items) && forall k | 0 <= k < |items| :: StillDue(s, items[k])
    ensures !MarksComplete(Deliver(s, items, AnswerBoth(items, i, j)).sender)
  {
    BothRuns(s, items, i, j, |items|);
    assert items[..|items|] == items;
    var after := Deliver(s, items, AnswerBoth(items, i, j)).sender;
    assert Covered(after, items[j].key) && !IsMarked(after, items[j].key);
  }

  /** Every row was attempted once more if it was due, and not otherwise. */
  predicate DueAttempted(s: Sender, after: Sender, maxAttempts: int) {
    forall k | k in s.rows ::
      && k in after.rows
      && after.rows[k].attempts == s.rows[k].attempts + (if Due(s, k, maxAttempts) then 1 else 0)
  }

  /** What a whole pass over a snapshot amounts to. */
  lemma PassOutcome(s: Sender, items: seq<Item>, maxAttempts: int, replies: nat -> Reply)
    requires SenderInv(s) && IsSnapshot(s, items, maxAttempts)
    ensures
      var pass := Deliver(s, items, replies);
      && (pass.ok ==> pass.attempted == |items| && DueAttempted(s, pass.sender, maxAttempts))
      && (!pass.ok ==> EndedOnAck(pass, items, replies))
      && (MarksComplete(s) && OneDueEach(s, maxAttempts) ==> MarksComplete(pass.sender))
  {
    var pass := Deliver(s, items, replies);
    assert items[..|items|] == items;
    PassCounts(s, items, replies, |items|);
    if pass.ok {
      assert forall k | k in s.rows :: SentBefore(items, |items|, k) <==> Due(s, k, maxAttempts);
    }
    if MarksComplete(s) {
      MarksSafeExactly(s, items, maxAttempts);
    }
  }

  // ---- Taking a snapshot ----

  lemma RunOrderIsWeak()
    ensures StableSort.StrictWeakOrder(BY_RUN_AND_SEQUENCE)
  {
    forall a, b | BY_RUN_AND_SEQUENCE(a, b) ensures !BY_RUN_AND_SEQUENCE(b, a) {
      LexOrder.LexAsymmetric(a.key.run, b.key.run, LexOrder.CHAR_RANK);
    }
    forall a, b, c | !BY_RUN_AND_SEQUENCE(a, b) && !BY_RUN_AND_SEQUENCE(b, c) ensures !BY_RUN_AND_SEQUENCE(a, c) {
      RunOrderStep(a, b, c);
    }
  }

  lemma RunOrderStep(a: Item, b: Item, c: Item)
    requires !ItemBefore(a, b) && !ItemBefore(b, c)
    ensures !ItemBefore(a, c)
  {
    LexOrder.LexAsymmetric(a.key.run, b.key.run, LexOrder.CHAR_RANK);
    LexOrder.LexAsymmetric(b.key.run, c.key.run, LexOrder.CHAR_RANK);
    if LexOrder.LexLess(a.key.run, c.key.run, LexOrder.CHAR_RANK) {
      RunsOrdered(a.key.run, b.key.run, c.key.run);
    }
    if a.key.run == c.key.run && a.key.run != b.key.run {
      LexOrder.LexTotal(a.key.run, b.key.run, LexOrder.CHAR_RANK);
    }
  }

  /** A run before c is before b or b before c, so one of the two steps was a step forward. */
  lemma RunsOrdered(a: RunId, b: RunId, c: RunId)
    requires LexOrder.LexLess(a, c, LexOrder.CHAR_RANK)
    ensures LexOrder.LexLess(a, b, LexOrder.CHAR_RANK) || LexOrder.LexLess(b, c, LexOrder.CHAR_RANK)
  {
    if !LexOrder.LexLess(a, b, LexOrder.CHAR_RANK) && !LexOrder.LexLess(b, c, LexOrder.CHAR_RANK) {
      LexOrder.LexNegativelyTransitive(a, b, c, LexOrder.CHAR_RANK);
    }
  }

  /** A snapshot of the due rows among some of the keys. */
  ghost predicate Collected(s: Sender, found: seq<Item>, keys: set<Key>, maxAttempts: int) {
    && (forall i | 0 <= i < |found| ::
          && found[i].key in keys && Due(s, found[i].key, maxAttempts)
          && s.rows[found[i].key].attempts == found[i].attempts && s.rows[found[i].key].envelope == found[i].envelope)
    && DistinctRows(found)
    && (forall k | k in keys && Due(s, k, maxAttempts) :: exists i | 0 <= i < |found| :: found[i].key == k)
  }

  lemma CollectOne(s: Sender, found: seq<Item>, keys: set<Key>, k: Key, maxAttempts: int)
    requires Collected(s, found, keys, maxAttempts) && k in s.rows && k !in keys
    ensures
      Collected(s, if Due(s, k, maxAttempts) then found + [Item(k, s.rows[k].envelope, s.rows[k].attempts)] else found,
                keys + {k}, maxAttempts)
  {
    if Due(s, k, maxAttempts) {
      var more := found + [Item(k, s.rows[k].envelope, s.rows[k].attempts)];
      forall q | q in keys + {k} && Due(s, q, maxAttempts) ensures exists i | 0 <= i < |more| :: more[i].key == q {
        if q == k {
          assert more[|found|].key == k;
        } else {
          var i :| 0 <= i < |found| && found[i].key == q;
          assert more[i].key == q;
        }
      }
    }
  }

  /** Sorting a snapshot leaves it one. */
  lemma SortedSnapshot(s: Sender, found: seq<Item>, items: seq<Item>, maxAttempts: int)
    requires IsSnapshot(s, found, maxAttempts) && multiset(items) == multiset(found)
    ensures IsSnapshot(s, items, maxAttempts)
  {
    SameMembers(items, found);
    assert Distinct(found);
    forall i | 0 <= i < |items| ensures items[i] in found {
      assert items[i] in items;
    }
    DistinctPermutation(found, items);
    forall i, j | 0 <= i < j < |items| ensures items[i].key != items[j].key {
      SameItem(found, items[i], items[j]);
    }
    forall k | Due(s, k, maxAttempts) ensures exists i | 0 <= i < |items| :: items[i].key == k {
      var i :| 0 <= i < |found| && found[i].key == k;
      assert found[i] in items;
    }
  }

  lemma SameItem(found: seq<Item>, a: Item, b: Item)
    requires DistinctRows(found) && a in found && b in found
    ensures a.key == b.key ==> a == b
  {
  }
}
