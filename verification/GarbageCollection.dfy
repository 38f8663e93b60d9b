/** Quarantine garbage collection of the blob store: moves, rollback and restore under any pattern of failures. */
module GarbageCollection {
  import opened Wrappers
  import opened Listings
  import opened Multisets
  import LexOrder
  import StableSort

  type Ref = string
  type Data = string

  /** The active content store and the quarantine directory of one run. */
  datatype Blobs = Blobs(active: map<Ref, Data>, quarantine: map<Ref, Data>)

  // ---- Single operations ----

  /** Quarantine: one rename, which moves the file or fails and leaves it. */
  function Move(b: Blobs, ref: Ref, fails: bool): Option<Blobs> {
    if fails || ref !in b.active then None
    else Some(Blobs(b.active - {ref}, b.quarantine[ref := b.active[ref]]))
  }

  /** RestoreFromQuarantine: an intact active blob is left alone; otherwise intact quarantined bytes move back. */
  function Restore(b: Blobs, ref: Ref, hash: Data -> Ref, fails: bool): Option<Blobs> {
    if ref in b.active then (if hash(b.active[ref]) == ref then Some(b) else None)
    else if ref !in b.quarantine || hash(b.quarantine[ref]) != ref || fails then None
    else Some(Blobs(b.active[ref := b.quarantine[ref]], b.quarantine - {ref}))
  }

  /** Put: content already active is not written again. */
  function Put(b: Blobs, data: Data, hash: Data -> Ref): Blobs {
    if hash(data) in b.active then b else b.(active := b.active[hash(data) := data])
  }

  /** Every blob of the whole is in one of the two places or in both, with its bytes. */
  predicate Covers(b: Blobs, whole: map<Ref, Data>) {
    && b.active.Keys + b.quarantine.Keys == whole.Keys
    && (forall r | r in b.active :: b.active[r] == whole[r])
    && (forall r | r in b.quarantine :: b.quarantine[r] == whole[r])
  }

  /** Every blob of the whole is in exactly one of the two places, with its bytes. */
  predicate Conserves(b: Blobs, whole: map<Ref, Data>) {
    Covers(b, whole) && b.active.Keys !! b.quarantine.Keys
  }

  lemma MoveConserves(b: Blobs, ref: Ref, fails: bool, whole: map<Ref, Data>)
    requires Conserves(b, whole) && Move(b, ref, fails).Some?
    ensures Conserves(Move(b, ref, fails).value, whole)
    ensures Move(b, ref, fails).value.quarantine.Keys == b.quarantine.Keys + {ref}
  {
  }

  lemma RestoreConserves(b: Blobs, ref: Ref, hash: Data -> Ref, fails: bool, whole: map<Ref, Data>)
    requires Conserves(b, whole) && Restore(b, ref, hash, fails).Some?
    ensures Conserves(Restore(b, ref, hash, fails).value, whole)
    ensures Restore(b, ref, hash, fails).value.quarantine.Keys == b.quarantine.Keys - {ref}
  {
  }

  /** Restoring keeps every blob: it moves one that is only quarantined, and leaves one that is active alone. */
  lemma RestoreCovers(b: Blobs, ref: Ref, hash: Data -> Ref, fails: bool, whole: map<Ref, Data>)
    requires Covers(b, whole)
    ensures
      var after := Restore(b, ref, hash, fails);
      && (after.Some? <==> ref in whole && hash(whole[ref]) == ref && (ref in b.active || !fails))
      && (after.Some? ==>
            && Covers(after.value, whole) && after.value.active.Keys == b.active.Keys + {ref}
            && after.value.active.Keys * after.value.quarantine.Keys == b.active.Keys * b.quarantine.Keys)
  {
  }

  /** What a move undoes a restore undoes: intact bytes come back. */
  lemma MoveThenRestore(b: Blobs, ref: Ref, hash: Data -> Ref)
    requires ref in b.active && ref !in b.quarantine && hash(b.active[ref]) == ref
    ensures Restore(Move(b, ref, false).value, ref, hash, false) == Some(b)
  {
    var back := Restore(Move(b, ref, false).value, ref, hash, false).value;
    assert back.active == b.active && back.quarantine == b.quarantine;
  }

  ghost predicate Injective(hash: Data -> Ref) {
    forall x, y | hash(x) == hash(y) :: x == y
  }

  predicate Intact(whole: map<Ref, Data>, hash: Data -> Ref) {
    forall r | r in whole :: hash(whole[r]) == r
  }

  /** Storing content loses nothing, and what is stored is stored under its own hash. */
  lemma PutCovers(b: Blobs, data: Data, hash: Data -> Ref, whole: map<Ref, Data>)
    requires Injective(hash) && Intact(whole, hash) && Covers(b, whole)
    ensures Covers(Put(b, data, hash), whole[hash(data) := data]) && Intact(whole[hash(data) := data], hash)
  {
    var ref := hash(data);
    if ref in whole {
      assert hash(whole[ref]) == hash(data) && whole[ref] == data;
      assert whole[ref := data] == whole;
      PutKnown(b, data, hash, whole);
    } else {
      PutNew(b, data, hash, whole);
    }
  }

  lemma PutKnown(b: Blobs, data: Data, hash: Data -> Ref, whole: map<Ref, Data>)
    requires Covers(b, whole) && hash(data) in whole && whole[hash(data)] == data
    ensures Covers(Put(b, data, hash), whole)
  {
  }

  lemma PutNew(b: Blobs, data: Data, hash: Data -> Ref, whole: map<Ref, Data>)
    requires Covers(b, whole) && hash(data) !in whole && Intact(whole, hash)
    ensures Covers(Put(b, data, hash), whole[hash(data) := data]) && Intact(whole[hash(data) := data], hash)
  {
    assert hash(data) !in b.active && hash(data) !in b.quarantine;
  }

  /** Storing quarantined content again is the one way a blob comes to be in both places. */
  lemma PutMayDuplicate(b: Blobs, data: Data, hash: Data -> Ref)
    ensures
      var after := Put(b, data, hash);
      && after.quarantine == b.quarantine
      && after.active.Keys * after.quarantine.Keys ==
           b.active.Keys * b.quarantine.Keys + (if hash(data) in b.quarantine then {hash(data)} else {})
  {
  }

  /** With nothing quarantined, what is conserved is exactly active. */
  lemma NothingQuarantined(b: Blobs, whole: map<Ref, Data>)
    requires Conserves(b, whole) && b.quarantine.Keys == {}
    ensures b.active == whole && b.quarantine == map[]
  {
    assert b.quarantine == map[];
  }

  // ---- Restoring many ----

  /** A quarantined blob can be moved back: its bytes are intact and the rename does not fail. */
  predicate Restorable(r: Ref, hash: Data -> Ref, fails: Ref -> bool, whole: map<Ref, Data>) {
    r in whole && hash(whole[r]) == r && !fails(r)
  }

  /** A candidate is intact, and active already or movable. */
  predicate ComesBack(r: Ref, before: Blobs, hash: Data -> Ref, fails: Ref -> bool, whole: map<Ref, Data>) {
    r in whole && hash(whole[r]) == r && (r in before.active || !fails(r))
  }

  /** The first n candidates are active again; nothing else moved. */
  ghost predicate RestoredTo(
      before: Blobs, b: Blobs, refs: seq<Ref>, n: nat, hash: Data -> Ref, fails: Ref -> bool, whole: map<Ref, Data>)
    requires n <= |refs|
  {
    && Covers(b, whole) && b.active.Keys * b.quarantine.Keys == before.active.Keys * before.quarantine.Keys
    && (forall r :: r in b.active <==> r in before.active || r in refs[..n])
    && (forall r | r in refs[..n] :: ComesBack(r, before, hash, fails, whole))
  }

  lemma RestoreNext(
      before: Blobs, b: Blobs, refs: seq<Ref>, n: nat, hash: Data -> Ref, fails: Ref -> bool, whole: map<Ref, Data>)
    requires n < |refs| && Covers(before, whole) && RestoredTo(before, b, refs, n, hash, fails, whole)
    ensures
      var next := Restore(b, refs[n], hash, fails(refs[n]));
      && (next.Some? ==> RestoredTo(before, next.value, refs, n + 1, hash, fails, whole))
      && (next.None? ==> !ComesBack(refs[n], before, hash, fails, whole))
  {
    RestoreCovers(b, refs[n], hash, fails(refs[n]), whole);
    assert refs[..n + 1] == refs[..n] + [refs[n]];
  }

  /** Of the first n moved blobs those that cannot be restored are still quarantined, and all the others that were moved. */
  ghost predicate RolledBackTo(
      b: Blobs, refs: seq<Ref>, n: nat, hash: Data -> Ref, fails: Ref -> bool, whole: map<Ref, Data>)
    requires n <= |refs|
  {
    && Conserves(b, whole)
    && forall r :: r in b.quarantine <==> StillThere(r, refs, n, hash, fails, whole)
  }

  lemma RollBackStep(b: Blobs, ref: Ref, hash: Data -> Ref, fails: bool, whole: map<Ref, Data>)
    requires Conserves(b, whole) && ref in b.quarantine
    ensures
      var next := Restore(b, ref, hash, fails);
      && (next.Some? <==> hash(whole[ref]) == ref && !fails)
      && (next.Some? ==> Conserves(next.value, whole) && next.value.quarantine.Keys == b.quarantine.Keys - {ref})
  {
    if Restore(b, ref, hash, fails).Some? {
      RestoreConserves(b, ref, hash, fails, whole);
    }
  }

  /** Whether one blob is among those still to be rolled back, or done and not restorable. */
  predicate StillThere(r: Ref, refs: seq<Ref>, n: nat, hash: Data -> Ref, fails: Ref -> bool, whole: map<Ref, Data>)
    requires n <= |refs|
  {
    r in refs[n..] || (r in refs[..n] && !Restorable(r, hash, fails, whole))
  }

  lemma StillThereNext(refs: seq<Ref>, n: nat, hash: Data -> Ref, fails: Ref -> bool, whole: map<Ref, Data>, r: Ref)
    requires n < |refs| && Distinct(refs)
    ensures StillThere(r, refs, n + 1, hash, fails, whole) <==>
      StillThere(r, refs, n, hash, fails, whole) && !(r == refs[n] && Restorable(r, hash, fails, whole))
  {
    assert refs[n..] == [refs[n]] + refs[n + 1..] && refs[..n + 1] == refs[..n] + [refs[n]];
    assert refs[n] !in refs[n + 1..] && refs[n] !in refs[..n];
  }

  lemma RollBackNext(b: Blobs, refs: seq<Ref>, n: nat, hash: Data -> Ref, fails: Ref -> bool, whole: map<Ref, Data>)
    requires n < |refs| && RolledBackTo(b, refs, n, hash, fails, whole) && Distinct(refs)
    ensures
      var next := Restore(b, refs[n], hash, fails(refs[n]));
      && (next.Some? <==> Restorable(refs[n], hash, fails, whole))
      && RolledBackTo(if next.Some? then next.value else b, refs, n + 1, hash, fails, whole)
  {
    assert refs[n] in refs[n..] by {
      assert refs[n..][0] == refs[n];
    }
    assert StillThere(refs[n], refs, n, hash, fails, whole);
    RollBackStep(b, refs[n], hash, fails(refs[n]), whole);
    forall r {
      StillThereNext(refs, n, hash, fails, whole, r);
    }
  }

  /** One of the first n moved blobs cannot be restored. */
  predicate SomeStuck(refs: seq<Ref>, n: nat, hash: Data -> Ref, fails: Ref -> bool, whole: map<Ref, Data>)
    requires n <= |refs|
  {
    exists j | 0 <= j < n :: !Restorable(refs[j], hash, fails, whole)
  }

  lemma SomeStuckNext(refs: seq<Ref>, n: nat, hash: Data -> Ref, fails: Ref -> bool, whole: map<Ref, Data>)
    requires n < |refs|
    ensures SomeStuck(refs, n + 1, hash, fails, whole) <==>
      SomeStuck(refs, n, hash, fails, whole) || !Restorable(refs[n], hash, fails, whole)
  {
  }

  lemma RollBackStart(b: Blobs, refs: seq<Ref>, hash: Data -> Ref, fails: Ref -> bool, whole: map<Ref, Data>)
    requires Conserves(b, whole) && forall r :: r in b.quarantine <==> r in refs
    ensures RolledBackTo(b, refs, 0, hash, fails, whole) && !SomeStuck(refs, 0, hash, fails, whole)
  {
    assert refs[..0] == [] && refs[0..] == refs;
  }

  /** A finished rollback: what could not be restored is quarantined, and everything is back if that is nothing. */
  lemma RolledBack(b: Blobs, refs: seq<Ref>, hash: Data -> Ref, fails: Ref -> bool, whole: map<Ref, Data>)
    requires RolledBackTo(b, refs, |refs|, hash, fails, whole)
    ensures forall r :: r in b.quarantine <==> r in refs && !Restorable(r, hash, fails, whole)
    ensures SomeStuck(refs, |refs|, hash, fails, whole) <==> b.quarantine != map[]
    ensures b.quarantine == map[] ==> b == Blobs(whole, map[])
  {
    assert refs[..|refs|] == refs && refs[|refs|..] == [];
    if SomeStuck(refs, |refs|, hash, fails, whole) {
      var j :| 0 <= j < |refs| && !Restorable(refs[j], hash, fails, whole);
      assert refs[j] in b.quarantine;
    } else {
      assert b.quarantine.Keys == {};
    }
    if b.quarantine == map[] {
      NothingQuarantined(b, whole);
    }
  }

  // ---- Snapshots ----

  /** What a dry run fixes: the references of the database and the blobs present, digested without collisions. */
  datatype Snapshot = Snapshot(reachable: set<Ref>, present: map<Ref, nat>)

  function Present(active: map<Ref, Data>): map<Ref, nat> {
    map r | r in active :: |active[r]|
  }

  function Unreachable(s: Snapshot): set<Ref> {
    s.present.Keys - s.reachable
  }

  const REF_ORDER: (Ref, Ref) -> bool := (a, b) => LexOrder.LexLess(a, b, LexOrder.CHAR_RANK)

  lemma RefsStrict()
    ensures StrictOrder(REF_ORDER)
  {
    forall a ensures !REF_ORDER(a, a) {
      LexOrder.LexAsymmetric(a, a, LexOrder.CHAR_RANK);
    }
    forall a, b, c | REF_ORDER(a, b) && REF_ORDER(b, c) ensures REF_ORDER(a, c) {
      LexOrder.LexTransitive(a, b, c, LexOrder.CHAR_RANK);
    }
    forall a, b | !REF_ORDER(a, b) && !REF_ORDER(b, a) ensures a == b {
      LexOrder.LexTotal(a, b, LexOrder.CHAR_RANK);
    }
  }

  /** The names, sorted by reference. */
  ghost predicate Lists(refs: seq<Ref>, names: set<Ref>) {
    Ascending(refs, REF_ORDER) && forall r :: r in refs <==> r in names
  }

  /** A set of names has one sorted list, so the candidates are determined by the snapshot. */
  lemma ListsUnique(a: seq<Ref>, b: seq<Ref>, names: set<Ref>)
    requires Lists(a, names) && Lists(b, names)
    ensures a == b
  {
    RefsStrict();
    ListingUnique(a, b, REF_ORDER);
  }

  lemma ListsDistinct(refs: seq<Ref>, names: set<Ref>)
    requires Lists(refs, names)
    ensures Distinct(refs)
  {
    RefsStrict();
  }

  datatype RunState = Planned | Applying | Quarantined | PartialQuarantine | Restored

  datatype GCRun = GCRun(state: RunState, snapshot: Snapshot, candidates: seq<Ref>)

  /** Which of the operations of one call fail, and whether the run's final record can be written. */
  datatype Faults = Faults(move: nat -> bool, restore: Ref -> bool, commit: bool, record: bool)

  datatype Outcome = Done | Refused | Stale | Failed

  // ---- What applying a run comes to, in terms of the state before it and of what fails ----

  /** How many of n moves are made: up to the first that fails. */
  function Moved(fails: nat -> bool, n: nat): (count: nat)
    ensures count <= n && (forall i | 0 <= i < count :: !fails(i)) && (count < n ==> fails(count))
  {
    if n == 0 then 0
    else
      var before := Moved(fails, n - 1);
      if before < n - 1 || fails(n - 1) then before else n
  }

  function Stuck(refs: seq<Ref>, before: Blobs, hash: Data -> Ref, fails: Ref -> bool, whole: map<Ref, Data>): nat -> bool {
    (i: nat) => i < |refs| && !ComesBack(refs[i], before, hash, fails, whole)
  }

  /** How many candidates come back: up to the first that cannot. */
  function Restorables(refs: seq<Ref>, before: Blobs, hash: Data -> Ref, fails: Ref -> bool, whole: map<Ref, Data>): nat {
    Moved(Stuck(refs, before, hash, fails, whole), |refs|)
  }

  lemma RestorablesUnique(
      refs: seq<Ref>, before: Blobs, hash: Data -> Ref, fails: Ref -> bool, whole: map<Ref, Data>, count: nat)
    requires count <= |refs| && forall r | r in refs[..count] :: ComesBack(r, before, hash, fails, whole)
    requires count < |refs| ==> !ComesBack(refs[count], before, hash, fails, whole)
    ensures Restorables(refs, before, hash, fails, whole) == count
  {
    assert forall i | 0 <= i < count :: refs[i] in refs[..count];
    MovedUnique(Stuck(refs, before, hash, fails, whole), |refs|, count);
  }

  /** A restore has put back the candidates up to the first that cannot come back, and moved nothing else. */
  ghost predicate RestoredPart(
      before: Blobs, b: Blobs, refs: seq<Ref>, hash: Data -> Ref, fails: Ref -> bool, whole: map<Ref, Data>)
  {
    var n := Restorables(refs, before, hash, fails, whole);
    n <= |refs| && forall r :: r in b.active <==> r in before.active || r in refs[..n]
  }

  lemma MovedUnique(fails: nat -> bool, n: nat, count: nat)
    requires count <= n && (forall i | 0 <= i < count :: !fails(i)) && (count < n ==> fails(count))
    ensures count == Moved(fails, n)
  {
  }

  /** Some move fails, or the commit does. */
  predicate Interrupted(faults: Faults, candidates: nat) {
    faults.commit || exists i | 0 <= i < candidates :: faults.move(i)
  }

  /** A blob that was moved before the interruption and cannot be moved back. */
  predicate LeftBehind(r: Ref, candidates: seq<Ref>, hash: Data -> Ref, faults: Faults, active: map<Ref, Data>) {
    r in candidates[..Moved(faults.move, |candidates|)] && !Restorable(r, hash, faults.restore, active)
  }

  /** The store and its references are as the dry run found them. */
  predicate Fresh(run: GCRun, active: map<Ref, Data>, references: set<Ref>) {
    Snapshot(references, Present(active)) == run.snapshot
  }

  function ApplyOutcome(run: GCRun, active: map<Ref, Data>, references: set<Ref>, faults: Faults): Outcome {
    if run.state != Planned then Refused
    else if !Fresh(run, active, references) then Stale
    else if Interrupted(faults, |run.candidates|) then Failed
    else Done
  }

  class Collector {
    const hash: Data -> Ref
    var blobs: Blobs
    var run: GCRun

    constructor (hash: Data -> Ref, active: map<Ref, Data>, references: set<Ref>)
      ensures this.hash == hash && blobs == Blobs(active, map[]) && run.state == Planned
      ensures run.snapshot == Snapshot(references, Present(active))
      ensures Lists(run.candidates, Unreachable(run.snapshot))
    {
      this.hash := hash;
      blobs := Blobs(active, map[]);
      var candidates := ListCandidates(active, references);
      run := GCRun(Planned, Snapshot(references, Present(active)), candidates);
    }

    /** List: the blobs present, collected in any order and sorted. */
    static method ListBlobs(active: map<Ref, Data>) returns (items: seq<Ref>)
      ensures Lists(items, active.Keys)
    {
      items := [];
      var left := active.Keys;
      while left != {}
        invariant left <= active.Keys && Distinct(items) && forall r :: r in items <==> r in active.Keys - left
        decreases left
      {
        var r :| r in left;
        assert active.Keys - (left - {r}) == (active.Keys - left) + {r};
        items, left := items + [r], left - {r};
      }
      RefsStrict();
      SortAscends(items, REF_ORDER);
      items := StableSort.Sort(items, REF_ORDER);
    }

    /** gcSnapshot: the blobs no row of the database mentions, by reference. */
    static method ListCandidates(active: map<Ref, Data>, references: set<Ref>) returns (candidates: seq<Ref>)
      ensures Lists(candidates, active.Keys - references)
    {
      var items := ListBlobs(active);
      candidates := [];
      for i := 0 to |items|
        invariant Ascending(candidates, REF_ORDER)
        invariant forall r :: r in candidates <==> r in items[..i] && r !in references
      {
        assert items[..i + 1] == items[..i] + [items[i]];
        if items[i] !in references {
          assert forall r | r in items[..i] :: REF_ORDER(r, items[i]);
          candidates := candidates + [items[i]];
        }
      }
      assert items[..|items|] == items;
    }

    /** Move the candidates one after another, stopping at the first that fails. */
    method QuarantineAll(candidates: seq<Ref>, fails: nat -> bool) returns (moved: nat)
      requires blobs.quarantine == map[]
      requires Distinct(candidates)
      modifies this`blobs
      ensures moved <= |candidates|
      ensures Conserves(blobs, old(blobs.active))
      ensures forall r :: r in blobs.quarantine <==> r in candidates[..moved]
      ensures forall i | 0 <= i < moved :: !fails(i)
      ensures moved < |candidates| ==> fails(moved) || candidates[moved] !in old(blobs.active)
    {
      ghost var whole := blobs.active;
      moved := 0;
      while moved < |candidates|
        invariant moved <= |candidates| && Conserves(blobs, whole) && forall i | 0 <= i < moved :: !fails(i)
        invariant forall r :: r in blobs.quarantine <==> r in candidates[..moved]
      {
        var next := Move(blobs, candidates[moved], fails(moved));
        if next.None? {
          return;
        }
        MoveConserves(blobs, candidates[moved], fails(moved), whole);
        assert candidates[..moved + 1] == candidates[..moved] + [candidates[moved]];
        blobs := next.value;
        moved := moved + 1;
      }
    }

    /** Undo the moves made so far; one that fails does not stop the others. What cannot be restored stays quarantined. */
    method RollBack(prior: seq<Ref>, fails: Ref -> bool, ghost whole: map<Ref, Data>) returns (failed: bool)
      requires Conserves(blobs, whole) && forall r :: r in blobs.quarantine <==> r in prior
      requires Distinct(prior)
      modifies this`blobs
      ensures Conserves(blobs, whole)
      ensures forall r :: r in blobs.quarantine <==> r in prior && !Restorable(r, hash, fails, whole)
      ensures !failed <==> blobs.quarantine == map[]
      ensures !failed ==> blobs == Blobs(whole, map[])
    {
      failed := false;
      RollBackStart(blobs, prior, hash, fails, whole);
      for i := 0 to |prior|
        invariant RolledBackTo(blobs, prior, i, hash, fails, whole)
        invariant failed <==> SomeStuck(prior, i, hash, fails, whole)
      {
        RollBackNext(blobs, prior, i, hash, fails, whole);
        SomeStuckNext(prior, i, hash, fails, whole);
        var next := Restore(blobs, prior[i], hash, fails(prior[i]));
        if next.Some? {
          blobs := next.value;
        } else {
          failed := true;
        }
      }
      RolledBack(blobs, prior, hash, fails, whole);
    }

    /** Move every candidate and commit, or undo. */
    method MoveOrUndo(candidates: seq<Ref>, names: set<Ref>, faults: Faults) returns (moved: bool, failed: bool)
      requires blobs.quarantine == map[] && Lists(candidates, names) && names <= blobs.active.Keys
      modifies this`blobs
      ensures Conserves(blobs, old(blobs.active))
      ensures moved <==> !Interrupted(faults, |candidates|)
      ensures moved ==> blobs.quarantine.Keys == names
      ensures !moved ==> forall r :: r in blobs.quarantine <==> LeftBehind(r, candidates, hash, faults, old(blobs.active))
      ensures !moved ==> (failed <==> blobs.quarantine != map[]) && (!failed ==> blobs == old(blobs))
    {
      ghost var whole := blobs.active;
      ListsDistinct(candidates, names);
      var done := QuarantineAll(candidates, faults.move);
      assert forall i | 0 <= i < |candidates| :: candidates[i] in candidates && candidates[i] in whole;
      MovedUnique(faults.move, |candidates|, done);
      moved, failed := done == |candidates| && !faults.commit, false;
      if moved {
        assert candidates[..done] == candidates;
        return;
      }
      failed := RollBack(candidates[..done], faults.restore, whole);
    }

    /**
     * ApplyGC. It refuses a run that is not planned, and answers stale exactly when the store or its references changed.
     * Otherwise it succeeds exactly when every move and the commit do, and then has moved exactly what the approved snapshot
     * leaves unreachable; a failed run keeps quarantined exactly those moved blobs whose rollback fails, and is planned
     * again, partial, or, when its record cannot be written, still applying. No blob is ever lost or doubled.
     */
    method ApplyGC(references: set<Ref>, faults: Faults) returns (outcome: Outcome)
      requires run.state == Planned ==> blobs.quarantine == map[] && Lists(run.candidates, Unreachable(run.snapshot))
      modifies this
      ensures run.snapshot == old(run.snapshot) && run.candidates == old(run.candidates)
      ensures outcome == ApplyOutcome(old(run), old(blobs.active), references, faults)
      ensures outcome.Refused? || outcome.Stale? ==> blobs == old(blobs) && run == old(run)
      ensures outcome.Done? || outcome.Failed? ==> Conserves(blobs, old(blobs.active))
      ensures outcome.Done? ==> run.state == Quarantined && blobs.quarantine.Keys == old(blobs.active).Keys - references
      ensures outcome.Failed? ==> forall r ::
        r in blobs.quarantine <==> LeftBehind(r, run.candidates, hash, faults, old(blobs.active))
      ensures outcome.Failed? ==>
        run.state == if faults.record then Applying else if blobs.quarantine == map[] then Planned else PartialQuarantine
      ensures outcome.Failed? && run.state == Planned ==> blobs == old(blobs)
    {
      if run.state != Planned {
        return Refused;
      }
      var candidates := ListCandidates(blobs.active, references);
      if Snapshot(references, Present(blobs.active)) != run.snapshot {
        return Stale;
      }
      ListsUnique(candidates, run.candidates, blobs.active.Keys - references);
      if candidates != run.candidates {
        return Stale;
      }
      run := run.(state := Applying);
      var moved, failed := MoveOrUndo(candidates, blobs.active.Keys - references, faults);
      if moved {
        run := run.(state := Quarantined);
        return Done;
      }
      if !faults.record {
        run := run.(state := if failed then PartialQuarantine else Planned);
      }
      outcome := Failed;
    }

    /**
     * RestoreGC. A candidate stored again since it was quarantined is left where it is. A failure leaves
     * restored what came before it, so it may be called again; it succeeds exactly when every candidate is intact and can be
     * moved back; then the whole is active, and only the copies of what was stored again are still quarantined.
     */
    method RestoreGC(faults: Faults, ghost whole: map<Ref, Data>) returns (outcome: Outcome)
      requires Covers(blobs, whole) && (forall r | r in blobs.quarantine :: r in run.candidates)
      modifies this
      ensures Covers(blobs, whole) && old(blobs).active.Keys <= blobs.active.Keys
      ensures blobs.active.Keys * blobs.quarantine.Keys == old(blobs.active.Keys * blobs.quarantine.Keys)
      ensures run.snapshot == old(run.snapshot) && run.candidates == old(run.candidates)
      ensures outcome.Refused? <==> old(run.state) != Quarantined && old(run.state) != PartialQuarantine
      ensures outcome.Refused? ==> blobs == old(blobs)
      ensures !outcome.Refused? ==> RestoredPart(old(blobs), blobs, run.candidates, hash, faults.restore, whole)
      ensures !outcome.Stale? && (!outcome.Done? ==> run == old(run))
      ensures outcome.Done? <==>
        && !outcome.Refused? && !faults.commit
        && forall r | r in run.candidates :: ComesBack(r, old(blobs), hash, faults.restore, whole)
      ensures outcome.Done? ==>
        && run.state == Restored && blobs.active == whole
        && blobs.quarantine.Keys == old(blobs.active.Keys * blobs.quarantine.Keys)
    {
      if run.state != Quarantined && run.state != PartialQuarantine {
        return Refused;
      }
      var ok := RestoreAll(faults.restore, whole);
      if !ok || faults.commit {
        return Failed;
      }
      run := run.(state := Restored);
      outcome := Done;
    }

    /** The candidates one after another, stopping at the first that cannot be restored. */
    method RestoreAll(fails: Ref -> bool, ghost whole: map<Ref, Data>) returns (ok: bool)
      requires Covers(blobs, whole) && (forall r | r in blobs.quarantine :: r in run.candidates)
      modifies this`blobs
      ensures Covers(blobs, whole) && old(blobs).active.Keys <= blobs.active.Keys
      ensures blobs.active.Keys * blobs.quarantine.Keys == old(blobs.active.Keys * blobs.quarantine.Keys)
      ensures ok <==> forall r | r in run.candidates :: ComesBack(r, old(blobs), hash, fails, whole)
      ensures RestoredPart(old(blobs), blobs, run.candidates, hash, fails, whole)
      ensures ok ==> blobs.active == whole
    {
      ghost var before := blobs;
      var candidates := run.candidates;
      for i := 0 to |candidates|
        invariant RestoredTo(before, blobs, candidates, i, hash, fails, whole)
      {
        RestoreNext(before, blobs, candidates, i, hash, fails, whole);
        var next := Restore(blobs, candidates[i], hash, fails(candidates[i]));
        if next.None? {
          RestorablesUnique(candidates, before, hash, fails, whole, i);
          return false;
        }
        blobs := next.value;
      }
      RestorablesUnique(candidates, before, hash, fails, whole, |candidates|);
      assert candidates[..|candidates|] == candidates;
      assert blobs.active.Keys == whole.Keys && blobs.active == whole;
      ok := true;
    }

    /** Put: content is stored under its reference. */
    method Store(data: Data)
      modifies this`blobs
      ensures blobs == Put(old(blobs), data, hash)
    {
      blobs := Put(blobs, data, hash);
    }
  }

  /** A run that holds quarantined blobs and that no call accepts any more. */
  predicate Stranded(collector: Collector)
    reads collector
  {
    collector.run.state == Applying && collector.blobs.quarantine != map[]
  }

  /**
   * A planned run ends stranded exactly if the snapshot is fresh, a move or the commit fails, then the rollback of a blob
   * moved before, then the record.
   */
  predicate Strands(run: GCRun, active: map<Ref, Data>, references: set<Ref>, hash: Data -> Ref, faults: Faults) {
    && ApplyOutcome(run, active, references, faults) == Failed && faults.record
    && exists r | r in run.candidates :: LeftBehind(r, run.candidates, hash, faults, active)
  }

  method StrandsExactly(collector: Collector, references: set<Ref>, faults: Faults)
    requires collector.run.state == Planned && collector.blobs.quarantine == map[]
    requires Lists(collector.run.candidates, Unreachable(collector.run.snapshot))
    modifies collector
    ensures Stranded(collector) <==>
      Strands(old(collector.run), old(collector.blobs.active), references, collector.hash, faults)
    ensures Stranded(collector) ==>
      && Conserves(collector.blobs, old(collector.blobs.active)) && collector.run.candidates == old(collector.run.candidates)
      && forall r | r in collector.blobs.quarantine :: r in collector.run.candidates
  {
    var outcome := collector.ApplyGC(references, faults);
    if outcome.Failed? && collector.blobs.quarantine != map[] {
      ghost var r :| r in collector.blobs.quarantine;
      assert r in collector.run.candidates;
    }
  }

  /** Both calls refuse a stranded run and change nothing. */
  method RefuseStranded(collector: Collector, references: set<Ref>, faults: Faults, ghost whole: map<Ref, Data>)
    returns (applied: Outcome, restored: Outcome)
    requires Stranded(collector) && Covers(collector.blobs, whole)
    requires forall r | r in collector.blobs.quarantine :: r in collector.run.candidates
    modifies collector
    ensures applied == Refused && restored == Refused
    ensures Stranded(collector) && collector.blobs == old(collector.blobs) && collector.run == old(collector.run)
  {
    applied := collector.ApplyGC(references, faults);
    restored := collector.RestoreGC(faults, whole);
  }

  /** One blob nobody mentions, and every commit, restore and record failing: the run ends stranded, and stays so. */
  method StrandOne() returns (collector: Collector, applied: Outcome, restored: Outcome)
    ensures fresh(collector) && Stranded(collector)
    ensures collector.blobs == Blobs(map[], map["ref" := "data"]) && applied == Refused && restored == Refused
  {
    var faults := Faults((i: nat) => false, (r: Ref) => true, true, true);
    var active: map<Ref, Data> := map["ref" := "data"];
    collector := new Collector((data: Data) => "ref", active, {});
    assert "ref" in collector.run.candidates;
    assert Moved(faults.move, |collector.run.candidates|) == |collector.run.candidates|;
    assert LeftBehind("ref", collector.run.candidates, collector.hash, faults, active);
    StrandsExactly(collector, {}, faults);
    ghost var b := collector.blobs;
    assert b.quarantine.Keys == {"ref"} && b.active.Keys == {};
    assert b.quarantine == map["ref" := "data"] && b.active == map[];
    applied, restored := RefuseStranded(collector, {}, faults, active);
  }

  ghost predicate NoFaults(faults: Faults) {
    !faults.commit && !faults.record && (forall i: nat :: !faults.move(i)) && (forall r: Ref :: !faults.restore(r))
  }

  /**
   * Applying a planned run, storing anything, and restoring, when nothing fails and nothing is corrupt: an unchanged store
   * is collected and restored, a changed one is stale; either way everything that was active and what was stored are active
   * afterwards, whether or not the stored content was in quarantine.
   */
  method ApplyStoreRestore(collector: Collector, references: set<Ref>, data: Data, faults: Faults)
    returns (applied: Outcome, restored: Outcome)
    requires NoFaults(faults)
    requires collector.blobs.quarantine == map[] && collector.run.state == Planned
    requires Lists(collector.run.candidates, Unreachable(collector.run.snapshot))
    requires Injective(collector.hash) && Intact(collector.blobs.active, collector.hash)
    modifies collector
    ensures collector.blobs.active == old(collector.blobs.active)[collector.hash(data) := data]
    ensures applied == if old(Fresh(collector.run, collector.blobs.active, references)) then Done else Stale
    ensures applied.Done? ==> restored.Done? && collector.run.state == Restored
  {
    ghost var start, ref := collector.blobs, collector.hash(data);
    applied := collector.ApplyGC(references, faults);
    restored := Refused;
    PutCovers(collector.blobs, data, collector.hash, start.active);
    collector.Store(data);
    if applied.Done? {
      AllPresent(collector.run, references, start.active);
      restored := collector.RestoreGC(faults, start.active[ref := data]);
    } else if ref in start.active {
      assert start.active[ref] == data && start.active[ref := data] == start.active;
    }
  }

  /** Without anything stored in between, applying and restoring changes nothing. */
  method ApplyThenRestore(collector: Collector, references: set<Ref>, faults: Faults)
    returns (applied: Outcome, restored: Outcome)
    requires NoFaults(faults)
    requires collector.blobs.quarantine == map[] && collector.run.state == Planned
    requires Lists(collector.run.candidates, Unreachable(collector.run.snapshot))
    requires Intact(collector.blobs.active, collector.hash)
    modifies collector
    ensures collector.blobs == old(collector.blobs)
    ensures applied == if old(Fresh(collector.run, collector.blobs.active, references)) then Done else Stale
    ensures applied.Done? ==> restored.Done? && collector.run.state == Restored
  {
    ghost var start := collector.blobs;
    applied := collector.ApplyGC(references, faults);
    restored := Refused;
    if applied.Done? {
      AllPresent(collector.run, references, start.active);
      restored := collector.RestoreGC(faults, start.active);
      assert collector.blobs.quarantine.Keys == {};
    }
  }

  lemma AllPresent(run: GCRun, references: set<Ref>, whole: map<Ref, Data>)
    requires run.snapshot == Snapshot(references, Present(whole)) && Lists(run.candidates, Unreachable(run.snapshot))
    ensures forall r :: r in run.candidates <==> r in whole && r !in references
  {
  }
}
