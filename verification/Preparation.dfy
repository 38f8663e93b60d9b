/** The stages before selection: deduplicate, propagatePairPins, spillLargeTools. */
module Preparation {
  import opened Wrappers
  import opened Text
  import opened ContextTypes

  // ---- Deduplication ----

  /** The text whose hash identifies a fragment; the hash is taken as injective. */
  function DedupKey(f: Fragment): string {
    var identity :=
      if f.kind == ToolCall || f.kind == ToolResult || f.kind == ArtifactReceipt then f.id + "|" + f.pairId else "";
    KindName(f.kind) + "|" + f.version + "|" + identity + "|" + f.content
  }

  type Key = Fragment -> string

  const BY_CONTENT: Key := (f: Fragment) => DedupKey(f)

  predicate Replaces(later: Fragment, earlier: Fragment) {
    later.priority > earlier.priority || later.createdAt > earlier.createdAt
  }

  /** A map from keys to the copies that hold them, among the first n fragments. */
  predicate HeldBy(fragments: seq<Fragment>, key: Key, held: map<string, nat>, n: nat) {
    forall k | k in held :: held[k] < n <= |fragments| && key(fragments[held[k]]) == k
  }

  /** Fragment n takes its key over, or leaves it to the copy that holds it. */
  function Contest(fragments: seq<Fragment>, key: Key, held: map<string, nat>, n: nat): (after: map<string, nat>)
    requires n < |fragments| && HeldBy(fragments, key, held, n)
  {
    var k := key(fragments[n]);
    if k !in held || Replaces(fragments[n], fragments[held[k]]) then held[k := n] else held
  }

  /** For every key the index of the fragment that represents it. */
  function Winners(fragments: seq<Fragment>, key: Key): (w: map<string, nat>)
    ensures HeldBy(fragments, key, w, |fragments|)
  {
    if fragments == [] then map[]
    else
      var n := |fragments| - 1;
      var init := Winners(fragments[..n], key);
      assert HeldBy(fragments, key, init, n) by {
        assert forall i | 0 <= i < n :: fragments[..n][i] == fragments[i];
      }
      Contest(fragments, key, init, n)
  }

  predicate Wins(winners: map<string, nat>, k: string, i: nat) {
    k in winners && winners[k] == i
  }

  /** The representatives among the first n fragments, in input order. */
  function Survivors(fragments: seq<Fragment>, key: Key, winners: map<string, nat>, n: nat): (out: seq<Fragment>)
    requires n <= |fragments|
    ensures |out| <= n
  {
    if n == 0 then []
    else
      Survivors(fragments, key, winners, n - 1) +
      (if Wins(winners, key(fragments[n - 1]), n - 1) then [fragments[n - 1]] else [])
  }

  function DeduplicateBy(fragments: seq<Fragment>, key: Key): seq<Fragment> {
    Survivors(fragments, key, Winners(fragments, key), |fragments|)
  }

  function Deduplicate(fragments: seq<Fragment>): seq<Fragment> {
    DeduplicateBy(fragments, BY_CONTENT)
  }

  method RunDeduplicate(fragments: seq<Fragment>, key: Key) returns (out: seq<Fragment>)
    ensures out == DeduplicateBy(fragments, key)
  {
    var seen := ChooseWinners(fragments, key);
    // The items of the map, sorted by index.
    out := [];
    for i := 0 to |fragments|
      invariant out == Survivors(fragments, key, seen, i)
    {
      var k := key(fragments[i]);
      if k in seen && seen[k] == i {
        out := out + [fragments[i]];
      }
    }
  }

  method ChooseWinners(fragments: seq<Fragment>, key: Key) returns (seen: map<string, nat>)
    ensures seen == Winners(fragments, key)
  {
    seen := map[];
    for i := 0 to |fragments|
      invariant seen == Winners(fragments[..i], key)
    {
      assert fragments[..i + 1][..i] == fragments[..i];
      var k := key(fragments[i]);
      if k !in seen || Replaces(fragments[i], fragments[seen[k]]) {
        seen := seen[k := i];
      }
    }
    assert fragments[..|fragments|] == fragments;
  }

  lemma {:induction false} WinnersTotal(fragments: seq<Fragment>, key: Key, i: nat)
    requires i < |fragments|
    ensures key(fragments[i]) in Winners(fragments, key)
  {
    var n := |fragments| - 1;
    if i < n {
      WinnersTotal(fragments[..n], key, i);
    }
  }

  lemma {:induction false} SurvivorsMember(fragments: seq<Fragment>, key: Key, w: map<string, nat>, n: nat, i: nat)
    requires i < n <= |fragments| && Wins(w, key(fragments[i]), i)
    ensures fragments[i] in Survivors(fragments, key, w, n)
  {
    if i < n - 1 {
      SurvivorsMember(fragments, key, w, n - 1, i);
    }
  }

  predicate IsSurvivor(fragments: seq<Fragment>, key: Key, w: map<string, nat>, n: nat, f: Fragment)
    requires n <= |fragments|
  {
    exists i | 0 <= i < n :: fragments[i] == f && Wins(w, key(f), i)
  }

  lemma {:induction false} SurvivorsSource(fragments: seq<Fragment>, key: Key, w: map<string, nat>, n: nat, f: Fragment)
    requires n <= |fragments|
    requires f in Survivors(fragments, key, w, n)
    ensures IsSurvivor(fragments, key, w, n, f)
  {
    if f in Survivors(fragments, key, w, n - 1) {
      SurvivorsSource(fragments, key, w, n - 1, f);
    }
  }

  predicate DistinctKeys(fragments: seq<Fragment>, key: Key) {
    forall i, j | 0 <= i < j < |fragments| :: key(fragments[i]) != key(fragments[j])
  }

  lemma {:induction false} SurvivorsDistinct(fragments: seq<Fragment>, key: Key, w: map<string, nat>, n: nat)
    requires n <= |fragments|
    ensures DistinctKeys(Survivors(fragments, key, w, n), key)
  {
    if n > 0 {
      var init := Survivors(fragments, key, w, n - 1);
      SurvivorsDistinct(fragments, key, w, n - 1);
      forall i | 0 <= i < |init| && Wins(w, key(fragments[n - 1]), n - 1)
        ensures key(init[i]) != key(fragments[n - 1])
      {
        SurvivorsSource(fragments, key, w, n - 1, init[i]);
      }
    }
  }

  /** Every fragment keeps exactly one representative of its key, and nothing is invented. */
  lemma DeduplicateRepresents(fragments: seq<Fragment>, key: Key)
    ensures DistinctKeys(DeduplicateBy(fragments, key), key)
    ensures forall g | g in DeduplicateBy(fragments, key) :: g in fragments
    ensures forall f | f in fragments :: exists g | g in DeduplicateBy(fragments, key) :: key(g) == key(f)
  {
    var out, w, n := DeduplicateBy(fragments, key), Winners(fragments, key), |fragments|;
    SurvivorsDistinct(fragments, key, w, n);
    forall g | g in out ensures g in fragments {
      SurvivorsSource(fragments, key, w, n, g);
    }
    forall f | f in fragments ensures exists g | g in out :: key(g) == key(f) {
      var i :| 0 <= i < n && fragments[i] == f;
      WinnersTotal(fragments, key, i);
      SurvivorsMember(fragments, key, w, n, w[key(f)]);
    }
  }

  // ---- Which copy represents a key ----

  /** A later copy replaces copy i. */
  predicate Overtaken(fragments: seq<Fragment>, key: Key, i: nat)
    requires i < |fragments|
  {
    exists j | i < j < |fragments| :: key(fragments[j]) == key(fragments[i]) && Replaces(fragments[j], fragments[i])
  }

  /** One more fragment overtakes copy i exactly if it is a copy that replaces it. */
  lemma OvertakenMore(fragments: seq<Fragment>, key: Key, i: nat, n: nat)
    requires i < n == |fragments| - 1
    ensures Overtaken(fragments, key, i) <==>
      || Overtaken(fragments[..n], key, i)
      || (key(fragments[n]) == key(fragments[i]) && Replaces(fragments[n], fragments[i]))
  {
    if Overtaken(fragments[..n], key, i) {
      var j :| i < j < n && key(fragments[..n][j]) == key(fragments[i]) && Replaces(fragments[..n][j], fragments[i]);
      assert fragments[j] == fragments[..n][j];
    }
    if Overtaken(fragments, key, i) {
      var j :| i < j <= n && key(fragments[j]) == key(fragments[i]) && Replaces(fragments[j], fragments[i]);
      assert j < n ==> fragments[..n][j] == fragments[j];
    }
  }

  /** Copy i still wins after one more fragment exactly if it won before and that fragment does not replace it. */
  lemma WinsMore(fragments: seq<Fragment>, key: Key, held: map<string, nat>, i: nat, n: nat)
    requires i < n < |fragments| && HeldBy(fragments, key, held, n)
    ensures Wins(Contest(fragments, key, held, n), key(fragments[i]), i) <==>
      && Wins(held, key(fragments[i]), i)
      && !(key(fragments[n]) == key(fragments[i]) && Replaces(fragments[n], fragments[i]))
  {
  }

  /** The copy that represents a key is replaced by no later copy. */
  lemma {:induction false} WinnerHolds(fragments: seq<Fragment>, key: Key, i: nat)
    requires i < |fragments| && Wins(Winners(fragments, key), key(fragments[i]), i)
    ensures !Overtaken(fragments, key, i)
  {
    var n := |fragments| - 1;
    if i < n {
      WinsMore(fragments, key, Winners(fragments[..n], key), i, n);
      WinnerHolds(fragments[..n], key, i);
      OvertakenMore(fragments, key, i, n);
    }
  }

  /** What replaces a copy replaces every copy that one stands against. */
  lemma ReplacesBoth(late: Fragment, held: Fragment, f: Fragment)
    requires Replaces(late, held) && !Replaces(f, held)
    ensures Replaces(late, f)
  {
  }

  /** When the last fragment takes its key over from copy h, it or another later copy replaces every earlier copy. */
  lemma LastOvertakes(fragments: seq<Fragment>, key: Key, j: nat, h: nat, n: nat)
    requires j < n == |fragments| - 1 && h < n && key(fragments[j]) == key(fragments[n]) == key(fragments[h])
    requires Replaces(fragments[n], fragments[h])
    requires j < h ==> Overtaken(fragments[..n], key, j)
    requires h < j ==> !Replaces(fragments[j], fragments[h])
    ensures Overtaken(fragments, key, j)
  {
    OvertakenMore(fragments, key, j, n);
    if h < j {
      ReplacesBoth(fragments[n], fragments[h], fragments[j]);
    }
  }

  lemma NotReplaced(fragments: seq<Fragment>, key: Key, h: nat, j: nat)
    requires h < j < |fragments| && key(fragments[j]) == key(fragments[h]) && !Overtaken(fragments, key, h)
    ensures !Replaces(fragments[j], fragments[h])
  {
  }

  /** Every copy before the one that represents its key is replaced by some later copy. */
  lemma {:induction false} EarlierOvertaken(fragments: seq<Fragment>, key: Key, j: nat)
    requires j < |fragments| && key(fragments[j]) in Winners(fragments, key)
    requires j < Winners(fragments, key)[key(fragments[j])]
    ensures Overtaken(fragments, key, j)
  {
    var n, k := |fragments| - 1, key(fragments[j]);
    var held := Winners(fragments[..n], key);
    WinnersTotal(fragments[..n], key, j);
    var h := held[k];
    if j < h {
      EarlierOvertaken(fragments[..n], key, j);
      OvertakenMore(fragments, key, j, n);
    } else if h < j {
      WinnerHolds(fragments[..n], key, h);
      NotReplaced(fragments[..n], key, h, j);
    }
    if Winners(fragments, key)[k] == n {
      LastOvertakes(fragments, key, j, h, n);
    }
  }

  /** No later copy replaces copy i, and every earlier copy of its key is replaced by some later one. */
  predicate Represents(fragments: seq<Fragment>, key: Key, i: nat)
    requires i < |fragments|
  {
    && !Overtaken(fragments, key, i)
    && forall j | 0 <= j < i && key(fragments[j]) == key(fragments[i]) :: Overtaken(fragments, key, j)
  }

  /** Exactly which copy survives, for lists of any length: the first that no later copy replaces. */
  lemma SurvivesExactly(fragments: seq<Fragment>, key: Key, i: nat)
    requires i < |fragments|
    ensures Wins(Winners(fragments, key), key(fragments[i]), i) <==> Represents(fragments, key, i)
  {
    var k := key(fragments[i]);
    WinnersTotal(fragments, key, i);
    var w := Winners(fragments, key)[k];
    WinnerHolds(fragments, key, w);
    if i < w {
      EarlierOvertaken(fragments, key, i);
    }
    forall j | 0 <= j < w && key(fragments[j]) == k ensures Overtaken(fragments, key, j) {
      EarlierOvertaken(fragments, key, j);
    }
  }

  /** A copy that represents its key keeps it against every later copy, in priority and in time. */
  lemma DeduplicateKeepsLatest(fragments: seq<Fragment>, key: Key, i: nat, j: nat)
    requires i < j < |fragments| && Wins(Winners(fragments, key), key(fragments[i]), i)
    requires key(fragments[j]) == key(fragments[i])
    ensures !Replaces(fragments[j], fragments[i])
  {
    SurvivesExactly(fragments, key, i);
  }

  predicate KeepsPinned(out: seq<Fragment>, key: Key, k: string) {
    exists g | g in out :: key(g) == k && g.pinned
  }

  /** The first copy of the key that no later copy replaces is pinned. */
  predicate PinnedHolds(fragments: seq<Fragment>, key: Key, k: string) {
    exists i | 0 <= i < |fragments| ::
      key(fragments[i]) == k && fragments[i].pinned && Represents(fragments, key, i)
  }

  /** A key keeps a pinned representative exactly when the first copy that no later copy replaces is pinned. */
  lemma PinnedKeptExactly(fragments: seq<Fragment>, key: Key, k: string)
    ensures KeepsPinned(DeduplicateBy(fragments, key), key, k) <==> PinnedHolds(fragments, key, k)
  {
    var out, w, n := DeduplicateBy(fragments, key), Winners(fragments, key), |fragments|;
    if KeepsPinned(out, key, k) {
      var g :| g in out && key(g) == k && g.pinned;
      SurvivorsSource(fragments, key, w, n, g);
      SurvivesExactly(fragments, key, w[k]);
    }
    if PinnedHolds(fragments, key, k) {
      var i :| 0 <= i < n && key(fragments[i]) == k && fragments[i].pinned
        && Represents(fragments, key, i);
      SurvivesExactly(fragments, key, i);
      SurvivorsMember(fragments, key, w, n, i);
    }
  }

  /** So a pinned copy no other copy replaces, and which replaces every earlier one, is always kept. */
  lemma DominantPinKept(fragments: seq<Fragment>, key: Key, i: nat)
    requires i < |fragments| && fragments[i].pinned && !Overtaken(fragments, key, i)
    requires forall j | 0 <= j < i && key(fragments[j]) == key(fragments[i]) :: Replaces(fragments[i], fragments[j])
    ensures KeepsPinned(DeduplicateBy(fragments, key), key, key(fragments[i]))
  {
    assert Represents(fragments, key, i);
    PinnedKeptExactly(fragments, key, key(fragments[i]));
  }

  lemma {:induction false} AllSurvive(fragments: seq<Fragment>, key: Key, w: map<string, nat>, n: nat)
    requires n <= |fragments|
    requires |Survivors(fragments, key, w, n)| == n
    ensures Survivors(fragments, key, w, n) == fragments[..n]
  {
    if n > 0 {
      AllSurvive(fragments, key, w, n - 1);
    }
  }

  /** The fragment count is an honest witness: nothing removed means nothing changed. */
  lemma DeduplicateNothing(fragments: seq<Fragment>, key: Key)
    requires |DeduplicateBy(fragments, key)| == |fragments|
    ensures DeduplicateBy(fragments, key) == fragments
  {
    AllSurvive(fragments, key, Winners(fragments, key), |fragments|);
    assert fragments[..|fragments|] == fragments;
  }

  lemma {:induction false} DistinctAllWin(fragments: seq<Fragment>, key: Key, i: nat)
    requires DistinctKeys(fragments, key) && i < |fragments|
    ensures Wins(Winners(fragments, key), key(fragments[i]), i)
  {
    var n := |fragments| - 1;
    if i < n {
      DistinctAllWin(fragments[..n], key, i);
    }
  }

  lemma {:induction false} WinnersSurvive(fragments: seq<Fragment>, key: Key, w: map<string, nat>, n: nat)
    requires n <= |fragments| && forall i | 0 <= i < n :: Wins(w, key(fragments[i]), i)
    ensures Survivors(fragments, key, w, n) == fragments[..n]
  {
    if n > 0 {
      WinnersSurvive(fragments, key, w, n - 1);
      assert fragments[..n - 1] + [fragments[n - 1]] == fragments[..n];
    }
  }

  lemma DistinctSurvive(fragments: seq<Fragment>, key: Key, n: nat)
    requires DistinctKeys(fragments, key) && n <= |fragments|
    ensures Survivors(fragments, key, Winners(fragments, key), n) == fragments[..n]
  {
    forall i | 0 <= i < n ensures Wins(Winners(fragments, key), key(fragments[i]), i) {
      DistinctAllWin(fragments, key, i);
    }
    WinnersSurvive(fragments, key, Winners(fragments, key), n);
  }

  lemma DeduplicateIdempotent(fragments: seq<Fragment>, key: Key)
    ensures DeduplicateBy(DeduplicateBy(fragments, key), key) == DeduplicateBy(fragments, key)
  {
    var out := DeduplicateBy(fragments, key);
    SurvivorsDistinct(fragments, key, Winners(fragments, key), |fragments|);
    DistinctSurvive(out, key, |out|);
    assert out[..|out|] == out;
  }

  /** Of two copies the later one wins by priority or by time and by nothing else: a pin is not part of the key. */
  lemma DeduplicateIgnoresPins(f: Fragment, g: Fragment)
    requires BY_CONTENT(f) == BY_CONTENT(g)
    ensures Deduplicate([f, g]) == if Replaces(g, f) then [g] else [f]
  {
    assert [f, g][..1] == [f] && [f][..0] == [];
    assert Winners([f], BY_CONTENT) == map[BY_CONTENT(f) := 0];
    var w := Winners([f, g], BY_CONTENT);
    assert w == map[BY_CONTENT(f) := if Replaces(g, f) then 1 else 0];
    assert Survivors([f, g], BY_CONTENT, w, 0) == [];
    assert Survivors([f, g], BY_CONTENT, w, 1) == if Replaces(g, f) then [] else [f];
  }

  /** One text stored at a priority and a time. */
  function CopyOf(priority: int, createdAt: Time, pinned: bool): Fragment {
    EMPTY_FRAGMENT.(content := "rule", priority := priority, createdAt := createdAt, pinned := pinned)
  }

  /** A pinned copy is lost to a later one that is not pinned. */
  lemma PinnedCopyLost()
    ensures
      var pinned, later := CopyOf(0, 1, true), CopyOf(0, 2, false);
      Deduplicate([pinned, later]) == [later] && !KeepsPinned([later], BY_CONTENT, BY_CONTENT(pinned))
  {
    DeduplicateIgnoresPins(CopyOf(0, 1, true), CopyOf(0, 2, false));
  }

  /**
   * Replacing is not transitive: the copy that is left can be older than an earlier copy and of lower priority, because
   * a third one between them replaced that copy and was replaced in turn.
   */
  lemma EarlierCopyDominates()
    ensures
      var first, second, third := CopyOf(5, 1, true), CopyOf(1, 2, false), CopyOf(2, 0, false);
      && Deduplicate([first, second, third]) == [third]
      && first.priority > third.priority && first.createdAt > third.createdAt
  {
    var first, second, third := CopyOf(5, 1, true), CopyOf(1, 2, false), CopyOf(2, 0, false);
    var all, k := [first, second, third], BY_CONTENT(first);
    assert all[..0] == [] && all[..1] == [first] && all[..2] == [first, second];
    assert all[..2][..1] == [first] && all[..1][..0] == [];
    assert Winners(all[..1], BY_CONTENT) == map[k := 0];
    assert Winners(all[..2], BY_CONTENT) == map[k := 1];
    var w := Winners(all, BY_CONTENT);
    assert w == map[k := 2];
    assert Survivors(all, BY_CONTENT, w, 1) == [] && Survivors(all, BY_CONTENT, w, 2) == [];
  }

  // ---- Pair pins ----

  function PinnedPairs(fragments: seq<Fragment>): set<string> {
    set f | f in fragments && f.pairId != "" && f.pinned :: f.pairId
  }

  function Repin(f: Fragment, pinned: set<string>): Fragment {
    if f.pairId in pinned then f.(pinned := true) else f
  }

  function PropagatePairPins(fragments: seq<Fragment>): (out: seq<Fragment>)
    ensures |out| == |fragments|
  {
    seq(|fragments|, i requires 0 <= i < |fragments| => Repin(fragments[i], PinnedPairs(fragments)))
  }

  method RunPropagatePairPins(fragments: seq<Fragment>) returns (out: seq<Fragment>)
    ensures out == PropagatePairPins(fragments)
  {
    var pinned: set<string> := {};
    for i := 0 to |fragments|
      invariant pinned == PinnedPairs(fragments[..i])
    {
      assert fragments[..i + 1] == fragments[..i] + [fragments[i]];
      if fragments[i].pairId != "" && fragments[i].pinned {
        pinned := pinned + {fragments[i].pairId};
      }
    }
    assert fragments[..|fragments|] == fragments;
    out := fragments;
    for i := 0 to |out|
      invariant |out| == |fragments|
      invariant out[..i] == PropagatePairPins(fragments)[..i] && out[i..] == fragments[i..]
    {
      if out[i].pairId in pinned {
        out := out[i := out[i].(pinned := true)];
      }
    }
  }

  /** After propagation the members of a pair agree about being pinned. */
  lemma PinsUniform(fragments: seq<Fragment>, i: nat, j: nat)
    requires i < |fragments| && j < |fragments|
    requires fragments[i].pairId != "" && fragments[i].pairId == fragments[j].pairId
    ensures PropagatePairPins(fragments)[i].pinned == PropagatePairPins(fragments)[j].pinned
    ensures PropagatePairPins(fragments)[i].pinned <==>
      exists f | f in fragments :: f.pairId == fragments[i].pairId && f.pinned
  {
    if f :| f in fragments && f.pairId == fragments[i].pairId && f.pinned {
      assert f.pairId in PinnedPairs(fragments);
    }
  }

  // ---- Spilling ----

  type Spiller = string -> Result<SpillReceipt, string>

  datatype SpillError = NoSpiller(id: string) | SpillFailed(id: string, cause: string)

  datatype Spilled = Spilled(fragments: seq<Fragment>, receipts: seq<SpillReceipt>)

  function HeadTail(value: string, maxRunes: nat): string {
    if |value| <= maxRunes then value
    else
      var head := maxRunes * 2 / 3;
      value[..head] + " … " + value[|value| - (maxRunes - head)..]
  }

  function InlineLimit(f: Fragment, limit: int): int {
    if f.pinned && "video_report_handoff" in f.metadata && f.metadata["video_report_handoff"] == "owner-cli-video-v1"
    then Max(limit, 4096) else limit
  }

  predicate MustSpill(estimator: Estimator, f: Fragment, limit: int) {
    f.kind == ToolResult && estimator(f.content) > InlineLimit(f, limit)
  }

  function SpillReference(f: Fragment, receipt: SpillReceipt): Fragment {
    f.(content := "[artifact ref=" + receipt.ref + " bytes=" + Decimal(receipt.bytes) + " sha256=" + receipt.checksum
                  + " source=" + f.id + "]\nPreview: " + HeadTail(CompactWhitespace(f.content), 900),
       kind := ArtifactReceipt,
       metadata := f.metadata["artifact_ref" := receipt.ref])
  }

  /** What happens to one fragment; the receipts list is empty when it stays inline. */
  function SpillOne(estimator: Estimator, f: Fragment, limit: int, spiller: Option<Spiller>)
    : Result<(Fragment, seq<SpillReceipt>), SpillError>
  {
    if !MustSpill(estimator, f, limit) then Ok((f, []))
    else if spiller == None then Err(NoSpiller(f.id))
    else
      match spiller.value(f.content)
      case Err(cause) => Err(SpillFailed(f.id, cause))
      case Ok(receipt) => Ok((SpillReference(f, receipt), [receipt]))
  }

  function SpillLargeTools(estimator: Estimator, fragments: seq<Fragment>, limit: int, spiller: Option<Spiller>)
    : (result: Result<Spilled, SpillError>)
    ensures result.Ok? ==> |result.value.fragments| == |fragments|
  {
    if fragments == [] then Ok(Spilled([], []))
    else
      var n := |fragments| - 1;
      var init :- SpillLargeTools(estimator, fragments[..n], limit, spiller);
      var one :- SpillOne(estimator, fragments[n], limit, spiller);
      Ok(Spilled(init.fragments + [one.0], init.receipts + one.1))
  }

  method RunSpillLargeTools(estimator: Estimator, fragments: seq<Fragment>, limit: int, spiller: Option<Spiller>)
    returns (result: Result<Spilled, SpillError>)
    ensures result == SpillLargeTools(estimator, fragments, limit, spiller)
  {
    var out, receipts := fragments, [];
    for i := 0 to |fragments|
      invariant |out| == |fragments| && out[i..] == fragments[i..]
      invariant SpillLargeTools(estimator, fragments[..i], limit, spiller) == Ok(Spilled(out[..i], receipts))
    {
      assert fragments[..i + 1] == fragments[..i] + [fragments[i]] && out[i] == fragments[i];
      var one := SpillOne(estimator, out[i], limit, spiller);
      if one.Err? {
        SpillFails(estimator, fragments[..i], fragments[i], limit, spiller);
        SpillErrorPropagates(estimator, fragments, i + 1, limit, spiller);
        return Err(one.error);
      }
      SpillMore(estimator, fragments[..i], fragments[i], limit, spiller);
      ghost var init := out[..i];
      out, receipts := out[i := one.value.0], receipts + one.value.1;
      assert out[..i + 1] == init + [out[i]];
    }
    assert fragments[..|fragments|] == fragments && out[..|fragments|] == out;
    return Ok(Spilled(out, receipts));
  }

  lemma {:induction false} SpillErrorPropagates(
      estimator: Estimator, fragments: seq<Fragment>, k: nat, limit: int, spiller: Option<Spiller>)
    requires k <= |fragments|
    requires SpillLargeTools(estimator, fragments[..k], limit, spiller).Err?
    ensures SpillLargeTools(estimator, fragments, limit, spiller)
         == SpillLargeTools(estimator, fragments[..k], limit, spiller)
  {
    var n := |fragments| - 1;
    if k <= n {
      assert fragments[..n][..k] == fragments[..k];
      SpillErrorPropagates(estimator, fragments[..n], k, limit, spiller);
    } else {
      assert fragments[..k] == fragments;
    }
  }

  /** Spilling one more fragment. */
  lemma SpillMore(estimator: Estimator, init: seq<Fragment>, f: Fragment, limit: int, spiller: Option<Spiller>)
    requires SpillLargeTools(estimator, init, limit, spiller).Ok? && SpillOne(estimator, f, limit, spiller).Ok?
    ensures
      var before, one := SpillLargeTools(estimator, init, limit, spiller).value, SpillOne(estimator, f, limit, spiller).value;
      SpillLargeTools(estimator, init + [f], limit, spiller) ==
        Ok(Spilled(before.fragments + [one.0], before.receipts + one.1))
  {
    assert (init + [f])[..|init|] == init;
  }

  lemma SpillFails(estimator: Estimator, init: seq<Fragment>, f: Fragment, limit: int, spiller: Option<Spiller>)
    requires SpillLargeTools(estimator, init, limit, spiller).Ok? && SpillOne(estimator, f, limit, spiller).Err?
    ensures SpillLargeTools(estimator, init + [f], limit, spiller) == Err(SpillOne(estimator, f, limit, spiller).error)
  {
    assert (init + [f])[..|init|] == init;
  }

  /** Each fragment is spilled, or not, by itself. */
  lemma {:induction false} SpillAt(
      estimator: Estimator, fragments: seq<Fragment>, limit: int, spiller: Option<Spiller>, i: nat)
    requires SpillLargeTools(estimator, fragments, limit, spiller).Ok? && i < |fragments|
    ensures SpillOne(estimator, fragments[i], limit, spiller).Ok?
    ensures SpillLargeTools(estimator, fragments, limit, spiller).value.fragments[i] ==
      SpillOne(estimator, fragments[i], limit, spiller).value.0
  {
    var n := |fragments| - 1;
    if i < n {
      SpillAt(estimator, fragments[..n], limit, spiller, i);
    }
  }

  /** What spilling may change about one fragment. */
  predicate SpilledFrom(estimator: Estimator, limit: int, before: Fragment, after: Fragment) {
    if MustSpill(estimator, before, limit) then
      && after.kind == ArtifactReceipt
      && after.id == before.id && after.pairId == before.pairId && after.pinned == before.pinned
      && after.priority == before.priority && after.createdAt == before.createdAt
    else after == before
  }

  lemma SpillOnePreserves(estimator: Estimator, f: Fragment, limit: int, spiller: Option<Spiller>)
    requires SpillOne(estimator, f, limit, spiller).Ok?
    ensures
      var one := SpillOne(estimator, f, limit, spiller).value;
      SpilledFrom(estimator, limit, f, one.0) && (one.1 == [] ==> one.0 == f)
  {
  }

  /** Fragment by fragment: identity and pairing survive, oversized results become receipts, the rest is untouched. */
  lemma SpillPreserves(estimator: Estimator, fragments: seq<Fragment>, limit: int, spiller: Option<Spiller>, i: nat)
    requires SpillLargeTools(estimator, fragments, limit, spiller).Ok? && i < |fragments|
    ensures
      var out := SpillLargeTools(estimator, fragments, limit, spiller).value;
      SpilledFrom(estimator, limit, fragments[i], out.fragments[i])
  {
    SpillAt(estimator, fragments, limit, spiller, i);
    SpillOnePreserves(estimator, fragments[i], limit, spiller);
  }

  /** No receipt means no fragment changed. */
  lemma {:induction false} SpillNothing(
      estimator: Estimator, fragments: seq<Fragment>, limit: int, spiller: Option<Spiller>)
    requires SpillLargeTools(estimator, fragments, limit, spiller).Ok?
    requires SpillLargeTools(estimator, fragments, limit, spiller).value.receipts == []
    ensures SpillLargeTools(estimator, fragments, limit, spiller).value.fragments == fragments
  {
    if fragments != [] {
      var n := |fragments| - 1;
      SpillOnePreserves(estimator, fragments[n], limit, spiller);
      SpillNothing(estimator, fragments[..n], limit, spiller);
    }
  }
}
