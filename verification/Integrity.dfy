/** evaluateIntegrity: pinned retention and causal pairs of a finished selection. */
module Integrity {
  import opened Wrappers
  import opened Text
  import opened ContextTypes
  import opened Checkpoint

  datatype IntegrityError = PairSplit(pairId: string) | PinnedLost

  /** A question about one fragment: was its ID selected, or is its marker in the checkpoint? */
  type Question = Fragment -> bool

  function Chosen(selected: seq<Fragment>): Question {
    (f: Fragment) => exists g | g in selected :: g.id == f.id
  }

  function Marked(checkpoint: string): Question {
    (f: Fragment) => Contains(checkpoint, Marker(f))
  }

  predicate IsPinned(f: Fragment) {
    f.pinned || f.kind == UserGoal
  }

  function PairIds(source: seq<Fragment>): set<string> {
    set f | f in source && f.pairId != "" :: f.pairId
  }

  predicate All(source: seq<Fragment>, pair: string, q: Question) {
    forall f | f in source && f.pairId == pair :: q(f)
  }

  predicate NoneOf(source: seq<Fragment>, pair: string, q: Question) {
    forall f | f in source && f.pairId == pair :: !q(f)
  }

  /** A pair is whole when it is entirely selected, entirely in the checkpoint, or entirely gone. */
  predicate PairWhole(source: seq<Fragment>, chosen: Question, marked: Question, pair: string) {
    All(source, pair, chosen) || All(source, pair, marked) || (NoneOf(source, pair, chosen) && NoneOf(source, pair, marked))
  }

  function CountPinned(source: seq<Fragment>): nat {
    if source == [] then 0 else CountPinned(source[..|source| - 1]) + (if IsPinned(source[|source| - 1]) then 1 else 0)
  }

  function CountRetained(source: seq<Fragment>, chosen: Question): (n: nat)
    ensures n <= CountPinned(source)
  {
    if source == [] then 0
    else
      var f := source[|source| - 1];
      CountRetained(source[..|source| - 1], chosen) + (if IsPinned(f) && chosen(f) then 1 else 0)
  }

  predicate PinnedKept(source: seq<Fragment>, chosen: Question) {
    forall f | f in source && IsPinned(f) :: chosen(f)
  }

  lemma {:induction false} RetainedIsAll(source: seq<Fragment>, chosen: Question)
    ensures CountRetained(source, chosen) == CountPinned(source) <==> PinnedKept(source, chosen)
  {
    if source != [] {
      var n := |source| - 1;
      assert source == source[..n] + [source[n]];
      RetainedIsAll(source[..n], chosen);
    }
  }

  function SelectedPairs(pairs: set<string>, source: seq<Fragment>, chosen: Question): set<string> {
    set p | p in pairs && All(source, p, chosen)
  }

  function CompactedPairs(pairs: set<string>, source: seq<Fragment>, chosen: Question, marked: Question): set<string> {
    set p | p in pairs && !All(source, p, chosen) && All(source, p, marked)
  }

  function OmittedPairs(pairs: set<string>, source: seq<Fragment>, chosen: Question, marked: Question): set<string> {
    set p | p in pairs && !All(source, p, chosen) && !All(source, p, marked)
  }

  /** How the pairs of a sound selection divide. */
  function ReportOf(source: seq<Fragment>, chosen: Question, marked: Question): IntegrityReport {
    var pairs := PairIds(source);
    IntegrityReport(
      CountPinned(source), CountRetained(source, chosen), |pairs|, |SelectedPairs(pairs, source, chosen)|,
      |CompactedPairs(pairs, source, chosen, marked)|, |OmittedPairs(pairs, source, chosen, marked)|)
  }

  predicate Sound(source: seq<Fragment>, chosen: Question, marked: Question) {
    WholeAll(PairIds(source), source, chosen, marked) && PinnedKept(source, chosen)
  }

  lemma TallyOne(done: set<string>, p: string, source: seq<Fragment>, chosen: Question, marked: Question)
    ensures SelectedPairs(done + {p}, source, chosen) ==
      SelectedPairs(done, source, chosen) + (if All(source, p, chosen) then {p} else {})
    ensures CompactedPairs(done + {p}, source, chosen, marked) ==
      CompactedPairs(done, source, chosen, marked)
      + (if !All(source, p, chosen) && All(source, p, marked) then {p} else {})
    ensures OmittedPairs(done + {p}, source, chosen, marked) ==
      OmittedPairs(done, source, chosen, marked)
      + (if !All(source, p, chosen) && !All(source, p, marked) then {p} else {})
  {
  }

  method EvaluateIntegrity(source: seq<Fragment>, chosen: Question, marked: Question)
    returns (result: Result<IntegrityReport, IntegrityError>)
    ensures result.Ok? <==> Sound(source, chosen, marked)
    ensures result.Ok? ==> result.value == ReportOf(source, chosen, marked)
    ensures result.Err? && result.error.PairSplit? ==>
      result.error.pairId in PairIds(source) && !PairWhole(source, chosen, marked, result.error.pairId)
    ensures result.Err? && result.error.PinnedLost? ==>
      WholeAll(PairIds(source), source, chosen, marked) && !PinnedKept(source, chosen)
  {
    var total, retained := CountPins(source, chosen);
    var pairs := CollectPairs(source);
    var split, whole, compacted, omitted := ClassifyPairs(source, pairs, chosen, marked);
    if split.Some? {
      return Err(PairSplit(split.value));
    }
    RetainedIsAll(source, chosen);
    if retained != total {
      return Err(PinnedLost);
    }
    return Ok(IntegrityReport(total, retained, |pairs|, |whole|, |compacted|, |omitted|));
  }

  predicate WholeAll(pairs: set<string>, source: seq<Fragment>, chosen: Question, marked: Question) {
    forall p | p in pairs :: PairWhole(source, chosen, marked, p)
  }

  method ClassifyPairs(source: seq<Fragment>, pairs: map<string, seq<Fragment>>, chosen: Question, marked: Question)
    returns (split: Option<string>, whole: set<string>, compacted: set<string>, omitted: set<string>)
    requires Collected(source, pairs)
    ensures split.Some? ==> split.value in pairs && !PairWhole(source, chosen, marked, split.value)
    ensures split.None? ==>
      && WholeAll(pairs.Keys, source, chosen, marked)
      && whole == SelectedPairs(pairs.Keys, source, chosen)
      && compacted == CompactedPairs(pairs.Keys, source, chosen, marked)
      && omitted == OmittedPairs(pairs.Keys, source, chosen, marked)
  {
    split, whole, compacted, omitted := None, {}, {}, {};
    var left := pairs.Keys;
    ghost var done: set<string> := {};
    while left != {}
      invariant left <= pairs.Keys && done == pairs.Keys - left
      invariant WholeAll(done, source, chosen, marked)
      invariant whole == SelectedPairs(done, source, chosen)
      invariant compacted == CompactedPairs(done, source, chosen, marked)
      invariant omitted == OmittedPairs(done, source, chosen, marked)
      decreases left
    {
      var p :| p in left;
      var isAll, isMarked, isGone := CountPair(source, p, pairs[p], chosen, marked);
      TallyOne(done, p, source, chosen, marked);
      left, done := left - {p}, done + {p};
      if isAll {
        whole := whole + {p};
      } else if isMarked {
        compacted := compacted + {p};
      } else if isGone {
        omitted := omitted + {p};
      } else {
        split := Some(p);
        return;
      }
    }
    assert done == pairs.Keys;
  }

  method CountPins(source: seq<Fragment>, chosen: Question) returns (total: nat, retained: nat)
    ensures total == CountPinned(source) && retained == CountRetained(source, chosen)
  {
    total, retained := 0, 0;
    for i := 0 to |source|
      invariant total == CountPinned(source[..i]) && retained == CountRetained(source[..i], chosen)
    {
      assert source[..i + 1][..i] == source[..i];
      if IsPinned(source[i]) {
        total := total + 1;
        if chosen(source[i]) {
          retained := retained + 1;
        }
      }
    }
    assert source[..|source|] == source;
  }

  ghost predicate Collected(source: seq<Fragment>, pairs: map<string, seq<Fragment>>) {
    && pairs.Keys == PairIds(source)
    && forall p, f :: p in pairs ==> (f in pairs[p] <==> f in source && f.pairId == p)
  }

  method CollectPairs(source: seq<Fragment>) returns (pairs: map<string, seq<Fragment>>)
    ensures Collected(source, pairs)
  {
    pairs := map[];
    for i := 0 to |source|
      invariant Collected(source[..i], pairs)
    {
      var f := source[i];
      assert source[..i + 1] == source[..i] + [f];
      if f.pairId != "" {
        pairs := pairs[f.pairId := (if f.pairId in pairs then pairs[f.pairId] else []) + [f]];
      }
    }
    assert source[..|source|] == source;
  }

  /** The per-pair counters, compared with the size of the pair. */
  method CountPair(ghost source: seq<Fragment>, ghost p: string, pair: seq<Fragment>, chosen: Question, marked: Question)
    returns (isAll: bool, isMarked: bool, isGone: bool)
    requires forall f :: f in pair <==> f in source && f.pairId == p
    ensures isAll <==> All(source, p, chosen)
    ensures isMarked <==> All(source, p, marked)
    ensures isGone <==> NoneOf(source, p, chosen) && NoneOf(source, p, marked)
  {
    var selectedCount, compactedCount := 0, 0;
    for i := 0 to |pair|
      invariant 0 <= selectedCount <= i && 0 <= compactedCount <= i
      invariant selectedCount == i <==> forall k | 0 <= k < i :: chosen(pair[k])
      invariant compactedCount == i <==> forall k | 0 <= k < i :: marked(pair[k])
      invariant selectedCount == 0 <==> forall k | 0 <= k < i :: !chosen(pair[k])
      invariant compactedCount == 0 <==> forall k | 0 <= k < i :: !marked(pair[k])
    {
      if chosen(pair[i]) {
        selectedCount := selectedCount + 1;
      }
      if marked(pair[i]) {
        compactedCount := compactedCount + 1;
      }
    }
    isAll, isMarked := selectedCount == |pair|, compactedCount == |pair|;
    isGone := selectedCount == 0 && compactedCount == 0;
    ByIndex(pair, chosen);
    ByIndex(pair, marked);
  }

  lemma ByIndex(pair: seq<Fragment>, q: Question)
    ensures (forall k | 0 <= k < |pair| :: q(pair[k])) <==> forall f | f in pair :: q(f)
    ensures (forall k | 0 <= k < |pair| :: !q(pair[k])) <==> forall f | f in pair :: !q(f)
  {
  }

  /** In a sound selection the three ways a pair can go add up to all pairs. */
  lemma PairsAddUp(source: seq<Fragment>, chosen: Question, marked: Question)
    ensures
      var r := ReportOf(source, chosen, marked);
      r.pairsSelected + r.pairsCompacted + r.pairsOmitted == r.pairsTotal
  {
    var pairs := PairIds(source);
    assert pairs == SelectedPairs(pairs, source, chosen) + CompactedPairs(pairs, source, chosen, marked)
                    + OmittedPairs(pairs, source, chosen, marked);
  }
}
