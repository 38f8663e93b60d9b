/** Whole-unit greedy selection (selectWithin, selectActive, makeUnits, canonicalOrder). */
module Selection {
  import opened ContextTypes
  import opened Multisets
  import opened Sums
  import StableSort
  import LexOrder

  // ---- Slices and the canonical order ----

  datatype Slice = System | SkillsProject | Pinned | Active

  function SliceFor(fragment: Fragment): Slice {
    if fragment.pinned || fragment.kind == UserGoal then Pinned
    else match fragment.kind
      case Identity | Policy => System
      case ProjectInstruction | SelectedSkill => SkillsProject
      case _ => Active
  }

  function OrderFor(fragment: Fragment): int {
    match SliceFor(fragment)
    case System => 10
    case SkillsProject => 20
    case Pinned => 30
    case Active => if fragment.kind == Checkpoint then 40 else 50
  }

  predicate CanonicalLess(a: Fragment, b: Fragment) {
    if OrderFor(a) != OrderFor(b) then OrderFor(a) < OrderFor(b)
    else if a.createdAt != b.createdAt then a.createdAt < b.createdAt
    else LexOrder.LexLess(a.id, b.id, LexOrder.CHAR_RANK)
  }

  const CANONICAL_ORDER: (Fragment, Fragment) -> bool := (a, b) => CanonicalLess(a, b)

  function CanonicalOrder(fragments: seq<Fragment>): (ordered: seq<Fragment>)
    ensures multiset(ordered) == multiset(fragments)
  {
    StableSort.Sort(fragments, CANONICAL_ORDER)
  }

  lemma CanonicalIsWeakOrder()
    ensures StableSort.StrictWeakOrder(CANONICAL_ORDER)
  {
    forall a, b | CANONICAL_ORDER(a, b) ensures !CANONICAL_ORDER(b, a) {
      LexOrder.LexAsymmetric(a.id, b.id, LexOrder.CHAR_RANK);
    }
    forall a, b, c | !CANONICAL_ORDER(a, b) && !CANONICAL_ORDER(b, c) ensures !CANONICAL_ORDER(a, c) {
      if !LexOrder.LexLess(a.id, b.id, LexOrder.CHAR_RANK) && !LexOrder.LexLess(b.id, c.id, LexOrder.CHAR_RANK) {
        LexOrder.LexNegativelyTransitive(a.id, b.id, c.id, LexOrder.CHAR_RANK);
      }
    }
  }

  lemma CanonicalSorted(fragments: seq<Fragment>)
    ensures StableSort.Sorted(CanonicalOrder(fragments), CANONICAL_ORDER)
  {
    CanonicalIsWeakOrder();
    StableSort.SortSorted(fragments, CANONICAL_ORDER);
  }

  // ---- Units ----

  datatype Unit = Unit(fragments: seq<Fragment>, priority: int, created: Time)

  /** The distinct unit keys in order of first appearance. */
  function KeyOrder(fragments: seq<Fragment>): seq<string> {
    if fragments == [] then []
    else
      var n := |fragments| - 1;
      var keys := KeyOrder(fragments[..n]);
      if UnitKey(fragments[n]) in keys then keys else keys + [UnitKey(fragments[n])]
  }

  lemma {:induction false} KeyOrderDistinct(fragments: seq<Fragment>)
    ensures Distinct(KeyOrder(fragments))
  {
    if fragments != [] {
      KeyOrderDistinct(fragments[..|fragments| - 1]);
    }
  }

  lemma {:induction false} KeyOrderComplete(fragments: seq<Fragment>, f: Fragment)
    requires f in fragments
    ensures UnitKey(f) in KeyOrder(fragments)
  {
    var n := |fragments| - 1;
    if f in fragments[..n] {
      KeyOrderComplete(fragments[..n], f);
    }
  }

  function Members(fragments: seq<Fragment>, key: string): (members: seq<Fragment>)
    ensures forall f | f in members :: UnitKey(f) == key
  {
    if fragments == [] then []
    else
      var n := |fragments| - 1;
      Members(fragments[..n], key) + (if UnitKey(fragments[n]) == key then [fragments[n]] else [])
  }

  /** A unit's rank: the highest priority (at least 0) and the latest time of its fragments. */
  function UnitOf(fragments: seq<Fragment>): (unit: Unit)
    ensures unit.fragments == fragments
  {
    if fragments == [] then Unit([], 0, 0)
    else
      var n := |fragments| - 1;
      var init := UnitOf(fragments[..n]);
      Unit(fragments, Max(init.priority, fragments[n].priority), Max(init.created, fragments[n].createdAt))
  }

  function Units(fragments: seq<Fragment>): (units: seq<Unit>)
    ensures |units| == |KeyOrder(fragments)|
  {
    var keys := KeyOrder(fragments);
    seq(|keys|, i requires 0 <= i < |keys| => UnitOf(Members(fragments, keys[i])))
  }

  function Flatten(units: seq<Unit>): seq<Fragment> {
    if units == [] then [] else Flatten(units[..|units| - 1]) + units[|units| - 1].fragments
  }

  lemma {:induction false} MembersOfNewKey(fragments: seq<Fragment>, key: string)
    requires forall f | f in fragments :: UnitKey(f) != key
    ensures Members(fragments, key) == []
  {
    if fragments != [] {
      MembersOfNewKey(fragments[..|fragments| - 1], key);
    }
  }

  lemma {:induction false} FlattenReplace(units: seq<Unit>, k: nat, unit: Unit, extra: seq<Fragment>)
    requires k < |units|
    requires unit.fragments == units[k].fragments + extra
    ensures multiset(Flatten(units[k := unit])) == multiset(Flatten(units)) + multiset(extra)
  {
    var n := |units| - 1;
    var after := units[k := unit];
    FlattenLast(units);
    FlattenLast(after);
    if k == n {
      assert after[..n] == units[..n];
      AddLast(multiset(Flatten(units[..n])), units[n].fragments, extra);
    } else {
      FlattenReplace(units[..n], k, unit, extra);
      assert after[..n] == units[..n][k := unit] && after[n] == units[n];
    }
  }

  lemma AddLast(before: multiset<Fragment>, members: seq<Fragment>, extra: seq<Fragment>)
    ensures before + multiset(members + extra) == before + multiset(members) + multiset(extra)
  {
  }

  lemma FlattenLast(units: seq<Unit>)
    requires units != []
    ensures
      var n := |units| - 1;
      multiset(Flatten(units)) == multiset(Flatten(units[..n])) + multiset(units[n].fragments)
  {
  }

  lemma KeyOrderSnoc(fragments: seq<Fragment>, f: Fragment)
    ensures KeyOrder(fragments + [f]) ==
      if UnitKey(f) in KeyOrder(fragments) then KeyOrder(fragments) else KeyOrder(fragments) + [UnitKey(f)]
  {
    assert (fragments + [f])[..|fragments|] == fragments;
  }

  lemma MembersSnoc(fragments: seq<Fragment>, f: Fragment, key: string)
    ensures Members(fragments + [f], key) == Members(fragments, key) + (if UnitKey(f) == key then [f] else [])
  {
    assert (fragments + [f])[..|fragments|] == fragments;
  }

  /** A fragment leaves the units of other keys alone. */
  lemma OtherUnit(fragments: seq<Fragment>, f: Fragment, i: nat)
    requires i < |KeyOrder(fragments)| && KeyOrder(fragments)[i] != UnitKey(f)
    ensures i < |KeyOrder(fragments + [f])| && Units(fragments + [f])[i] == Units(fragments)[i]
  {
    var key := KeyOrder(fragments)[i];
    KeyOrderSnoc(fragments, f);
    assert KeyOrder(fragments + [f])[i] == key;
    MembersSnoc(fragments, f, key);
    assert Members(fragments + [f], key) == Members(fragments, key);
    UnitAt(fragments, i);
    UnitAt(fragments + [f], i);
  }

  /** One more fragment of a known key joins the unit of that key. */
  lemma UnitsJoin(fragments: seq<Fragment>, f: Fragment) returns (k: nat)
    requires UnitKey(f) in KeyOrder(fragments)
    ensures k < |Units(fragments)|
    ensures Units(fragments + [f]) == Units(fragments)[k := UnitOf(Units(fragments)[k].fragments + [f])]
  {
    var keys, units, after := KeyOrder(fragments), Units(fragments), Units(fragments + [f]);
    KeyOrderSnoc(fragments, f);
    KeyOrderDistinct(fragments);
    k :| 0 <= k < |keys| && keys[k] == UnitKey(f);
    forall i | 0 <= i < |keys| && i != k ensures after[i] == units[i] {
      OtherUnit(fragments, f, i);
    }
    MembersSnoc(fragments, f, keys[k]);
    UnitAt(fragments, k);
    UnitAt(fragments + [f], k);
    OneReplaced(units, after, k);
  }

  lemma OneReplaced<T>(before: seq<T>, after: seq<T>, k: nat)
    requires k < |before| == |after| && forall i | 0 <= i < |before| && i != k :: after[i] == before[i]
    ensures after == before[k := after[k]]
  {
  }

  /** A fragment of a new key opens a unit of its own. */
  lemma UnitsOpen(fragments: seq<Fragment>, f: Fragment)
    requires UnitKey(f) !in KeyOrder(fragments)
    ensures Units(fragments + [f]) == Units(fragments) + [UnitOf([f])]
  {
    var keys, units, after := KeyOrder(fragments), Units(fragments), Units(fragments + [f]);
    KeyOrderSnoc(fragments, f);
    NewMembers(fragments, f);
    UnitAt(fragments + [f], |keys|);
    forall i | 0 <= i < |keys| ensures after[i] == units[i] {
      OtherUnit(fragments, f, i);
    }
    OneMore(units, after);
  }

  lemma OneMore<T>(init: seq<T>, after: seq<T>)
    requires |after| == |init| + 1 && forall i | 0 <= i < |init| :: after[i] == init[i]
    ensures after == init + [after[|init|]]
  {
  }

  lemma NewMembers(fragments: seq<Fragment>, f: Fragment)
    requires UnitKey(f) !in KeyOrder(fragments)
    ensures Members(fragments + [f], UnitKey(f)) == [f]
  {
    forall g | g in fragments ensures UnitKey(g) != UnitKey(f) {
      KeyOrderComplete(fragments, g);
    }
    MembersOfNewKey(fragments, UnitKey(f));
    MembersSnoc(fragments, f, UnitKey(f));
  }

  /** Grouping loses nothing and repeats nothing. */
  lemma {:induction false} UnitsPartition(fragments: seq<Fragment>)
    ensures multiset(Flatten(Units(fragments))) == multiset(fragments)
  {
    if fragments != [] {
      var n := |fragments| - 1;
      var init, f := fragments[..n], fragments[n];
      var units := Units(init);
      assert fragments == init + [f];
      UnitsPartition(init);
      if UnitKey(f) in KeyOrder(init) {
        var k := UnitsJoin(init, f);
        FlattenReplace(units, k, UnitOf(units[k].fragments + [f]), [f]);
      } else {
        UnitsOpen(init, f);
        assert (units + [UnitOf([f])])[..|units|] == units;
      }
    }
  }

  /** The first loop of makeUnits: group by key, remembering first appearances. */
  /** The order lists the keys met so far; the map holds the members of each of them and no other key. */
  ghost predicate Grouped(byKey: map<string, seq<Fragment>>, order: seq<string>, fragments: seq<Fragment>) {
    && order == KeyOrder(fragments)
    && (forall key :: key in byKey <==> key in order)
    && (forall key | key in byKey :: byKey[key] == Members(fragments, key))
  }

  function WithMember(byKey: map<string, seq<Fragment>>, f: Fragment): map<string, seq<Fragment>> {
    byKey[UnitKey(f) := (if UnitKey(f) in byKey then byKey[UnitKey(f)] else []) + [f]]
  }

  lemma GroupNext(byKey: map<string, seq<Fragment>>, order: seq<string>, fragments: seq<Fragment>, i: nat)
    requires i < |fragments| && Grouped(byKey, order, fragments[..i])
    ensures
      var key := UnitKey(fragments[i]);
      Grouped(WithMember(byKey, fragments[i]), if key in byKey then order else order + [key], fragments[..i + 1])
  {
    assert fragments[..i + 1] == fragments[..i] + [fragments[i]];
    KeyOrderSnoc(fragments[..i], fragments[i]);
    GroupMore(byKey, fragments[..i], fragments[..i + 1], fragments[i]);
  }

  lemma GroupMore(byKey: map<string, seq<Fragment>>, before: seq<Fragment>, after: seq<Fragment>, f: Fragment)
    requires Grouped(byKey, KeyOrder(before), before) && after == before + [f]
    ensures forall key | key in WithMember(byKey, f) :: WithMember(byKey, f)[key] == Members(after, key)
  {
    forall key | key in WithMember(byKey, f) ensures WithMember(byKey, f)[key] == Members(after, key) {
      MembersSnoc(before, f, key);
      if key == UnitKey(f) && key !in byKey {
        NewMembers(before, f);
      }
    }
  }

  lemma WriteTwice(byKey: map<string, seq<Fragment>>, key: string, f: Fragment)
    ensures byKey[key := []][key := byKey[key := []][key] + [f]] == byKey[key := [] + [f]]
  {
  }

  method GroupByKey(fragments: seq<Fragment>) returns (byKey: map<string, seq<Fragment>>, order: seq<string>)
    ensures Grouped(byKey, order, fragments)
  {
    byKey, order := map[], [];
    for i := 0 to |fragments|
      invariant Grouped(byKey, order, fragments[..i])
    {
      GroupNext(byKey, order, fragments, i);
      var f, key := fragments[i], UnitKey(fragments[i]);
      WriteTwice(byKey, key, f);
      if key !in byKey {
        order := order + [key];
        byKey := byKey[key := []];
      }
      byKey := byKey[key := byKey[key] + [f]];
    }
    assert fragments[..|fragments|] == fragments;
  }

  /** The rank loop of makeUnits. */
  method RankUnit(group: seq<Fragment>) returns (unit: Unit)
    ensures unit == UnitOf(group)
  {
    unit := Unit(group, 0, 0);
    for j := 0 to |group|
      invariant unit == UnitOf(group[..j]).(fragments := group)
    {
      assert group[..j + 1][..j] == group[..j];
      if group[j].priority > unit.priority {
        unit := unit.(priority := group[j].priority);
      }
      if group[j].createdAt > unit.created {
        unit := unit.(created := group[j].createdAt);
      }
    }
    assert group[..|group|] == group;
  }

  lemma GroupAt(byKey: map<string, seq<Fragment>>, order: seq<string>, fragments: seq<Fragment>, k: nat)
    requires Grouped(byKey, order, fragments) && k < |order|
    ensures order[k] in byKey && k < |Units(fragments)| && Units(fragments)[k] == UnitOf(byKey[order[k]])
  {
    UnitAt(fragments, k);
  }

  method MakeUnits(fragments: seq<Fragment>) returns (units: seq<Unit>)
    ensures units == Units(fragments)
  {
    var byKey, order := GroupByKey(fragments);
    ghost var expected := Units(fragments);
    units := [];
    for k := 0 to |order|
      invariant |units| == k <= |expected| && forall j | 0 <= j < k :: units[j] == expected[j]
    {
      GroupAt(byKey, order, fragments, k);
      var unit := RankUnit(byKey[order[k]]);
      units := units + [unit];
    }
    SameAll(units, expected);
  }

  lemma SameAll<T>(a: seq<T>, b: seq<T>)
    requires |a| == |b| && forall j | 0 <= j < |a| :: a[j] == b[j]
    ensures a == b
  {
  }

  lemma UnitAt(fragments: seq<Fragment>, k: nat)
    requires k < |KeyOrder(fragments)|
    ensures Units(fragments)[k] == UnitOf(Members(fragments, KeyOrder(fragments)[k]))
  {
  }

  // ---- Greedy selection ----

  /** Higher priority first, then later units. */
  predicate UnitBefore(a: Unit, b: Unit) {
    if a.priority != b.priority then a.priority > b.priority else a.created > b.created
  }

  const UNIT_RANK: (Unit, Unit) -> bool := (a, b) => UnitBefore(a, b)

  /** The units in the order in which they are offered a place. */
  function RankOrder(fragments: seq<Fragment>): seq<Unit> {
    StableSort.Sort(Units(fragments), UNIT_RANK)
  }

  datatype Picked = Picked(selected: seq<Unit>, dropped: seq<Unit>, used: int)

  function Greedy(estimator: Estimator, units: seq<Unit>, budget: int): (picked: Picked)
    ensures 0 <= picked.used <= Max(budget, 0)
  {
    if units == [] then Picked([], [], 0)
    else
      var n := |units| - 1;
      var init := Greedy(estimator, units[..n], budget);
      var cost := Tokens(estimator, units[n].fragments);
      if init.used + cost <= budget then
        Picked(init.selected + [units[n]], init.dropped, init.used + cost)
      else
        Picked(init.selected, init.dropped + [units[n]], init.used)
  }

  lemma {:induction false} GreedyPartition(estimator: Estimator, units: seq<Unit>, budget: int)
    ensures
      var picked := Greedy(estimator, units, budget);
      multiset(picked.selected) + multiset(picked.dropped) == multiset(units)
  {
    if units != [] {
      var n := |units| - 1;
      assert units == units[..n] + [units[n]];
      GreedyPartition(estimator, units[..n], budget);
    }
  }

  lemma FlattenSnoc(units: seq<Unit>, unit: Unit)
    ensures Flatten(units + [unit]) == Flatten(units) + unit.fragments
  {
    assert (units + [unit])[..|units|] == units;
  }

  datatype Selected = Selected(selected: seq<Fragment>, dropped: seq<Fragment>, used: int)

  function SelectWithin(estimator: Estimator, fragments: seq<Fragment>, budget: int): Selected {
    var picked := Greedy(estimator, RankOrder(fragments), budget);
    Selected(CanonicalOrder(Flatten(picked.selected)), CanonicalOrder(Flatten(picked.dropped)), picked.used)
  }

  method RunSelectWithin(estimator: Estimator, fragments: seq<Fragment>, budget: int) returns (result: Selected)
    ensures result == SelectWithin(estimator, fragments, budget)
  {
    var units := MakeUnits(fragments);
    var selected, dropped, used := PickUnits(estimator, StableSort.Sort(units, UNIT_RANK), budget);
    result := Selected(CanonicalOrder(selected), CanonicalOrder(dropped), used);
  }

  predicate Picks(picked: Picked, selected: seq<Fragment>, dropped: seq<Fragment>, used: int) {
    selected == Flatten(picked.selected) && dropped == Flatten(picked.dropped) && used == picked.used
  }

  lemma PickNext(estimator: Estimator, units: seq<Unit>, budget: int, n: nat)
    requires n < |units|
    ensures
      var before, after := Greedy(estimator, units[..n], budget), Greedy(estimator, units[..n + 1], budget);
      var members, cost := units[n].fragments, Tokens(estimator, units[n].fragments);
      if before.used + cost <= budget then
        Picks(after, Flatten(before.selected) + members, Flatten(before.dropped), before.used + cost)
      else
        Picks(after, Flatten(before.selected), Flatten(before.dropped) + members, before.used)
  {
    var before := Greedy(estimator, units[..n], budget);
    assert units[..n + 1][..n] == units[..n];
    FlattenSnoc(before.selected, units[n]);
    FlattenSnoc(before.dropped, units[n]);
  }

  /** Whole units, in rank order, while they fit. */
  method PickUnits(estimator: Estimator, units: seq<Unit>, budget: int)
    returns (selected: seq<Fragment>, dropped: seq<Fragment>, used: int)
    ensures Picks(Greedy(estimator, units, budget), selected, dropped, used)
  {
    used := 0;
    selected, dropped := [], [];
    for i := 0 to |units|
      invariant Picks(Greedy(estimator, units[..i], budget), selected, dropped, used)
    {
      PickNext(estimator, units, budget, i);
      var cost := CountTokens(estimator, units[i].fragments);
      if used + cost <= budget {
        selected := selected + units[i].fragments;
        used := used + cost;
      } else {
        dropped := dropped + units[i].fragments;
      }
    }
    assert units[..|units|] == units;
  }

  /** selectActive: leave room for a checkpoint only when something must be dropped. */
  function ActiveSelectionBudget(total: int, budget: int, summaryTarget: int): int {
    if total > budget then Max(budget - summaryTarget, 0) else budget
  }

  // ---- What selection guarantees ----

  ghost function CountOf(f: Fragment): Unit -> int {
    (u: Unit) => multiset(u.fragments)[f]
  }

  lemma {:induction false} FlattenCount(units: seq<Unit>, f: Fragment)
    ensures multiset(Flatten(units))[f] == Sum(units, CountOf(f))
  {
    if units != [] {
      FlattenCount(units[..|units| - 1], f);
    }
  }

  lemma FlattenSplit(whole: seq<Unit>, left: seq<Unit>, right: seq<Unit>)
    requires multiset(whole) == multiset(left) + multiset(right)
    ensures multiset(Flatten(whole)) == multiset(Flatten(left)) + multiset(Flatten(right))
  {
    forall f: Fragment
      ensures multiset(Flatten(whole))[f] == multiset(Flatten(left))[f] + multiset(Flatten(right))[f]
    {
      FlattenSplitAt(whole, left, right, f);
    }
    CountsAdd(multiset(Flatten(whole)), multiset(Flatten(left)), multiset(Flatten(right)));
  }

  lemma CountsAdd<T>(whole: multiset<T>, left: multiset<T>, right: multiset<T>)
    requires forall x :: whole[x] == left[x] + right[x]
    ensures whole == left + right
  {
  }

  lemma FlattenSplitAt(whole: seq<Unit>, left: seq<Unit>, right: seq<Unit>, f: Fragment)
    requires multiset(whole) == multiset(left) + multiset(right)
    ensures multiset(Flatten(whole))[f] == multiset(Flatten(left))[f] + multiset(Flatten(right))[f]
  {
    FlattenCount(whole, f);
    FlattenCount(left, f);
    FlattenCount(right, f);
    SumSplit(whole, left, right, CountOf(f));
  }

  /** Every fragment handed to the selection is either selected or dropped, once. */
  lemma SelectPartition(estimator: Estimator, fragments: seq<Fragment>, budget: int)
    ensures
      var r := SelectWithin(estimator, fragments, budget);
      multiset(r.selected) + multiset(r.dropped) == multiset(fragments)
  {
    var units := RankOrder(fragments);
    var picked := Greedy(estimator, units, budget);
    GreedyPartition(estimator, units, budget);
    FlattenSplit(units, picked.selected, picked.dropped);
    FlattenSplit(Units(fragments), units, []);
    UnitsPartition(fragments);
  }

  lemma {:induction false} GreedyUsed(estimator: Estimator, units: seq<Unit>, budget: int)
    ensures
      var picked := Greedy(estimator, units, budget);
      picked.used == Tokens(estimator, Flatten(picked.selected))
  {
    if units != [] {
      var n := |units| - 1;
      var init := Greedy(estimator, units[..n], budget);
      GreedyUsed(estimator, units[..n], budget);
      var selected := init.selected + [units[n]];
      assert selected[..|selected| - 1] == init.selected;
      SumAppend(Flatten(init.selected), units[n].fragments, ContentCost(estimator));
    }
  }

  /** `used` is the cost of exactly what was selected, and never exceeds a non-negative budget. */
  lemma SelectUsed(estimator: Estimator, fragments: seq<Fragment>, budget: int)
    ensures
      var r := SelectWithin(estimator, fragments, budget);
      && r.used == Tokens(estimator, r.selected)
      && 0 <= r.used <= Max(budget, 0)
      && Tokens(estimator, fragments) == r.used + Tokens(estimator, r.dropped)
  {
    var r := SelectWithin(estimator, fragments, budget);
    var picked := Greedy(estimator, RankOrder(fragments), budget);
    GreedyUsed(estimator, RankOrder(fragments), budget);
    SumPermutation(Flatten(picked.selected), r.selected, ContentCost(estimator));
    SelectPartition(estimator, fragments, budget);
    SumSplit(fragments, r.selected, r.dropped, ContentCost(estimator));
  }

  predicate KeysDisjoint(a: seq<Fragment>, b: seq<Fragment>) {
    forall f, g | f in a && g in b :: UnitKey(f) != UnitKey(g)
  }

  lemma {:induction false} FlattenMember(units: seq<Unit>, f: Fragment)
    requires f in Flatten(units)
    ensures exists u | u in units :: f in u.fragments
  {
    var n := |units| - 1;
    if f in units[n].fragments {
      assert units[n] in units;
    } else {
      FlattenMember(units[..n], f);
    }
  }

  lemma {:induction false} MembersExist(fragments: seq<Fragment>, key: string)
    requires key in KeyOrder(fragments)
    ensures Members(fragments, key) != []
  {
    var n := |fragments| - 1;
    if key in KeyOrder(fragments[..n]) {
      MembersExist(fragments[..n], key);
    }
  }

  lemma UnitsDistinct(fragments: seq<Fragment>)
    ensures Distinct(Units(fragments))
  {
    var keys, units := KeyOrder(fragments), Units(fragments);
    KeyOrderDistinct(fragments);
    forall i, j | 0 <= i < j < |units| ensures units[i] != units[j] {
      MembersExist(fragments, keys[i]);
      MembersExist(fragments, keys[j]);
      assert units[i].fragments[0] in Members(fragments, keys[i]);
      assert units[j].fragments[0] in Members(fragments, keys[j]);
    }
  }

  lemma UnitOfMember(fragments: seq<Fragment>, u: Unit, f: Fragment)
    requires u in Units(fragments) && f in u.fragments
    ensures u == UnitOf(Members(fragments, UnitKey(f)))
  {
    var i :| 0 <= i < |Units(fragments)| && Units(fragments)[i] == u;
    assert f in Members(fragments, KeyOrder(fragments)[i]);
  }

  /** A unit occurs once, so it cannot be picked and dropped. */
  lemma UnitOnce(fragments: seq<Fragment>, selected: seq<Unit>, dropped: seq<Unit>, u: Unit)
    requires multiset(selected) + multiset(dropped) == multiset(Units(fragments))
    requires u in selected
    ensures u !in dropped && u in Units(fragments)
  {
    assert u in multiset(selected) && u in multiset(Units(fragments));
    UnitsDistinct(fragments);
    DistinctOnce(Units(fragments), u);
    assert u in dropped ==> u in multiset(dropped);
  }

  /** Units are never split: no selected fragment shares a unit with a dropped one. */
  lemma SelectWhole(estimator: Estimator, fragments: seq<Fragment>, budget: int)
    ensures
      var r := SelectWithin(estimator, fragments, budget);
      KeysDisjoint(r.selected, r.dropped)
  {
    var units := RankOrder(fragments);
    var picked := Greedy(estimator, units, budget);
    var r := SelectWithin(estimator, fragments, budget);
    GreedyPartition(estimator, units, budget);
    forall f, g | f in r.selected && g in r.dropped ensures UnitKey(f) != UnitKey(g) {
      assert f in multiset(r.selected) && g in multiset(r.dropped);
      UnitsKeepApart(fragments, picked.selected, picked.dropped, f, g);
    }
  }

  lemma UnitsKeepApart(fragments: seq<Fragment>, selected: seq<Unit>, dropped: seq<Unit>, f: Fragment, g: Fragment)
    requires multiset(selected) + multiset(dropped) == multiset(Units(fragments))
    requires f in Flatten(selected) && g in Flatten(dropped)
    ensures UnitKey(f) != UnitKey(g)
  {
    FlattenMember(selected, f);
    FlattenMember(dropped, g);
    var u :| u in selected && f in u.fragments;
    var v :| v in dropped && g in v.fragments;
    UnitOnce(fragments, selected, dropped, u);
    UnitOnce(fragments, dropped, selected, v);
    UnitOfMember(fragments, u, f);
    UnitOfMember(fragments, v, g);
  }

  /** A budget that covers everything drops nothing. */
  lemma TokensOfLast(estimator: Estimator, units: seq<Unit>)
    requires units != []
    ensures
      var n := |units| - 1;
      Tokens(estimator, Flatten(units))
        == Tokens(estimator, Flatten(units[..n])) + Tokens(estimator, units[n].fragments)
  {
    SumAppend(Flatten(units[..|units| - 1]), units[|units| - 1].fragments, ContentCost(estimator));
  }

  lemma {:induction false} GreedyAll(estimator: Estimator, units: seq<Unit>, budget: int)
    requires Tokens(estimator, Flatten(units)) <= budget
    ensures Greedy(estimator, units, budget) == Picked(units, [], Tokens(estimator, Flatten(units)))
  {
    if units != [] {
      var n := |units| - 1;
      var init := units[..n];
      TokensOfLast(estimator, units);
      GreedyAll(estimator, init, budget);
      AllTaken(estimator, units, budget, Tokens(estimator, Flatten(init)));
    }
  }

  lemma AllTaken(estimator: Estimator, units: seq<Unit>, budget: int, used: int)
    requires units != [] && Greedy(estimator, units[..|units| - 1], budget) == Picked(units[..|units| - 1], [], used)
    requires used + Tokens(estimator, units[|units| - 1].fragments) <= budget
    ensures Greedy(estimator, units, budget)
         == Picked(units, [], used + Tokens(estimator, units[|units| - 1].fragments))
  {
    var n := |units| - 1;
    assert Greedy(estimator, units, budget)
        == Picked(units[..n] + [units[n]], [], used + Tokens(estimator, units[n].fragments));
    Rejoin(units);
  }

  lemma Rejoin<T>(s: seq<T>)
    requires s != []
    ensures s[..|s| - 1] + [s[|s| - 1]] == s
  {
  }

  lemma SelectAll(estimator: Estimator, fragments: seq<Fragment>, budget: int)
    requires Tokens(estimator, fragments) <= budget
    ensures
      var r := SelectWithin(estimator, fragments, budget);
      r.dropped == [] && multiset(r.selected) == multiset(fragments) && r.used == Tokens(estimator, fragments)
  {
    var units := RankOrder(fragments);
    UnitsPartition(fragments);
    FlattenSplit(Units(fragments), units, []);
    SumPermutation(fragments, Flatten(units), ContentCost(estimator));
    GreedyAll(estimator, units, budget);
    SelectPartition(estimator, fragments, budget);
    SelectUsed(estimator, fragments, budget);
  }

  lemma UnitRankIsWeakOrder()
    ensures StableSort.StrictWeakOrder(UNIT_RANK)
  {
  }

  lemma PickedNotBehind(estimator: Estimator, units: seq<Unit>, budget: int, u: Unit, last: Unit)
    requires StableSort.Sorted(units + [last], UNIT_RANK) && u in Greedy(estimator, units, budget).selected
    ensures !UnitBefore(last, u)
  {
    GreedyFrom(estimator, units, budget);
    var i :| 0 <= i < |units| && units[i] == u;
    var all := units + [last];
    assert all[i] == u && all[|units|] == last;
    assert !UNIT_RANK(all[|units|], all[i]);
  }

  /**
   * Selection is maximal and respects rank: no dropped unit would still fit, and a unit kept
   * although it costs at least as much as a dropped one is not ranked behind it.
   */
  lemma {:induction false} GreedyRespectsRank(estimator: Estimator, units: seq<Unit>, budget: int)
    requires StableSort.Sorted(units, UNIT_RANK)
    ensures
      var picked := Greedy(estimator, units, budget);
      && (forall v | v in picked.dropped :: picked.used + Tokens(estimator, v.fragments) > budget)
      && (forall u, v | u in picked.selected && v in picked.dropped ::
            Tokens(estimator, u.fragments) >= Tokens(estimator, v.fragments) ==> !UnitBefore(v, u))
  {
    if units != [] {
      var n := |units| - 1;
      var init := Greedy(estimator, units[..n], budget);
      GreedyRespectsRank(estimator, units[..n], budget);
      CostNonNegative(estimator, units[n].fragments);
      assert units[..n] + [units[n]] == units;
      forall u | u in init.selected ensures !UnitBefore(units[n], u) {
        PickedNotBehind(estimator, units[..n], budget, u, units[n]);
      }
    }
  }

  function SameRank(u: Unit): Unit -> bool {
    (v: Unit) => v.priority == u.priority && v.created == u.created
  }

  /** By priority, then by time, and units of equal rank in the order in which the input first names them. */
  lemma RankOrderSorted(fragments: seq<Fragment>)
    ensures StableSort.Sorted(RankOrder(fragments), UNIT_RANK)
    ensures forall u ::
      StableSort.Filter(RankOrder(fragments), SameRank(u)) == StableSort.Filter(Units(fragments), SameRank(u))
  {
    UnitRankIsWeakOrder();
    StableSort.SortSorted(Units(fragments), UNIT_RANK);
    forall u ensures
      StableSort.Filter(RankOrder(fragments), SameRank(u)) == StableSort.Filter(Units(fragments), SameRank(u))
    {
      StableSort.SortStable(Units(fragments), UNIT_RANK, SameRank(u));
    }
  }

  predicate Within(u: Unit, fragments: seq<Fragment>) {
    forall f | f in u.fragments :: f in fragments
  }

  /** What the selected units among the first n cost. */
  function Spent(estimator: Estimator, units: seq<Unit>, selected: seq<Fragment>, n: nat): int
    requires n <= |units|
  {
    if n == 0 then 0
    else
      Spent(estimator, units, selected, n - 1) +
      (if Within(units[n - 1], selected) then Tokens(estimator, units[n - 1].fragments) else 0)
  }

  lemma {:induction false} GreedyDecides(estimator: Estimator, units: seq<Unit>, budget: int, n: nat)
    requires n < |units| && Distinct(units)
    ensures units[n] in Greedy(estimator, units, budget).selected <==>
      Greedy(estimator, units[..n], budget).used + Tokens(estimator, units[n].fragments) <= budget
  {
    var m := |units| - 1;
    var init := Greedy(estimator, units[..m], budget);
    if n < m {
      assert units[..m][..n] == units[..n];
      GreedyDecides(estimator, units[..m], budget, n);
    } else {
      GreedyFrom(estimator, units[..m], budget);
      assert units[m] !in units[..m];
    }
  }

  lemma GreedyFrom(estimator: Estimator, units: seq<Unit>, budget: int)
    ensures forall u | u in Greedy(estimator, units, budget).selected :: u in units
  {
    var picked := Greedy(estimator, units, budget);
    GreedyPartition(estimator, units, budget);
    forall u | u in picked.selected ensures u in units {
      assert u in multiset(picked.selected);
      assert u in multiset(units);
    }
  }

  /** A unit is inside the selection exactly if it was picked: units are not empty and share no fragment. */
  lemma PickedWithin(fragments: seq<Fragment>, picked: seq<Unit>, other: seq<Unit>, selected: seq<Fragment>, u: Unit)
    requires multiset(picked) + multiset(other) == multiset(Units(fragments)) && u in Units(fragments)
    requires multiset(selected) == multiset(Flatten(picked))
    ensures Within(u, selected) <==> u in picked
  {
    SameMembers(selected, Flatten(picked));
    if u in picked {
      forall f | f in u.fragments ensures f in selected {
        FlattenHas(picked, u, f);
      }
    }
    if Within(u, selected) {
      UnitNotEmpty(fragments, u);
      var f := u.fragments[0];
      FlattenMember(picked, f);
      var v :| v in picked && f in v.fragments;
      assert v in multiset(picked) && v in multiset(Units(fragments));
      UnitOfMember(fragments, u, f);
      UnitOfMember(fragments, v, f);
    }
  }

  lemma {:induction false} FlattenHas(units: seq<Unit>, u: Unit, f: Fragment)
    requires u in units && f in u.fragments
    ensures f in Flatten(units)
  {
    var n := |units| - 1;
    if u != units[n] {
      FlattenHas(units[..n], u, f);
    }
  }

  lemma UnitNotEmpty(fragments: seq<Fragment>, u: Unit)
    requires u in Units(fragments)
    ensures u.fragments != []
  {
    var i :| 0 <= i < |Units(fragments)| && Units(fragments)[i] == u;
    MembersExist(fragments, KeyOrder(fragments)[i]);
  }

  /** A unit is inside the selection or inside what was dropped, as it was picked or not. */
  lemma PickedOrNot(
      fragments: seq<Fragment>, picked: seq<Unit>, other: seq<Unit>, selected: seq<Fragment>, dropped: seq<Fragment>, u: Unit)
    requires multiset(picked) + multiset(other) == multiset(Units(fragments)) && u in Units(fragments)
    requires multiset(selected) == multiset(Flatten(picked)) && multiset(dropped) == multiset(Flatten(other))
    ensures Within(u, selected) <==> u in picked
    ensures Within(u, dropped) <==> u !in picked
  {
    PickedWithin(fragments, picked, other, selected, u);
    PickedWithin(fragments, other, picked, dropped, u);
    assert u in multiset(Units(fragments));
    assert u in multiset(picked) || u in multiset(other);
    if u in picked {
      UnitOnce(fragments, picked, other, u);
    }
  }

  /** A selection is the greedy pass over the rank order, flattened and put in canonical order. */
  lemma SelectionPass(estimator: Estimator, fragments: seq<Fragment>, budget: int)
    ensures
      var picked, r := Greedy(estimator, RankOrder(fragments), budget), SelectWithin(estimator, fragments, budget);
      && multiset(picked.selected) + multiset(picked.dropped) == multiset(Units(fragments))
      && multiset(r.selected) == multiset(Flatten(picked.selected))
      && multiset(r.dropped) == multiset(Flatten(picked.dropped))
      && r.used == picked.used
  {
    GreedyPartition(estimator, RankOrder(fragments), budget);
  }

  lemma RankOrderUnits(fragments: seq<Fragment>)
    ensures Distinct(RankOrder(fragments)) && forall u :: u in RankOrder(fragments) <==> u in Units(fragments)
  {
    UnitsDistinct(fragments);
    DistinctPermutation(Units(fragments), RankOrder(fragments));
    SameMembers(RankOrder(fragments), Units(fragments));
  }

  /** What a selection did with one unit, as the greedy pass over the rank order decided it. */
  lemma UnitDecided(estimator: Estimator, fragments: seq<Fragment>, budget: int, n: nat)
    requires n < |RankOrder(fragments)|
    ensures
      var units, r := RankOrder(fragments), SelectWithin(estimator, fragments, budget);
      var fits := Greedy(estimator, units[..n], budget).used + Tokens(estimator, units[n].fragments) <= budget;
      (Within(units[n], r.selected) <==> fits) && (Within(units[n], r.dropped) <==> !fits)
  {
    var units := RankOrder(fragments);
    RankOrderUnits(fragments);
    assert units[n] in units;
    SelectionPass(estimator, fragments, budget);
    var picked, r := Greedy(estimator, units, budget), SelectWithin(estimator, fragments, budget);
    PickedOrNot(fragments, picked.selected, picked.dropped, r.selected, r.dropped, units[n]);
    GreedyDecides(estimator, units, budget, n);
  }

  lemma GreedyMore(estimator: Estimator, units: seq<Unit>, budget: int, n: nat)
    requires n < |units|
    ensures
      var before, cost := Greedy(estimator, units[..n], budget).used, Tokens(estimator, units[n].fragments);
      Greedy(estimator, units[..n + 1], budget).used == before + (if before + cost <= budget then cost else 0)
  {
    assert units[..n + 1][..n] == units[..n];
  }

  predicate FitsNext(estimator: Estimator, units: seq<Unit>, budget: int, n: nat)
    requires n < |units|
  {
    Greedy(estimator, units[..n], budget).used + Tokens(estimator, units[n].fragments) <= budget
  }

  lemma SpentMore(estimator: Estimator, units: seq<Unit>, selected: seq<Fragment>, n: nat, taken: bool)
    requires n < |units| && (Within(units[n], selected) <==> taken)
    ensures Spent(estimator, units, selected, n + 1)
         == Spent(estimator, units, selected, n) + (if taken then Tokens(estimator, units[n].fragments) else 0)
  {
  }

  /** If a selection holds exactly the units that fit in turn, what it spends is what the greedy pass uses. */
  lemma {:induction false} SpentIsGreedy(
      estimator: Estimator, units: seq<Unit>, selected: seq<Fragment>, budget: int, n: nat)
    requires n <= |units| && forall i | 0 <= i < n :: Within(units[i], selected) <==> FitsNext(estimator, units, budget, i)
    ensures Spent(estimator, units, selected, n) == Greedy(estimator, units[..n], budget).used
  {
    if n > 0 {
      SpentIsGreedy(estimator, units, selected, budget, n - 1);
      SpentMore(estimator, units, selected, n - 1, FitsNext(estimator, units, budget, n - 1));
      GreedyMore(estimator, units, budget, n - 1);
    }
  }

  lemma SpentIsUsed(estimator: Estimator, fragments: seq<Fragment>, budget: int, n: nat)
    requires n <= |RankOrder(fragments)|
    ensures
      var units, r := RankOrder(fragments), SelectWithin(estimator, fragments, budget);
      Spent(estimator, units, r.selected, n) == Greedy(estimator, units[..n], budget).used
  {
    var units, selected := RankOrder(fragments), SelectWithin(estimator, fragments, budget).selected;
    forall i | 0 <= i < n ensures Within(units[i], selected) <==> FitsNext(estimator, units, budget, i) {
      UnitDecided(estimator, fragments, budget, i);
    }
    SpentIsGreedy(estimator, units, selected, budget, n);
  }

  /**
   * For any fragments: a unit is selected whole exactly if it fits beside the selected units that come before it in rank
   * order, and dropped whole otherwise; nothing dropped would still fit at the end.
   */
  lemma SelectRespectsRank(estimator: Estimator, fragments: seq<Fragment>, budget: int, n: nat)
    requires n < |RankOrder(fragments)|
    ensures
      var units, r := RankOrder(fragments), SelectWithin(estimator, fragments, budget);
      var fits := Spent(estimator, units, r.selected, n) + Tokens(estimator, units[n].fragments) <= budget;
      && (Within(units[n], r.selected) <==> fits)
      && (Within(units[n], r.dropped) <==> !fits)
      && (!fits ==> r.used + Tokens(estimator, units[n].fragments) > budget)
  {
    var units, r := RankOrder(fragments), SelectWithin(estimator, fragments, budget);
    SpentIsUsed(estimator, fragments, budget, n);
    UnitDecided(estimator, fragments, budget, n);
    UsedGrows(estimator, units, budget, n);
  }

  lemma {:induction false} UsedGrows(estimator: Estimator, units: seq<Unit>, budget: int, n: nat)
    requires n <= |units|
    ensures Greedy(estimator, units[..n], budget).used <= Greedy(estimator, units, budget).used
  {
    if n == |units| {
      assert units[..n] == units;
    } else {
      var m := |units| - 1;
      assert units[..m][..n] == units[..n];
      UsedGrows(estimator, units[..m], budget, n);
      CostNonNegative(estimator, units[m].fragments);
    }
  }

  /** So a unit kept although it costs at least as much as a dropped one is not ranked behind it. */
  lemma KeptOutranksDropped(estimator: Estimator, fragments: seq<Fragment>, budget: int, u: Unit, v: Unit)
    requires u in Units(fragments) && v in Units(fragments)
    requires Within(u, SelectWithin(estimator, fragments, budget).selected)
    requires Within(v, SelectWithin(estimator, fragments, budget).dropped)
    requires Tokens(estimator, u.fragments) >= Tokens(estimator, v.fragments)
    ensures !UnitBefore(v, u)
  {
    var units := RankOrder(fragments);
    SelectionPass(estimator, fragments, budget);
    var picked, r := Greedy(estimator, units, budget), SelectWithin(estimator, fragments, budget);
    PickedOrNot(fragments, picked.selected, picked.dropped, r.selected, r.dropped, u);
    PickedOrNot(fragments, picked.selected, picked.dropped, r.selected, r.dropped, v);
    DroppedOrPicked(fragments, picked.selected, picked.dropped, v);
    RankOrderSorted(fragments);
    GreedyRespectsRank(estimator, units, budget);
  }

  lemma DroppedOrPicked(fragments: seq<Fragment>, picked: seq<Unit>, other: seq<Unit>, u: Unit)
    requires multiset(picked) + multiset(other) == multiset(Units(fragments)) && u in Units(fragments) && u !in picked
    ensures u in other
  {
    assert u in multiset(Units(fragments));
    assert u in multiset(picked) || u in multiset(other);
  }
}
