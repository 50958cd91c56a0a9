/**
 * What the planner achieves: the fewest warehouses and, among equally few, the smallest total distance, over
 * every stock-respecting allocation that meets the demand.
 */
module Optimality {
  import opened Sequences
  import opened Combinations
  import opened Planner
  import opened PlanSearch

  // ---------------------------------------------------------------- cover and shortfall

  lemma {:induction false} ShortfallsEmpty(required: seq<Line>, supplies: seq<Supply>)
    ensures Shortfalls(required, supplies) == [] <==> Covers(required, supplies)
  {
    if required != [] {
      ShortfallsEmpty(required[..|required|-1], supplies);
      assert required == required[..|required|-1] + [required[|required|-1]];
    }
  }

  lemma CoversPermuted(required: seq<Line>, a: seq<Supply>, b: seq<Supply>)
    requires multiset(a) == multiset(b)
    ensures Covers(required, a) <==> Covers(required, b)
    ensures Distance(a) == Distance(b) && |a| == |b|
  {
    forall i | 0 <= i < |required| ensures Total(a, required[i].key) == Total(b, required[i].key) {
      SumPermuted(StockOf(required[i].key), a, b);
    }
    SumPermuted(Kilometres(), a, b);
    PermutedLength(a, b);
  }

  lemma StockedPermuted(a: seq<Supply>, b: seq<Supply>)
    requires multiset(a) == multiset(b) && Stocked(a)
    ensures Stocked(b)
  {
    forall s | s in b ensures forall k :: k in s.available ==> s.available[k] >= 0 {
      assert s in multiset(b);
    }
  }

  // ---------------------------------------------------------------- what each search finds

  ghost predicate NoneCovers(required: seq<Line>, combos: seq<seq<Supply>>) {
    forall c :: c in combos ==> !Covers(required, c)
  }

  /** No combination of a size from lo to hi - 1 covers. */
  ghost predicate NoneOfSizes(required: seq<Line>, sup: seq<Supply>, lo: int, hi: int) {
    forall k :: lo <= k < hi ==> NoneCovers(required, Combos(sup, k))
  }

  lemma NoneOfOneMore(required: seq<Line>, sup: seq<Supply>, lo: int, hi: int)
    requires NoneCovers(required, Combos(sup, lo)) && NoneOfSizes(required, sup, lo + 1, hi)
    ensures NoneOfSizes(required, sup, lo, hi)
  {}

  ghost predicate NearestCover(required: seq<Line>, combos: seq<seq<Supply>>, c: seq<Supply>) {
    && c in combos && Covers(required, c)
    && forall d :: d in combos && Covers(required, d) ==> Distance(c) <= Distance(d)
  }

  lemma {:induction false} SingleCandidateIsNearest(required: seq<Line>, sup: seq<Supply>)
    requires Ascending(Kilometres(), sup)
    ensures match SingleCandidate(required, sup)
      case None => forall s :: s in sup ==> !Covers(required, [s])
      case Some(c) => (
        && c in sup && Covers(required, [c])
        && forall s :: s in sup && Covers(required, [s]) ==> c.distance <= s.distance)
  {
    if sup != [] {
      AscendingTail(Kilometres(), sup);
      SingleCandidateIsNearest(required, sup[1..]);
      FirstIsNearest(sup);
      assert forall s :: s in sup ==> s == sup[0] || s in sup[1..];
    }
  }

  lemma FirstIsNearest(sup: seq<Supply>)
    requires Ascending(Kilometres(), sup) && sup != []
    ensures forall s :: s in sup ==> sup[0].distance <= s.distance
  {
    forall s | s in sup ensures sup[0].distance <= s.distance {
      var j :| 0 <= j < |sup| && sup[j] == s;
      assert j > 0 ==> Kilometres()(sup[0]) <= Kilometres()(sup[j]);
    }
  }

  lemma {:induction false} BestCoverIsNearest(required: seq<Line>, combos: seq<seq<Supply>>)
    ensures match BestCover(required, combos)
      case None => NoneCovers(required, combos)
      case Some(c) => NearestCover(required, combos, c)
  {
    if combos != [] {
      BestCoverIsNearest(required, combos[..|combos|-1]);
      assert combos == combos[..|combos|-1] + [combos[|combos|-1]];
    }
  }

  /** `few` is a nearest cover of the smallest size from sz to max that has one, or there is none. */
  ghost predicate SmallestFrom(required: seq<Line>, sup: seq<Supply>, sz: int, max: int, few: Option<seq<Supply>>) {
    match few
    case None => NoneOfSizes(required, sup, sz, max + 1)
    case Some(c) => (
      && sz <= |c| <= max && NearestCover(required, Combos(sup, |c|), c)
      && NoneOfSizes(required, sup, sz, |c|))
  }

  lemma SmallestFromHere(required: seq<Line>, sup: seq<Supply>, sz: int, max: int, c: seq<Supply>)
    requires sz <= max && NearestCover(required, Combos(sup, sz), c)
    ensures SmallestFrom(required, sup, sz, max, Some(c))
  {
    ComboMembers(sup, sz, c);
  }

  lemma SmallestFromLater(required: seq<Line>, sup: seq<Supply>, sz: int, max: int, few: Option<seq<Supply>>)
    requires NoneCovers(required, Combos(sup, sz)) && SmallestFrom(required, sup, sz + 1, max, few)
    ensures SmallestFrom(required, sup, sz, max, few)
  {
    NoneOfOneMore(required, sup, sz, if few.Some? then |few.value| else max + 1);
  }

  lemma {:induction false} FewestCoverIsSmallest(required: seq<Line>, sup: seq<Supply>, sz: int, max: int)
    ensures SmallestFrom(required, sup, sz, max, FewestCover(required, sup, sz, max))
    decreases max - sz
  {
    if sz <= max {
      var best := BestCover(required, Combos(sup, sz));
      BestCoverIsNearest(required, Combos(sup, sz));
      if best.Some? {
        SmallestFromHere(required, sup, sz, max, best.value);
      } else {
        FewestCoverIsSmallest(required, sup, sz + 1, max);
        SmallestFromLater(required, sup, sz, max, FewestCover(required, sup, sz + 1, max));
      }
    }
  }

  // ---------------------------------------------------------------- the chosen combination

  /** The warehouses a plan is filled from, nearest first. */
  function Chosen(required: seq<Line>, supplies: seq<Supply>): seq<Supply> {
    var sup := SortBy(Kilometres(), supplies);
    match SingleCandidate(required, sup)
    case Some(c) => [c]
    case None =>
      match FewestCover(required, sup, 2, |sup|)
      case Some(c) => c
      case None => sup
  }

  /** `c` covers with the fewest of `sup`, and is nearest among the covers of its size. */
  ghost predicate MinimalCover(required: seq<Line>, sup: seq<Supply>, c: seq<Supply>) {
    && 1 <= |c| <= |sup|
    && NearestCover(required, Combos(sup, |c|), c)
    && NoneOfSizes(required, sup, 1, |c|)
  }

  /** An order that can be covered is covered by a minimal combination. */
  lemma ChosenIsMinimal(required: seq<Line>, supplies: seq<Supply>)
    requires PositiveDemand(required) && Covers(required, supplies)
    ensures MinimalCover(required, SortBy(Kilometres(), supplies), Chosen(required, supplies))
  {
    var sup := SortBy(Kilometres(), supplies);
    SortBySorts(Kilometres(), supplies);
    CoversPermuted(required, supplies, sup);
    NothingCoversNothing(required);
    SingleCandidateIsNearest(required, sup);
    var single := SingleCandidate(required, sup);
    if single.Some? {
      SingleIsNearestCover(required, sup, single.value);
    } else {
      NoSingleCovers(required, sup);
      FewestCoverIsMinimal(required, sup);
    }
  }

  lemma NoSingleCovers(required: seq<Line>, sup: seq<Supply>)
    requires forall s :: s in sup ==> !Covers(required, [s])
    ensures NoneCovers(required, Combos(sup, 1))
  {
    SinglesAreCombos(sup);
  }

  lemma FewestCoverIsMinimal(required: seq<Line>, sup: seq<Supply>)
    requires sup != [] && Covers(required, sup) && NoneCovers(required, Combos(sup, 1))
    ensures var few := FewestCover(required, sup, 2, |sup|); few.Some? && MinimalCover(required, sup, few.value)
  {
    WholeIsGenerated(sup);
    FewestCoverIsSmallest(required, sup, 2, |sup|);
    var few := FewestCover(required, sup, 2, |sup|);
    NoneOfOneMore(required, sup, 1, if few.Some? then |few.value| else |sup| + 1);
  }

  lemma SingleIsNearestCover(required: seq<Line>, sup: seq<Supply>, c: Supply)
    requires c in sup && Covers(required, [c])
    requires forall s :: s in sup && Covers(required, [s]) ==> c.distance <= s.distance
    ensures NearestCover(required, Combos(sup, 1), [c])
  {
    SinglesAreCombos(sup);
    forall d | d in Combos(sup, 1) && Covers(required, d) ensures Distance([c]) <= Distance(d) {
      SumSnoc(Kilometres(), [], c);
      SumSnoc(Kilometres(), [], d[0]);
      assert [] + [c] == [c] && [] + [d[0]] == d;
    }
  }

  lemma NothingCoversNothing(required: seq<Line>)
    requires PositiveDemand(required)
    ensures !Covers(required, [])
  {
    var i :| 0 <= i < |required| && required[i].quantity > 0;
    assert Total([], required[i].key) == 0;
  }

  lemma SinglesAreCombos<T>(s: seq<T>)
    ensures forall c :: c in Combos(s, 1) ==> |c| == 1 && c[0] in s && c == [c[0]]
    ensures forall x :: x in s ==> [x] in Combos(s, 1)
  {
    forall c | c in Combos(s, 1) ensures |c| == 1 && c[0] in s && c == [c[0]] { ComboMembers(s, 1, c); }
    forall x | x in s ensures [x] in Combos(s, 1) {
      var i :| 0 <= i < |s| && s[i] == x;
      PickIsGenerated(s, [i], 1);
      assert Pick(s, [i]) == [x];
    }
  }

  lemma PickIsGenerated<T>(s: seq<T>, t: seq<int>, k: nat)
    requires k > 0 && IsCombination(t, 0, |s|, k)
    ensures k <= |s| && Pick(s, t) in Combos(s, k)
  {
    CombinationSpread(t, 0, |s|, k, 0, k - 1);
    EveryCombinationListed(t, 0, |s|, k);
    TuplesAreCombinations(0, |s|, k);
    var j :| 0 <= j < |Tuples(0, |s|, k)| && Tuples(0, |s|, k)[j] == t;
    assert Combos(s, k)[j] == Pick(s, t);
  }

  lemma WholeIsGenerated<T>(s: seq<T>)
    ensures s != [] ==> s in Combos(s, |s|)
  {
    if s != [] {
      var t := seq(|s|, i => i);
      PickIsGenerated(s, t, |s|);
      assert Pick(s, t) == s;
    }
  }

  // ---------------------------------------------------------------- every chosen warehouse ships

  /** A warehouse that ships nothing can be left out without losing the cover. */
  lemma IdleCanBeDropped(required: seq<Line>, c: seq<Supply>, i: nat)
    requires i < |c| && Stocked(c) && Covers(required, c)
    requires PartLines(required, c[..i], c[i]) == []
    ensures Covers(required, c[..i] + c[i+1..])
  {
    forall n | 0 <= n < |required| && required[n].quantity > 0
      ensures Total(c[..i] + c[i+1..], required[n].key) >= required[n].quantity
    {
      var key := required[n].key;
      NothingShipped(required, c[..i], c[i], n);
      SumWithout(StockOf(key), c, i);
      SumConcat(StockOf(key), c[..i], c[i+1..]);
      TotalNonNegative(c[i+1..], key);
      TotalNonNegative(c[..i], key);
    }
  }

  lemma {:induction false} NothingShipped(required: seq<Line>, before: seq<Supply>, s: Supply, n: nat)
    requires n < |required| && PartLines(required, before, s) == []
    ensures Shipped(required[n].quantity, Total(before, required[n].key), Stock(s, required[n].key)) <= 0
  {
    if n < |required| - 1 { NothingShipped(required[..|required|-1], before, s, n); }
  }

  lemma DroppedIsCombination(t: seq<int>, n: int, k: nat, i: nat)
    requires IsCombination(t, 0, n, k) && i < k
    ensures IsCombination(t[..i] + t[i+1..], 0, n, k - 1)
  {}

  lemma DroppedIsGenerated<T>(s: seq<T>, k: int, c: seq<T>, i: nat)
    requires c in Combos(s, k) && i < k && k >= 2
    ensures |c| == k && c[..i] + c[i+1..] in Combos(s, k - 1)
  {
    TuplesAreCombinations(0, |s|, k);
    var j :| 0 <= j < |Combos(s, k)| && Combos(s, k)[j] == c;
    var t := Tuples(0, |s|, k)[j];
    assert IsCombination(t, 0, |s|, k) && c == Pick(s, t);
    var u := t[..i] + t[i+1..];
    DroppedIsCombination(t, |s|, k, i);
    PickIsGenerated(s, u, k - 1);
    PickDropped(s, t, k, i);
  }

  lemma PickDropped<T>(s: seq<T>, t: seq<int>, k: nat, i: nat)
    requires IsCombination(t, 0, |s|, k) && i < k && IsCombination(t[..i] + t[i+1..], 0, |s|, k - 1)
    ensures Pick(s, t[..i] + t[i+1..]) == Pick(s, t)[..i] + Pick(s, t)[i+1..]
  {}

  /** Every warehouse of `c`, visited in order, ships something. */
  ghost predicate AllShip(required: seq<Line>, c: seq<Supply>) {
    c == [] || (AllShip(required, c[..|c|-1]) && PartLines(required, c[..|c|-1], c[|c|-1]) != [])
  }

  lemma {:induction false} FindIdle(required: seq<Line>, c: seq<Supply>) returns (i: nat)
    requires !AllShip(required, c)
    ensures i < |c| && PartLines(required, c[..i], c[i]) == []
  {
    i := |c| - 1;
    if PartLines(required, c[..i], c[i]) != [] {
      i := FindIdle(required, c[..|c|-1]);
      assert c[..|c|-1][..i] == c[..i];
    }
  }

  /** Each warehouse of the chosen combination ships: an idle one would leave a smaller cover, already ruled out. */
  lemma EveryChosenShips(required: seq<Line>, supplies: seq<Supply>)
    requires PositiveDemand(required) && Covers(required, supplies) && Stocked(supplies)
    ensures AllShip(required, Chosen(required, supplies))
  {
    var sup, c := SortBy(Kilometres(), supplies), Chosen(required, supplies);
    ChosenIsMinimal(required, supplies);
    ChosenIsStocked(required, supplies);
    if !AllShip(required, c) {
      var i := FindIdle(required, c);
      IdleCanBeDropped(required, c, i);
      if |c| == 1 {
        NothingCoversNothing(required);
      } else {
        DroppedIsGenerated(sup, |c|, c, i);
      }
    }
  }

  lemma ChosenMembers(required: seq<Line>, supplies: seq<Supply>)
    ensures forall s :: s in Chosen(required, supplies) ==> s in supplies
  {
    var sup := SortBy(Kilometres(), supplies);
    SortByMembers(Kilometres(), supplies);
    SingleCandidateMember(required, sup);
    if SingleCandidate(required, sup).None? { FewestCoverMembers(required, sup, 2, |sup|); }
  }

  lemma {:induction false} SingleCandidateMember(required: seq<Line>, sup: seq<Supply>)
    ensures SingleCandidate(required, sup).Some? ==> SingleCandidate(required, sup).value in sup
  {
    if sup != [] { SingleCandidateMember(required, sup[1..]); }
  }

  lemma {:induction false} FewestCoverMembers(required: seq<Line>, sup: seq<Supply>, sz: int, max: int)
    ensures var few := FewestCover(required, sup, sz, max); few.Some? ==> forall s :: s in few.value ==> s in sup
    decreases max - sz
  {
    if sz <= max {
      var best := BestCover(required, Combos(sup, sz));
      BestCoverIsGenerated(required, Combos(sup, sz));
      if best.Some? { ComboMembers(sup, sz, best.value); } else { FewestCoverMembers(required, sup, sz + 1, max); }
    }
  }

  lemma ChosenIsStocked(required: seq<Line>, supplies: seq<Supply>)
    requires Stocked(supplies)
    ensures Stocked(Chosen(required, supplies))
  {
    ChosenMembers(required, supplies);
  }

  /** When every visited warehouse ships there is one part for each. */
  lemma {:induction false} AllShipParts(required: seq<Line>, c: seq<Supply>)
    requires AllShip(required, c)
    ensures |Parts(required, c)| == |c|
    ensures forall i :: 0 <= i < |c| ==> IsPartOf(Parts(required, c)[i], c[i])
  {
    if c != [] { AllShipParts(required, c[..|c|-1]); }
  }

  /** And the score is the total distance of the visited warehouses. */
  lemma {:induction false} AllShipScore(required: seq<Line>, c: seq<Supply>)
    requires AllShip(required, c)
    ensures Sum(PartKilometres(), Parts(required, c)) == Distance(c)
  {
    if c != [] {
      var init, s := c[..|c|-1], c[|c|-1];
      AllShipScore(required, init);
      SumSnoc(PartKilometres(), Parts(required, init), Part(s.warehouseId, s.distance, PartLines(required, init, s)));
    }
  }

  ghost predicate IsPartOf(p: Part, s: Supply) {
    p.warehouseId == s.warehouseId && p.distance == s.distance && p.lines != []
  }

  // ---------------------------------------------------------------- the plan is the fill of the chosen warehouses

  /** For a real order the plan is exactly what a greedy visit of the chosen warehouses ships. */
  lemma PlannedIsFill(required: seq<Line>, supplies: seq<Supply>)
    requires PositiveDemand(required) && Stocked(supplies)
    ensures Planned(required, supplies) == FillPlan(required, Chosen(required, supplies))
  {
    var sup := SortBy(Kilometres(), supplies);
    SortBySorts(Kilometres(), supplies);
    SingleCandidateIsNearest(required, sup);
    FewestCoverIsSmallest(required, sup, 2, |sup|);
    var single := SingleCandidate(required, sup);
    if single.Some? {
      SinglePlanIsFill(required, single.value);
    } else {
      var few := FewestCover(required, sup, 2, |sup|);
      if few.Some? { ShortfallsEmpty(required, few.value); }
    }
  }

  lemma SinglePlanIsFill(required: seq<Line>, c: Supply)
    requires PositiveDemand(required) && Covers(required, [c])
    ensures FillPlan(required, [c])
        == Plan([Part(c.warehouseId, c.distance, PositiveLines(required))], [], c.distance, true)
  {
    ShortfallsEmpty(required, [c]);
    SumSnoc(Kilometres(), [], c);
    assert [] + [c] == [c] && [c][..0] == [];
    forall i | 0 <= i < |required| ensures Total([c], required[i].key) == Stock(c, required[i].key) {
      TotalSnoc([], c, required[i].key);
    }
    SingleLines(required, c);
    PositiveLinesExist(required);
    assert Parts(required, []) == [];
    var p := Part(c.warehouseId, c.distance, PositiveLines(required));
    assert Parts(required, [c]) == [p];
    SumSnoc(PartKilometres(), [], p);
    assert [] + [p] == [p];
  }

  lemma {:induction false} SingleLines(required: seq<Line>, c: Supply)
    requires forall i :: 0 <= i < |required| && required[i].quantity > 0 ==>
        Stock(c, required[i].key) >= required[i].quantity
    ensures PartLines(required, [], c) == PositiveLines(required)
  {
    if required != [] {
      SingleLines(required[..|required|-1], c);
      var l := required[|required|-1];
      assert Total([], l.key) == 0;
    }
  }

  lemma {:induction false} PositiveLinesExist(required: seq<Line>)
    ensures PositiveLines(required) != [] <==> PositiveDemand(required)
  {
    if required != [] {
      PositiveLinesExist(required[..|required|-1]);
      assert required == required[..|required|-1] + [required[|required|-1]];
    }
  }

  // ---------------------------------------------------------------- main results

  /** One part for every chosen warehouse; the score is the distance that was minimised. */
  lemma PartsAreTheChosen(required: seq<Line>, supplies: seq<Supply>)
    requires PositiveDemand(required) && Covers(required, supplies) && Stocked(supplies)
    ensures var plan, c := Planned(required, supplies), Chosen(required, supplies);
      && plan.fullyCovered && plan.shortfalls == []
      && |plan.parts| == |c| && plan.score == Distance(c)
      && forall i :: 0 <= i < |c| ==> IsPartOf(plan.parts[i], c[i])
  {
    var c := Chosen(required, supplies);
    PlannedIsFill(required, supplies);
    EveryChosenShips(required, supplies);
    AllShipParts(required, c);
    AllShipScore(required, c);
    ChosenIsMinimal(required, supplies);
    ShortfallsEmpty(required, c);
  }

  /** No covering selection of the warehouses is smaller than the plan, and none equally small is nearer. */
  lemma PlanBeatsEverySelection(required: seq<Line>, supplies: seq<Supply>, keep: set<Supply>)
    requires PositiveDemand(required) && Stocked(supplies) && Covers(required, supplies)
    requires Covers(required, Select(supplies, keep))
    ensures var plan, sel := Planned(required, supplies), Select(supplies, keep);
      && |plan.parts| <= |sel|
      && (|plan.parts| == |sel| ==> plan.score <= Distance(sel))
  {
    var sup := SortBy(Kilometres(), supplies);
    var a, b := Select(supplies, keep), Select(sup, keep);
    SortBySorts(Kilometres(), supplies);
    SelectPermuted(supplies, sup, keep);
    CoversPermuted(required, a, b);
    NothingCoversNothing(required);
    assert b != [];
    SelectionIsGenerated(sup, keep);
    ChosenIsMinimal(required, supplies);
    PartsAreTheChosen(required, supplies);
  }

  /** The plan itself is a covering selection, so the bound above is attained. */
  lemma PlanIsASelection(required: seq<Line>, supplies: seq<Supply>)
    requires PositiveDemand(required) && Stocked(supplies) && Covers(required, supplies)
    requires DistinctWarehouses(supplies)
    ensures var plan, sel := Planned(required, supplies), Select(supplies, Members(Chosen(required, supplies)));
      && Covers(required, sel) && |sel| == |plan.parts| && Distance(sel) == plan.score
  {
    var sup, c := SortBy(Kilometres(), supplies), Chosen(required, supplies);
    SortBySorts(Kilometres(), supplies);
    DistinctSupplies(supplies);
    DistinctPermuted(supplies, sup);
    ChosenIsMinimal(required, supplies);
    GeneratedIsSelection(sup, |c|, c);
    SelectPermuted(supplies, sup, Members(c));
    CoversPermuted(required, Select(supplies, Members(c)), c);
    PartsAreTheChosen(required, supplies);
  }

  lemma DistinctSupplies(supplies: seq<Supply>)
    requires DistinctWarehouses(supplies)
    ensures Distinct(supplies)
  {}

  // ---------------------------------------------------------------- arbitrary allocations

  /** What each warehouse would ship of each material. */
  type Allocation = map<string, map<string, int>>

  function Ships(alloc: Allocation, id: string, key: string): int {
    if id in alloc && key in alloc[id] then alloc[id][key] else 0
  }

  function ShipsOf(alloc: Allocation, key: string): Supply -> int {
    (s: Supply) => Ships(alloc, s.warehouseId, key)
  }

  ghost predicate RespectsStock(alloc: Allocation, supplies: seq<Supply>) {
    forall s, key :: s in supplies ==> 0 <= Ships(alloc, s.warehouseId, key) <= Stock(s, key)
  }

  ghost predicate Meets(required: seq<Line>, alloc: Allocation, supplies: seq<Supply>) {
    forall i :: 0 <= i < |required| ==> Sum(ShipsOf(alloc, required[i].key), supplies) >= required[i].quantity
  }

  ghost predicate Uses(alloc: Allocation, s: Supply) {
    exists key :: Ships(alloc, s.warehouseId, key) > 0
  }

  /** The warehouses an allocation ships anything from. */
  ghost function Used(alloc: Allocation, supplies: seq<Supply>): seq<Supply> {
    Select(supplies, set s | s in supplies && Uses(alloc, s))
  }

  lemma {:induction false} UsedShipEverything(alloc: Allocation, all: seq<Supply>, keep: set<Supply>, key: string)
    requires RespectsStock(alloc, all)
    requires forall s :: s in all && s !in keep ==> !Uses(alloc, s)
    ensures Sum(ShipsOf(alloc, key), all) <= Total(Select(all, keep), key)
  {
    if all != [] {
      var init, s := all[..|all|-1], all[|all|-1];
      assert all == init + [s];
      assert s in all;
      UsedShipEverything(alloc, init, keep, key);
      if s in keep {
        TotalSnoc(Select(init, keep), s, key);
      } else {
        assert Ships(alloc, s.warehouseId, key) <= 0;
        assert Select(all, keep) == Select(init, keep);
      }
    }
  }

  lemma AllocationShipsAtMostStock(alloc: Allocation, supplies: seq<Supply>, key: string)
    requires RespectsStock(alloc, supplies)
    ensures Sum(ShipsOf(alloc, key), supplies) <= Total(supplies, key)
  {
    SumMonotone(ShipsOf(alloc, key), StockOf(key), supplies);
  }

  /**
   * Optimality: no stock-respecting allocation that meets a positive demand uses fewer warehouses than the
   * plan, and none that uses equally many travels a smaller total distance.
   */
  lemma NoAllocationBeatsThePlan(required: seq<Line>, supplies: seq<Supply>, alloc: Allocation)
    requires PositiveDemand(required) && Stocked(supplies)
    requires RespectsStock(alloc, supplies) && Meets(required, alloc, supplies)
    ensures var plan := Planned(required, supplies);
      && plan.fullyCovered
      && |plan.parts| <= |Used(alloc, supplies)|
      && (|plan.parts| == |Used(alloc, supplies)| ==> plan.score <= Distance(Used(alloc, supplies)))
  {
    var keep := set s | s in supplies && Uses(alloc, s);
    forall i | 0 <= i < |required|
      ensures Total(Select(supplies, keep), required[i].key) >= required[i].quantity
      ensures Total(supplies, required[i].key) >= required[i].quantity
    {
      UsedShipEverything(alloc, supplies, keep, required[i].key);
      AllocationShipsAtMostStock(alloc, supplies, required[i].key);
    }
    PlanBeatsEverySelection(required, supplies, keep);
    PartsAreTheChosen(required, supplies);
  }
}
