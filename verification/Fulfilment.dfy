/**
 * What a plan ships: nothing is lost between the parts and the reported shortfall, and the shortfall is the least any
 * allocation could leave.
 */
module Fulfilment {
  import opened Sequences
  import opened Combinations
  import opened Planner
  import opened PlanSearch
  import opened Optimality

  // ---------------------------------------------------------------- quantities in a plan

  function QuantityOf(key: string): Line -> int {
    (l: Line) => if l.key == key then l.quantity else 0
  }

  /** What the parts of warehouse `id` carry of material `key`. */
  function CarriedFrom(id: string, key: string): Part -> int {
    (p: Part) => if p.warehouseId == id then Sum(QuantityOf(key), p.lines) else 0
  }

  function Carried(key: string): Part -> int {
    (p: Part) => Sum(QuantityOf(key), p.lines)
  }

  function Delivered(plan: Plan, key: string): int {
    Sum(Carried(key), plan.parts)
  }

  function DeliveredFrom(plan: Plan, id: string, key: string): int {
    Sum(CarriedFrom(id, key), plan.parts)
  }

  function MissingOf(key: string): Shortfall -> int {
    (s: Shortfall) => if s.key == key then s.missing else 0
  }

  /** The missing quantity the plan reports for a material. */
  function Missing(plan: Plan, key: string): int {
    Sum(MissingOf(key), plan.shortfalls)
  }

  /** What no stock at all can provide of a demanded quantity. */
  function Lacking(quantity: int, total: int): int {
    if quantity > 0 && quantity > total then quantity - total else 0
  }

  function Demanded(quantity: int): int {
    if quantity > 0 then quantity else 0
  }

  // ---------------------------------------------------------------- one part

  lemma {:induction false} OtherKeysCarryNothing(required: seq<Line>, before: seq<Supply>, s: Supply, key: string)
    requires forall i :: 0 <= i < |required| ==> required[i].key != key
    ensures Sum(QuantityOf(key), PartLines(required, before, s)) == 0
  {
    if required != [] {
      OtherKeysCarryNothing(required[..|required|-1], before, s, key);
      var l := required[|required|-1];
      SumSnoc(QuantityOf(key), PartLines(required[..|required|-1], before, s),
              Line(l.key, Shipped(l.quantity, Total(before, l.key), Stock(s, l.key))));
    }
  }

  lemma {:induction false} PartCarries(required: seq<Line>, before: seq<Supply>, s: Supply, n: nat)
    requires DistinctKeys(required) && n < |required| && Stocked(before) && Stocked([s])
    ensures Sum(QuantityOf(required[n].key), PartLines(required, before, s))
         == Shipped(required[n].quantity, Total(before, required[n].key), Stock(s, required[n].key))
  {
    var init, l := required[..|required|-1], required[|required|-1];
    var x := Shipped(l.quantity, Total(before, l.key), Stock(s, l.key));
    ShippedInRange(before, s, l);
    SumSnoc(QuantityOf(required[n].key), PartLines(init, before, s), Line(l.key, x));
    if n == |required| - 1 {
      OtherKeysCarryNothing(init, before, s, l.key);
    } else {
      PartCarries(init, before, s, n);
    }
  }

  lemma ShippedInRange(before: seq<Supply>, s: Supply, l: Line)
    requires Stocked(before) && Stocked([s])
    ensures 0 <= Shipped(l.quantity, Total(before, l.key), Stock(s, l.key)) <= Stock(s, l.key)
  {
    assert s in [s];
    TotalNonNegative(before, l.key);
  }

  // ---------------------------------------------------------------- all parts

  lemma StockedSplit(supplies: seq<Supply>)
    requires Stocked(supplies) && supplies != []
    ensures Stocked(supplies[..|supplies|-1]) && Stocked([supplies[|supplies|-1]])
  {}

  /** One more warehouse adds what its lines carry. */
  lemma PartsStep(required: seq<Line>, supplies: seq<Supply>, key: string)
    requires supplies != []
    ensures var before, s := supplies[..|supplies|-1], supplies[|supplies|-1];
      Sum(Carried(key), Parts(required, supplies))
        == Sum(Carried(key), Parts(required, before)) + Sum(QuantityOf(key), PartLines(required, before, s))
  {
    var before, s := supplies[..|supplies|-1], supplies[|supplies|-1];
    SumSnoc(Carried(key), Parts(required, before), Part(s.warehouseId, s.distance, PartLines(required, before, s)));
  }

  lemma PartsCarryOneMore(required: seq<Line>, supplies: seq<Supply>, n: nat)
    requires DistinctKeys(required) && n < |required| && Stocked(supplies) && supplies != []
    ensures var before, s, key := supplies[..|supplies|-1], supplies[|supplies|-1], required[n].key;
      Sum(Carried(key), Parts(required, supplies))
        == Sum(Carried(key), Parts(required, before)) + Shipped(required[n].quantity, Total(before, key), Stock(s, key))
  {
    StockedSplit(supplies);
    PartsStep(required, supplies, required[n].key);
    PartCarries(required, supplies[..|supplies|-1], supplies[|supplies|-1], n);
  }

  lemma {:induction false} PartsCarry(required: seq<Line>, supplies: seq<Supply>, n: nat)
    requires DistinctKeys(required) && n < |required| && Stocked(supplies)
    ensures Sum(Carried(required[n].key), Parts(required, supplies))
         == Left(required[n].quantity, 0) - Left(required[n].quantity, Total(supplies, required[n].key))
  {
    if supplies != [] {
      StockedSplit(supplies);
      PartsCarry(required, supplies[..|supplies|-1], n);
      PartsCarryOneMore(required, supplies, n);
    }
  }

  lemma {:induction false} OtherShortfalls(required: seq<Line>, supplies: seq<Supply>, key: string)
    requires forall i :: 0 <= i < |required| ==> required[i].key != key
    ensures Sum(MissingOf(key), Shortfalls(required, supplies)) == 0
  {
    if required != [] {
      OtherShortfalls(required[..|required|-1], supplies, key);
      ShortfallSum(required, supplies, key);
    }
  }

  lemma ShortfallSum(required: seq<Line>, supplies: seq<Supply>, key: string)
    requires required != []
    ensures var l := required[|required|-1];
      Sum(MissingOf(key), Shortfalls(required, supplies))
          == Sum(MissingOf(key), Shortfalls(required[..|required|-1], supplies))
        + if l.key == key then Lacking(l.quantity, Total(supplies, l.key)) else 0
  {
    var l := required[|required|-1];
    var missing := Left(l.quantity, Total(supplies, l.key));
    SumSnoc(MissingOf(key), Shortfalls(required[..|required|-1], supplies),
            Shortfall(l.key, l.quantity, l.quantity - missing, missing));
  }

  lemma {:induction false} ShortfallsReport(required: seq<Line>, supplies: seq<Supply>, n: nat)
    requires DistinctKeys(required) && n < |required|
    ensures Sum(MissingOf(required[n].key), Shortfalls(required, supplies))
         == Lacking(required[n].quantity, Total(supplies, required[n].key))
  {
    ShortfallSum(required, supplies, required[n].key);
    if n == |required| - 1 {
      OtherShortfalls(required[..|required|-1], supplies, required[n].key);
    } else {
      ShortfallsReport(required[..|required|-1], supplies, n);
    }
  }

  // ---------------------------------------------------------------- coverage

  /** A generated combination holds no more than all the warehouses together. */
  lemma ComboHoldsNoMore(sup: seq<Supply>, k: int, c: seq<Supply>, key: string)
    requires Stocked(sup) && c in Combos(sup, k)
    ensures Total(c, key) <= Total(sup, key)
  {
    TuplesAreCombinations(0, |sup|, k);
    var j :| 0 <= j < |Combos(sup, k)| && Combos(sup, k)[j] == c;
    PickHoldsNoMore(sup, Tuples(0, |sup|, k)[j], k, key);
  }

  lemma FirstHoldNoMore(sup: seq<Supply>, m: nat, key: string)
    requires Stocked(sup) && m < |sup|
    ensures Total(sup[..m], key) + Stock(sup[m], key) <= Total(sup, key)
  {
    TotalSnoc(sup[..m], sup[m], key);
    assert sup[..m] + [sup[m]] == sup[..m+1];
    SumPrefix(StockOf(key), sup, m + 1);
  }

  lemma {:induction false} PickHoldsNoMore(sup: seq<Supply>, t: seq<int>, k: nat, key: string)
    requires Stocked(sup) && IsCombination(t, 0, |sup|, k)
    ensures Total(Pick(sup, t), key) <= Total(sup, key)
  {
    TotalNonNegative(sup, key);
    if k > 0 {
      var m, u := t[k-1], t[..k-1];
      PickSplit(sup, t, k);
      PickHoldsNoMore(sup[..m], u, k - 1, key);
      TotalSnoc(Pick(sup[..m], u), sup[m], key);
      FirstHoldNoMore(sup, m, key);
    }
  }

  /** When the order cannot be covered the plan is filled from all the warehouses, nearest first. */
  lemma UncoveredChoosesAll(required: seq<Line>, supplies: seq<Supply>)
    requires Stocked(supplies) && !Covers(required, supplies)
    ensures Chosen(required, supplies) == SortBy(Kilometres(), supplies)
  {
    var sup := SortBy(Kilometres(), supplies);
    SortBySorts(Kilometres(), supplies);
    StockedPermuted(supplies, sup);
    CoversPermuted(required, supplies, sup);
    SingleCandidateIsNearest(required, sup);
    FewestCoverIsSmallest(required, sup, 2, |sup|);
    SinglesAreCombos(sup);
    var single, few := SingleCandidate(required, sup), FewestCover(required, sup, 2, |sup|);
    if single.Some? {
      ComboCoverIsCover(required, sup, 1, [single.value]);
    } else if few.Some? {
      ComboCoverIsCover(required, sup, |few.value|, few.value);
    }
  }

  lemma ComboCoverIsCover(required: seq<Line>, sup: seq<Supply>, k: int, c: seq<Supply>)
    requires Stocked(sup) && c in Combos(sup, k) && Covers(required, c)
    ensures Covers(required, sup)
  {
    forall i | 0 <= i < |required| && required[i].quantity > 0
      ensures Total(sup, required[i].key) >= required[i].quantity
    {
      ComboHoldsNoMore(sup, k, c, required[i].key);
    }
  }

  /** The chosen warehouses lack exactly what all the warehouses lack. */
  lemma ChosenLacks(required: seq<Line>, supplies: seq<Supply>, n: nat)
    requires PositiveDemand(required) && Stocked(supplies) && n < |required|
    ensures Lacking(required[n].quantity, Total(Chosen(required, supplies), required[n].key))
         == Lacking(required[n].quantity, Total(supplies, required[n].key))
  {
    var sup := SortBy(Kilometres(), supplies);
    if Covers(required, supplies) {
      ChosenIsMinimal(required, supplies);
    } else {
      UncoveredChoosesAll(required, supplies);
      SortBySorts(Kilometres(), supplies);
      SumPermuted(StockOf(required[n].key), supplies, sup);
    }
  }

  /** An order that asks for nothing gets at most one part, with no lines. */
  lemma {:induction false} NoDemandPlan(required: seq<Line>, supplies: seq<Supply>)
    requires !PositiveDemand(required)
    ensures var plan := Planned(required, supplies);
      && plan.shortfalls == [] && plan.fullyCovered
      && if supplies == [] then plan.parts == [] else |plan.parts| == 1 && plan.parts[0].lines == []
  {
    var sup := SortBy(Kilometres(), supplies);
    SortBySorts(Kilometres(), supplies);
    PositiveLinesExist(required);
    if supplies != [] {
      assert Covers(required, [sup[0]]);
    } else {
      ShortfallsEmpty(required, []);
    }
  }

  // ---------------------------------------------------------------- main results

  /** Per line, what the parts carry and what is reported missing add up to what was asked for. */
  lemma NothingIsLost(required: seq<Line>, supplies: seq<Supply>, n: nat)
    requires DistinctKeys(required) && Stocked(supplies) && n < |required|
    ensures var plan, l := Planned(required, supplies), required[n];
      Delivered(plan, l.key) + Missing(plan, l.key) == Demanded(l.quantity)
  {
    var c := Chosen(required, supplies);
    if PositiveDemand(required) {
      PlannedIsFill(required, supplies);
      ChosenIsStocked(required, supplies);
      PartsCarry(required, c, n);
      ShortfallsReport(required, c, n);
      TotalNonNegative(c, required[n].key);
    } else {
      NoDemandPlan(required, supplies);
      EmptyPartCarries(Planned(required, supplies).parts, required[n].key);
    }
  }

  lemma EmptyPartCarries(parts: seq<Part>, key: string)
    requires |parts| <= 1 && forall p :: p in parts ==> p.lines == []
    ensures Sum(Carried(key), parts) == 0
  {
    if parts != [] {
      SumSnoc(Carried(key), [], parts[0]);
      assert [] + [parts[0]] == parts;
    }
  }

  /** The missing quantity reported for a line is exactly what the total stock falls short of it. */
  lemma MissingIsExact(required: seq<Line>, supplies: seq<Supply>, n: nat)
    requires DistinctKeys(required) && Stocked(supplies) && n < |required|
    ensures var l := required[n];
      Missing(Planned(required, supplies), l.key) == Lacking(l.quantity, Total(supplies, l.key))
  {
    if PositiveDemand(required) {
      PlannedIsFill(required, supplies);
      ShortfallsReport(required, Chosen(required, supplies), n);
      ChosenLacks(required, supplies, n);
    } else {
      NoDemandPlan(required, supplies);
    }
  }

  /** A plan claims full cover exactly when the total stock meets every line. */
  lemma FullyCoveredIffStockSuffices(required: seq<Line>, supplies: seq<Supply>)
    requires Stocked(supplies)
    ensures Planned(required, supplies).fullyCovered <==> Covers(required, supplies)
    ensures Planned(required, supplies).fullyCovered <==> Planned(required, supplies).shortfalls == []
  {
    if !PositiveDemand(required) {
      NoDemandPlan(required, supplies);
    } else if Covers(required, supplies) {
      PartsAreTheChosen(required, supplies);
    } else {
      PlannedIsFill(required, supplies);
      UncoveredChoosesAll(required, supplies);
      var sup := SortBy(Kilometres(), supplies);
      SortBySorts(Kilometres(), supplies);
      CoversPermuted(required, supplies, sup);
      ShortfallsEmpty(required, sup);
    }
  }

  /** No allocation within the stock leaves less of a line unmet than the plan reports missing. */
  lemma NoAllocationMissesLess(required: seq<Line>, supplies: seq<Supply>, alloc: Allocation, n: nat)
    requires DistinctKeys(required) && Stocked(supplies) && n < |required|
    requires RespectsStock(alloc, supplies)
    ensures var l := required[n];
      Missing(Planned(required, supplies), l.key) <= Lacking(l.quantity, Sum(ShipsOf(alloc, l.key), supplies))
  {
    MissingIsExact(required, supplies, n);
    AllocationShipsAtMostStock(alloc, supplies, required[n].key);
  }
}
