/**
 * Nearest first: in a plan a warehouse ships a material only after every nearer chosen warehouse has shipped
 * all of its own, and the parts are listed by distance. Also the share of an order that is missing.
 */
module Priority {
  import opened Sequences
  import opened Combinations
  import opened Planner
  import opened PlanSearch
  import opened Optimality
  import opened Fulfilment

  // ---------------------------------------------------------------- what one warehouse ships

  lemma FromWarehouseStep(required: seq<Line>, c: seq<Supply>, id: string, key: string)
    requires c != []
    ensures var before, s := c[..|c|-1], c[|c|-1];
      Sum(CarriedFrom(id, key), Parts(required, c)) == Sum(CarriedFrom(id, key), Parts(required, before))
        + if s.warehouseId == id then Sum(QuantityOf(key), PartLines(required, before, s)) else 0
  {
    var before, s := c[..|c|-1], c[|c|-1];
    SumSnoc(CarriedFrom(id, key), Parts(required, before),
        Part(s.warehouseId, s.distance, PartLines(required, before, s)));
  }

  lemma {:induction false} OtherWarehousesCarryNothing(required: seq<Line>, c: seq<Supply>, id: string, key: string)
    requires forall i :: 0 <= i < |c| ==> c[i].warehouseId != id
    ensures Sum(CarriedFrom(id, key), Parts(required, c)) == 0
  {
    if c != [] {
      OtherWarehousesCarryNothing(required, c[..|c|-1], id, key);
      FromWarehouseStep(required, c, id, key);
    }
  }

  lemma LastWarehouse(required: seq<Line>, c: seq<Supply>, n: nat)
    requires DistinctKeys(required) && n < |required| && Stocked(c) && DistinctWarehouses(c) && c != []
    ensures var before, s, l := c[..|c|-1], c[|c|-1], required[n];
      Sum(CarriedFrom(s.warehouseId, l.key), Parts(required, c))
        == Shipped(l.quantity, Total(before, l.key), Stock(s, l.key))
  {
    var before, s, key := c[..|c|-1], c[|c|-1], required[n].key;
    StockedSplit(c);
    FromWarehouseStep(required, c, s.warehouseId, key);
    OtherWarehousesCarryNothing(required, before, s.warehouseId, key);
    PartCarries(required, before, s, n);
  }

  lemma EarlierWarehouse(required: seq<Line>, c: seq<Supply>, i: nat, key: string)
    requires DistinctWarehouses(c) && i < |c| - 1
    ensures Sum(CarriedFrom(c[i].warehouseId, key), Parts(required, c))
         == Sum(CarriedFrom(c[i].warehouseId, key), Parts(required, c[..|c|-1]))
  {
    FromWarehouseStep(required, c, c[i].warehouseId, key);
  }

  /** The i-th warehouse of a fill ships what the ones before it leave open. */
  lemma {:induction false} FromWarehouse(required: seq<Line>, c: seq<Supply>, i: nat, n: nat)
    requires DistinctKeys(required) && n < |required| && Stocked(c) && DistinctWarehouses(c) && i < |c|
    ensures var key := required[n].key;
      Sum(CarriedFrom(c[i].warehouseId, key), Parts(required, c))
        == Shipped(required[n].quantity, Total(c[..i], key), Stock(c[i], key))
  {
    if i == |c| - 1 {
      LastWarehouse(required, c, n);
    } else {
      var init := c[..|c|-1];
      StockedSplit(c);
      FromWarehouse(required, init, i, n);
      EarlierWarehouse(required, c, i, required[n].key);
      assert init[..i] == c[..i];
    }
  }

  // ---------------------------------------------------------------- the chosen warehouses are in order

  lemma ComboInOrder(sup: seq<Supply>, k: int, c: seq<Supply>)
    requires Ascending(Kilometres(), sup) && c in Combos(sup, k)
    ensures Ascending(Kilometres(), c)
    ensures DistinctWarehouses(sup) ==> DistinctWarehouses(c)
  {
    TuplesAreCombinations(0, |sup|, k);
    var j :| 0 <= j < |Combos(sup, k)| && Combos(sup, k)[j] == c;
    var t := Tuples(0, |sup|, k)[j];
    assert IsCombination(t, 0, |sup|, k) && c == Pick(sup, t);
  }

  lemma DistinctWarehousesPermuted(a: seq<Supply>, b: seq<Supply>)
    requires multiset(a) == multiset(b) && DistinctWarehouses(a)
    ensures DistinctWarehouses(b)
  {
    DistinctSupplies(a);
    DistinctPermuted(a, b);
    forall i, j | 0 <= i < j < |b| ensures b[i].warehouseId != b[j].warehouseId {
      assert b[i] in multiset(a) && b[j] in multiset(a);
      var x :| 0 <= x < |a| && a[x] == b[i];
      var y :| 0 <= y < |a| && a[y] == b[j];
    }
  }

  lemma ChosenInOrder(required: seq<Line>, supplies: seq<Supply>)
    requires DistinctWarehouses(supplies)
    ensures Ascending(Kilometres(), Chosen(required, supplies)) && DistinctWarehouses(Chosen(required, supplies))
  {
    var sup := SortBy(Kilometres(), supplies);
    SortBySorts(Kilometres(), supplies);
    DistinctWarehousesPermuted(supplies, sup);
    FewestCoverIsSmallest(required, sup, 2, |sup|);
    var few := FewestCover(required, sup, 2, |sup|);
    if SingleCandidate(required, sup).None? && few.Some? { ComboInOrder(sup, |few.value|, few.value); }
  }

  // ---------------------------------------------------------------- main results

  lemma OneForNothing(required: seq<Line>, supplies: seq<Supply>)
    requires !PositiveDemand(required)
    ensures |Chosen(required, supplies)| <= 1
  {
    var sup := SortBy(Kilometres(), supplies);
    if sup != [] { assert Covers(required, [sup[0]]); }
  }

  /** A chosen warehouse ships a material only if every chosen warehouse before it has been emptied of it. */
  lemma NearerAreEmptiedFirst(required: seq<Line>, supplies: seq<Supply>, i: nat, j: nat, n: nat)
    requires DistinctKeys(required) && Stocked(supplies) && DistinctWarehouses(supplies)
    requires i < j < |Chosen(required, supplies)| && n < |required|
    ensures var plan, c, key := Planned(required, supplies), Chosen(required, supplies), required[n].key;
      && c[i].distance <= c[j].distance
      && (DeliveredFrom(plan, c[j].warehouseId, key) > 0 ==>
          DeliveredFrom(plan, c[i].warehouseId, key) == Stock(c[i], key))
  {
    if !PositiveDemand(required) {
      OneForNothing(required, supplies);
      assert false;
    }
    PlannedIsFill(required, supplies);
    ChosenInOrder(required, supplies);
    ChosenIsStocked(required, supplies);
    EmptiedFirst(required, Chosen(required, supplies), i, j, n);
  }

  lemma EmptiedFirst(required: seq<Line>, c: seq<Supply>, i: nat, j: nat, n: nat)
    requires DistinctKeys(required) && Stocked(c) && DistinctWarehouses(c) && Ascending(Kilometres(), c)
    requires i < j < |c| && n < |required|
    ensures var plan, key := FillPlan(required, c), required[n].key;
      && c[i].distance <= c[j].distance
      && (DeliveredFrom(plan, c[j].warehouseId, key) > 0 ==>
          DeliveredFrom(plan, c[i].warehouseId, key) == Stock(c[i], key))
  {
    var q, key := required[n].quantity, required[n].key;
    assert Kilometres()(c[i]) <= Kilometres()(c[j]);
    FromWarehouse(required, c, i, n);
    FromWarehouse(required, c, j, n);
    EarlierHoldLess(c, i, j, key);
    ShippingLaterMeansEmptied(q, Total(c[..i], key), Stock(c[i], key), Total(c[..j], key), Stock(c[j], key));
  }

  lemma ShippingLaterMeansEmptied(q: int, before: int, stock: int, later: int, laterStock: int)
    requires 0 <= before && 0 <= stock && before + stock <= later
    ensures Shipped(q, later, laterStock) > 0 ==> Shipped(q, before, stock) == stock
  {}

  /** The stock up to and including warehouse i is part of the stock before warehouse j. */
  lemma EarlierHoldLess(c: seq<Supply>, i: nat, j: nat, key: string)
    requires Stocked(c) && i < j < |c|
    ensures 0 <= Total(c[..i], key) && 0 <= Stock(c[i], key)
    ensures Total(c[..i], key) + Stock(c[i], key) <= Total(c[..j], key)
  {
    TotalNonNegative(c[..i], key);
    FirstHoldNoMore(c[..j], i, key);
    assert c[..j][..i] == c[..i];
  }

  /** The parts are listed in non-decreasing distance. */
  lemma PartsByDistance(required: seq<Line>, supplies: seq<Supply>)
    requires Stocked(supplies) && DistinctWarehouses(supplies)
    ensures Ascending(PartKilometres(), Planned(required, supplies).parts)
  {
    if PositiveDemand(required) {
      PlannedIsFill(required, supplies);
      ChosenInOrder(required, supplies);
      PartsInOrder(required, Chosen(required, supplies));
    } else {
      NoDemandPlan(required, supplies);
    }
  }

  lemma {:induction false} PartsInOrder(required: seq<Line>, c: seq<Supply>)
    requires Ascending(Kilometres(), c)
    ensures Ascending(PartKilometres(), Parts(required, c))
    ensures forall p :: p in Parts(required, c) ==> c != [] && p.distance <= c[|c|-1].distance
  {
    if c != [] {
      var init, s := c[..|c|-1], c[|c|-1];
      PartsInOrder(required, init);
      if init != [] { assert Kilometres()(init[|init|-1]) <= Kilometres()(s); }
      LastPartFarthest(Parts(required, init), Part(s.warehouseId, s.distance, PartLines(required, init, s)));
    }
  }

  lemma LastPartFarthest(parts: seq<Part>, p: Part)
    requires Ascending(PartKilometres(), parts)
    ensures (forall q :: q in parts ==> q.distance <= p.distance) ==> Ascending(PartKilometres(), parts + [p])
  {}

  // ---------------------------------------------------------------- the missing share

  function Asked(): Line -> int {
    (l: Line) => l.quantity
  }

  function Unmet(): Shortfall -> int {
    (s: Shortfall) => s.missing
  }

  function Loaded(): Part -> int {
    (p: Part) => Sum(Asked(), p.lines)
  }

  function LeftOpen(supplies: seq<Supply>): Line -> int {
    (l: Line) => Left(l.quantity, Total(supplies, l.key))
  }

  function ShortfallRatio(plan: Plan, required: seq<Line>): real {
    var total := Sum(Asked(), required);
    if total <= 0 then 0.0
    else
      var missing := Sum(Unmet(), plan.shortfalls);
      missing as real / total as real
  }

  lemma PartLoadsOneMore(required: seq<Line>, before: seq<Supply>, s: Supply)
    requires required != [] && Stocked(before) && Stocked([s])
    ensures var init, l := required[..|required|-1], required[|required|-1];
      Sum(Asked(), PartLines(required, before, s))
        == Sum(Asked(), PartLines(init, before, s)) + Shipped(l.quantity, Total(before, l.key), Stock(s, l.key))
  {
    var init, l := required[..|required|-1], required[|required|-1];
    ShippedInRange(before, s, l);
    SumSnoc(Asked(), PartLines(init, before, s),
        Line(l.key, Shipped(l.quantity, Total(before, l.key), Stock(s, l.key))));
  }

  lemma {:induction false} PartLoads(required: seq<Line>, before: seq<Supply>, s: Supply)
    requires Stocked(before) && Stocked([s])
    ensures Sum(Asked(), PartLines(required, before, s))
         == Sum(LeftOpen(before), required) - Sum(LeftOpen(before + [s]), required)
  {
    if required != [] {
      PartLoads(required[..|required|-1], before, s);
      PartLoadsOneMore(required, before, s);
      TotalSnoc(before, s, required[|required|-1].key);
    }
  }

  lemma {:induction false} PartsLoad(required: seq<Line>, supplies: seq<Supply>)
    requires Stocked(supplies)
    ensures Sum(Loaded(), Parts(required, supplies)) == Sum(LeftOpen([]), required) - Sum(LeftOpen(supplies), required)
  {
    if supplies != [] {
      var before, s := supplies[..|supplies|-1], supplies[|supplies|-1];
      StockedSplit(supplies);
      PartsLoad(required, before);
      PartLoads(required, before, s);
      PartsLoadOneMore(required, supplies);
      SplitAround(supplies, |supplies| - 1);
      assert before + [s] == supplies;
    }
  }

  lemma PartsLoadOneMore(required: seq<Line>, supplies: seq<Supply>)
    requires supplies != []
    ensures var before, s := supplies[..|supplies|-1], supplies[|supplies|-1];
      Sum(Loaded(), Parts(required, supplies))
        == Sum(Loaded(), Parts(required, before)) + Sum(Asked(), PartLines(required, before, s))
  {
    var before, s := supplies[..|supplies|-1], supplies[|supplies|-1];
    SumSnoc(Loaded(), Parts(required, before), Part(s.warehouseId, s.distance, PartLines(required, before, s)));
  }

  lemma {:induction false} NothingLoadedYet(required: seq<Line>)
    ensures Sum(LeftOpen([]), required) == Sum(Asked(), required)
  {
    if required != [] { NothingLoadedYet(required[..|required|-1]); }
  }

  ghost predicate NonNegativeDemand(required: seq<Line>) {
    forall i :: 0 <= i < |required| ==> required[i].quantity >= 0
  }

  lemma {:induction false} ShortfallsAreLeftOpen(required: seq<Line>, supplies: seq<Supply>)
    requires NonNegativeDemand(required)
    ensures Sum(Unmet(), Shortfalls(required, supplies)) == Sum(LeftOpen(supplies), required)
  {
    if required != [] {
      var l := required[|required|-1];
      var missing := Left(l.quantity, Total(supplies, l.key));
      ShortfallsAreLeftOpen(required[..|required|-1], supplies);
      SumSnoc(Unmet(), Shortfalls(required[..|required|-1], supplies),
          Shortfall(l.key, l.quantity, l.quantity - missing, missing));
    }
  }

  lemma {:induction false} SomethingAsked(required: seq<Line>)
    requires NonNegativeDemand(required)
    ensures Sum(Asked(), required) >= 0
    ensures Sum(Asked(), required) > 0 <==> PositiveDemand(required)
  {
    if required != [] {
      SomethingAsked(required[..|required|-1]);
      assert required == required[..|required|-1] + [required[|required|-1]];
    }
  }

  lemma LoadsNonNegative(required: seq<Line>, supplies: seq<Supply>)
    requires NonNegativeDemand(required) && Stocked(supplies)
    ensures 0 <= Sum(LeftOpen(supplies), required) <= Sum(Asked(), required)
  {
    forall l | l in required ensures 0 <= LeftOpen(supplies)(l) <= Asked()(l) {
      TotalNonNegative(supplies, l.key);
    }
    SumNonNegative(LeftOpen(supplies), required);
    SumMonotone(LeftOpen(supplies), Asked(), required);
  }

  /**
   * The missing share is one minus the share that is shipped, so it lies between 0 and 1; it is 0 exactly for
   * a fully covered order and 1 exactly when nothing is shipped.
   */
  lemma RatioIsUnshippedShare(required: seq<Line>, supplies: seq<Supply>)
    requires NonNegativeDemand(required) && PositiveDemand(required) && Stocked(supplies)
    ensures var plan := Planned(required, supplies);
      var total, shipped := Sum(Asked(), required), Sum(Loaded(), plan.parts);
      && total > 0
      && ShortfallRatio(plan, required) == 1.0 - shipped as real / total as real
      && 0.0 <= ShortfallRatio(plan, required) <= 1.0
      && (ShortfallRatio(plan, required) == 0.0 <==> plan.fullyCovered)
      && (ShortfallRatio(plan, required) == 1.0 <==> shipped == 0)
  {
    PlannedIsFill(required, supplies);
    ChosenIsStocked(required, supplies);
    FullyCoveredIffStockSuffices(required, supplies);
    FillBalance(required, Chosen(required, supplies));
    SomethingAsked(required);
    RatioOfBalanced(required, Planned(required, supplies));
  }

  lemma RatioOfBalanced(required: seq<Line>, plan: Plan)
    requires Sum(Asked(), required) > 0
    requires Sum(Loaded(), plan.parts) + Sum(Unmet(), plan.shortfalls) == Sum(Asked(), required)
    requires 0 <= Sum(Unmet(), plan.shortfalls) <= Sum(Asked(), required)
    ensures var total, shipped := Sum(Asked(), required), Sum(Loaded(), plan.parts);
      && ShortfallRatio(plan, required) == 1.0 - shipped as real / total as real
      && 0.0 <= ShortfallRatio(plan, required) <= 1.0
      && (ShortfallRatio(plan, required) == 0.0 <==> Sum(Unmet(), plan.shortfalls) == 0)
      && (ShortfallRatio(plan, required) == 1.0 <==> shipped == 0)
  {
    Share(Sum(Asked(), required), Sum(Unmet(), plan.shortfalls));
  }

  /** What is loaded and what is reported unmet add up to everything that was asked for. */
  lemma FillBalance(required: seq<Line>, c: seq<Supply>)
    requires NonNegativeDemand(required) && Stocked(c)
    ensures var plan, total := FillPlan(required, c), Sum(Asked(), required);
      && Sum(Loaded(), plan.parts) + Sum(Unmet(), plan.shortfalls) == total
      && 0 <= Sum(Unmet(), plan.shortfalls) <= total
      && (Sum(Unmet(), plan.shortfalls) == 0 <==> plan.shortfalls == [])
  {
    PartsLoad(required, c);
    NothingLoadedYet(required);
    ShortfallsAreLeftOpen(required, c);
    LoadsNonNegative(required, c);
    NothingMissingIffCovered(required, c);
  }

  lemma Share(total: int, missing: int)
    requires 0 <= missing <= total && total > 0
    ensures var share := missing as real / total as real;
      && share == 1.0 - (total - missing) as real / total as real
      && 0.0 <= share <= 1.0
      && (share == 0.0 <==> missing == 0) && (share == 1.0 <==> missing == total)
  {
    SharesAddUp(missing as real, (total - missing) as real, total as real);
  }

  lemma SharesAddUp(a: real, b: real, t: real)
    requires a >= 0.0 && b >= 0.0 && a + b == t && t > 0.0
    ensures a / t == 1.0 - b / t && 0.0 <= a / t <= 1.0
    ensures (a / t == 0.0 <==> a == 0.0) && (a / t == 1.0 <==> b == 0.0)
  {
    var x, y := a / t, b / t;
    assert x * t == a && y * t == b;
    assert (x + y - 1.0) * t == x * t + y * t - t == 0.0;
    assert x + y == 1.0;
  }

  lemma {:induction false} NothingMissingIffCovered(required: seq<Line>, supplies: seq<Supply>)
    requires Stocked(supplies) && NonNegativeDemand(required)
    ensures Sum(Unmet(), Shortfalls(required, supplies)) >= 0
    ensures Sum(Unmet(), Shortfalls(required, supplies)) == 0 <==> Shortfalls(required, supplies) == []
  {
    if required != [] {
      var l := required[|required|-1];
      var missing := Left(l.quantity, Total(supplies, l.key));
      NothingMissingIffCovered(required[..|required|-1], supplies);
      SumSnoc(Unmet(), Shortfalls(required[..|required|-1], supplies),
          Shortfall(l.key, l.quantity, l.quantity - missing, missing));
    }
  }
}
