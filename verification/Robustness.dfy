/**
 * How the plan reacts to the list of warehouses: a further warehouse never hurts, the order in which the
 * warehouses are listed does not matter for an order that can be covered, and where it does matter.
 */
module Robustness {
  import opened Sequences
  import opened Combinations
  import opened Planner
  import opened PlanSearch
  import opened Optimality
  import opened Fulfilment
  import opened Priority

  // ---------------------------------------------------------------- empty parts

  /** A plan has a part that ships nothing exactly when the order asks for nothing and a warehouse exists. */
  lemma EmptyPartIff(required: seq<Line>, supplies: seq<Supply>)
    requires Stocked(supplies)
    ensures (forall p :: p in Planned(required, supplies).parts ==> p.lines != [])
       <==> PositiveDemand(required) || supplies == []
  {
    if PositiveDemand(required) {
      PlannedIsFill(required, supplies);
      PartsNeverEmpty(required, Chosen(required, supplies));
    } else {
      NoDemandPlan(required, supplies);
      var parts := Planned(required, supplies).parts;
      if supplies != [] { assert parts[0] in parts; }
    }
  }

  lemma {:induction false} PartsNeverEmpty(required: seq<Line>, c: seq<Supply>)
    ensures forall p :: p in Parts(required, c) ==> p.lines != []
  {
    if c != [] { PartsNeverEmpty(required, c[..|c|-1]); }
  }

  // ---------------------------------------------------------------- one more warehouse

  lemma StockedMore(supplies: seq<Supply>, w: Supply)
    requires Stocked(supplies + [w])
    ensures Stocked(supplies) && Stock(w, "") >= 0
    ensures forall key :: Stock(w, key) >= 0
  {
    assert w in supplies + [w];
    forall s | s in supplies ensures forall k :: k in s.available ==> s.available[k] >= 0 {
      assert s in supplies + [w];
    }
  }

  lemma CoversMore(required: seq<Line>, supplies: seq<Supply>, w: Supply)
    requires Stocked(supplies + [w]) && Covers(required, supplies)
    ensures Covers(required, supplies + [w])
  {
    StockedMore(supplies, w);
    forall i | 0 <= i < |required| && required[i].quantity > 0
      ensures Total(supplies + [w], required[i].key) >= required[i].quantity
    {
      TotalSnoc(supplies, w, required[i].key);
    }
  }

  /** A further warehouse keeps a covered order covered and never raises what is missing of a line. */
  lemma MoreNeverMissesMore(required: seq<Line>, supplies: seq<Supply>, w: Supply, n: nat)
    requires DistinctKeys(required) && Stocked(supplies + [w]) && n < |required|
    ensures var before, after := Planned(required, supplies), Planned(required, supplies + [w]);
      && (before.fullyCovered ==> after.fullyCovered)
      && Missing(after, required[n].key) <= Missing(before, required[n].key)
  {
    StockedMore(supplies, w);
    FullyCoveredIffStockSuffices(required, supplies);
    FullyCoveredIffStockSuffices(required, supplies + [w]);
    if Covers(required, supplies) { CoversMore(required, supplies, w); }
    MissingIsExact(required, supplies, n);
    MissingIsExact(required, supplies + [w], n);
    TotalSnoc(supplies, w, required[n].key);
  }

  /**
   * For an order that is already covered a further warehouse never makes the plan larger or, at the same size,
   * farther.
   */
  lemma MoreNeverSplitsMore(required: seq<Line>, supplies: seq<Supply>, w: Supply)
    requires PositiveDemand(required) && Stocked(supplies + [w]) && DistinctWarehouses(supplies + [w])
    requires Covers(required, supplies)
    ensures var before, after := Planned(required, supplies), Planned(required, supplies + [w]);
      && |after.parts| <= |before.parts|
      && (|after.parts| == |before.parts| ==> after.score <= before.score)
  {
    var keep := Members(Chosen(required, supplies));
    StockedMore(supplies, w);
    CoversMore(required, supplies, w);
    assert DistinctWarehouses(supplies) by {
      forall i, j | 0 <= i < j < |supplies| ensures supplies[i].warehouseId != supplies[j].warehouseId {
        assert (supplies + [w])[i] == supplies[i] && (supplies + [w])[j] == supplies[j];
      }
    }
    PlanIsASelection(required, supplies);
    ChosenMembers(required, supplies);
    forall s | s in supplies ensures s != w {
      var i :| 0 <= i < |supplies| && supplies[i] == s;
      assert (supplies + [w])[i].warehouseId != (supplies + [w])[|supplies|].warehouseId;
    }
    SelectSnoc(supplies, w, keep);
    PlanBeatsEverySelection(required, supplies + [w], keep);
  }

  /** Without a demand the part count grows with the list exactly when the list was empty. */
  lemma MorePartsWithoutDemandIff(required: seq<Line>, supplies: seq<Supply>, w: Supply)
    requires !PositiveDemand(required)
    ensures |Planned(required, supplies + [w]).parts| > |Planned(required, supplies).parts| <==> supplies == []
  {
    NoDemandPlan(required, supplies);
    NoDemandPlan(required, supplies + [w]);
  }

  // ---------------------------------------------------------------- another listing order

  /** Listing the warehouses differently changes neither the coverage nor what is missing of any line. */
  lemma ListingKeepsCoverage(required: seq<Line>, a: seq<Supply>, b: seq<Supply>, n: nat)
    requires DistinctKeys(required) && Stocked(a) && multiset(a) == multiset(b) && n < |required|
    ensures Planned(required, a).fullyCovered == Planned(required, b).fullyCovered
    ensures Missing(Planned(required, a), required[n].key) == Missing(Planned(required, b), required[n].key)
  {
    StockedPermuted(a, b);
    FullyCoveredIffStockSuffices(required, a);
    FullyCoveredIffStockSuffices(required, b);
    CoversPermuted(required, a, b);
    MissingIsExact(required, a, n);
    MissingIsExact(required, b, n);
    SumPermuted(StockOf(required[n].key), a, b);
  }

  lemma ListingNeverBetter(required: seq<Line>, a: seq<Supply>, b: seq<Supply>)
    requires PositiveDemand(required) && Stocked(a) && DistinctWarehouses(a) && multiset(a) == multiset(b)
    requires Covers(required, a)
    ensures var p, q := Planned(required, a), Planned(required, b);
      |q.parts| <= |p.parts| && (|q.parts| == |p.parts| ==> q.score <= p.score)
  {
    var keep := Members(Chosen(required, a));
    StockedPermuted(a, b);
    CoversPermuted(required, a, b);
    PlanIsASelection(required, a);
    SelectPermuted(a, b, keep);
    CoversPermuted(required, Select(a, keep), Select(b, keep));
    PlanBeatsEverySelection(required, b, keep);
  }

  /** An order that asks for nothing is planned, if at all, at the distance of a nearest warehouse. */
  lemma NoDemandScore(required: seq<Line>, supplies: seq<Supply>)
    requires !PositiveDemand(required)
    ensures var sup := SortBy(Kilometres(), supplies);
      && |sup| == |supplies|
      && Planned(required, supplies).score == if supplies == [] then 0 else sup[0].distance
  {
    var sup := SortBy(Kilometres(), supplies);
    SortBySorts(Kilometres(), supplies);
    if supplies != [] { assert Covers(required, [sup[0]]); }
  }

  lemma ListingKeepsEmptyPlan(required: seq<Line>, a: seq<Supply>, b: seq<Supply>)
    requires !PositiveDemand(required) && multiset(a) == multiset(b)
    ensures |Planned(required, a).parts| == |Planned(required, b).parts|
    ensures Planned(required, a).score == Planned(required, b).score
  {
    NoDemandPlan(required, a);
    NoDemandPlan(required, b);
    NoDemandScore(required, a);
    NoDemandScore(required, b);
    PermutedLength(a, b);
    var sa, sb := SortBy(Kilometres(), a), SortBy(Kilometres(), b);
    SortBySorts(Kilometres(), a);
    SortBySorts(Kilometres(), b);
    if a != [] {
      assert sa[0] in multiset(sb) && sb[0] in multiset(sa);
      FirstIsNearest(sa);
      FirstIsNearest(sb);
    }
  }

  /** Nor, for an order that can be covered, the number of parts or the score. */
  lemma ListingKeepsCoveredPlan(required: seq<Line>, a: seq<Supply>, b: seq<Supply>)
    requires Stocked(a) && DistinctWarehouses(a) && multiset(a) == multiset(b) && Covers(required, a)
    ensures |Planned(required, a).parts| == |Planned(required, b).parts|
    ensures Planned(required, a).score == Planned(required, b).score
  {
    if PositiveDemand(required) {
      ListingKeepsRealPlan(required, a, b);
    } else {
      ListingKeepsEmptyPlan(required, a, b);
    }
  }

  lemma ListingKeepsRealPlan(required: seq<Line>, a: seq<Supply>, b: seq<Supply>)
    requires PositiveDemand(required) && Stocked(a) && DistinctWarehouses(a) && multiset(a) == multiset(b)
    requires Covers(required, a)
    ensures |Planned(required, a).parts| == |Planned(required, b).parts|
    ensures Planned(required, a).score == Planned(required, b).score
  {
    StockedPermuted(a, b);
    DistinctWarehousesPermuted(a, b);
    CoversPermuted(required, a, b);
    ListingNeverBetter(required, a, b);
    ListingNeverBetter(required, b, a);
  }

  /** When no two warehouses are equally far the whole plan is the same. */
  lemma ListingWithoutTies(required: seq<Line>, a: seq<Supply>, b: seq<Supply>)
    requires multiset(a) == multiset(b) && NoTies(Kilometres(), a)
    ensures Planned(required, a) == Planned(required, b)
  {
    var sa, sb := SortBy(Kilometres(), a), SortBy(Kilometres(), b);
    SortBySorts(Kilometres(), a);
    SortBySorts(Kilometres(), b);
    NoTiesPermuted(Kilometres(), a, sa);
    SortedUnique(Kilometres(), sa, sb);
  }

  lemma NoTiesPermuted<T>(f: T -> int, a: seq<T>, b: seq<T>)
    requires multiset(a) == multiset(b) && NoTies(f, a)
    ensures NoTies(f, b)
  {
    DistinctPermuted(a, b);
    forall i, j | 0 <= i < j < |b| ensures f(b[i]) != f(b[j]) {
      assert b[i] in multiset(a) && b[j] in multiset(a);
      var x :| 0 <= x < |a| && a[x] == b[i];
      var y :| 0 <= y < |a| && a[y] == b[j];
    }
  }

  // ---------------------------------------------------------------- where the listing order does matter

  /** Two equally distant warehouses that cannot cover the order are visited as listed. */
  lemma PairChosen(required: seq<Line>, x: Supply, y: Supply)
    requires Stocked([x, y]) && !Covers(required, [x, y]) && x.distance == y.distance
    ensures Chosen(required, [x, y]) == [x, y]
  {
    UncoveredChoosesAll(required, [x, y]);
    assert [x, y][1..] == [y] && [y][1..] == [];
    assert SortBy(Kilometres(), [y]) == [y];
    assert Kilometres()(x) <= Kilometres()(y);
    assert Insert(Kilometres(), x, [y]) == [x, y];
  }

  lemma PairParts(required: seq<Line>, x: Supply, y: Supply)
    requires PartLines(required, [], x) != [] && x.distance == y.distance
    ensures |Parts(required, [x, y])| == if PartLines(required, [x], y) == [] then 1 else 2
    ensures Sum(PartKilometres(), Parts(required, [x, y])) == x.distance * |Parts(required, [x, y])|
  {
    var p := Part(x.warehouseId, x.distance, PartLines(required, [], x));
    var q := Part(y.warehouseId, y.distance, PartLines(required, [x], y));
    OnePart(required, x);
    PairVisited(required, x, y);
    SumSnoc(PartKilometres(), [p], q);
  }

  lemma PairVisited(required: seq<Line>, x: Supply, y: Supply)
    ensures var lines := PartLines(required, [x], y);
      Parts(required, [x, y]) == if lines == [] then Parts(required, [x])
                                 else Parts(required, [x]) + [Part(y.warehouseId, y.distance, lines)]
  {
    PartsSnoc(required, [x, y], 1);
    assert [x, y][..2] == [x, y] && [x, y][..1] == [x];
  }

  lemma OnePart(required: seq<Line>, x: Supply)
    requires PartLines(required, [], x) != []
    ensures var p := Part(x.warehouseId, x.distance, PartLines(required, [], x));
      Parts(required, [x]) == [p] && Sum(PartKilometres(), [p]) == x.distance
  {
    var p := Part(x.warehouseId, x.distance, PartLines(required, [], x));
    assert [x][..0] == [];
    SumSnoc(PartKilometres(), [], p);
    assert [] + [p] == [p];
  }

  lemma PairTotals(x: Supply, y: Supply, key: string)
    ensures Total([], key) == 0 && Total([x], key) == Stock(x, key)
        && Total([x, y], key) == Stock(x, key) + Stock(y, key)
  {
    TotalSnoc([], x, key);
    TotalSnoc([x], y, key);
    assert [] + [x] == [x] && [x] + [y] == [x, y];
  }

  lemma TwoLinePart(l: Line, m: Line, before: seq<Supply>, s: Supply)
    ensures PartLines([l, m], before, s) != [] <==>
      Shipped(l.quantity, Total(before, l.key), Stock(s, l.key)) > 0
          || Shipped(m.quantity, Total(before, m.key), Stock(s, m.key)) > 0
  {
    assert [l, m][..1] == [l] && [l][..0] == [];
    assert PartLines([], before, s) == [];
  }

  /** What the pair [x, y] makes of the two lines when both hold all of l and together they lack some of m. */
  lemma PairPlan(l: Line, m: Line, x: Supply, y: Supply)
    requires l.quantity > 0 && Stock(x, l.key) >= l.quantity && Stock(y, l.key) >= l.quantity
    requires Stock(x, m.key) + Stock(y, m.key) < m.quantity
    requires Stocked([x, y]) && x.distance == y.distance
    ensures var plan := Planned([l, m], [x, y]);
      && !plan.fullyCovered && plan.score == x.distance * |plan.parts|
      && |plan.parts| == if Stock(y, m.key) > 0 then 2 else 1
  {
    var r := [l, m];
    assert r[0] == l && r[1] == m && x in [x, y] && y in [x, y];
    PairTotals(x, y, l.key);
    PairTotals(x, y, m.key);
    TwoLinePart(l, m, [], x);
    TwoLinePart(l, m, [x], y);
    FullyCoveredIffStockSuffices(r, [x, y]);
    PairChosen(r, x, y);
    PairParts(r, x, y);
    PlannedIsFill(r, [x, y]);
  }

  /**
   * An order that cannot be covered is split differently, and scored differently, when two equally distant
   * warehouses swap places in the list: all of l can come from either, and only y has a little of m.
   */
  lemma ListingMattersForUncovered(l: Line, m: Line, x: Supply, y: Supply)
    requires l.quantity > 0 && Stock(x, l.key) >= l.quantity && Stock(y, l.key) >= l.quantity
    requires Stock(x, m.key) == 0 && 0 < Stock(y, m.key) < m.quantity
    requires Stocked([x, y]) && x.distance == y.distance > 0
    ensures multiset([x, y]) == multiset([y, x])
    ensures |Planned([l, m], [x, y]).parts| == 2 && |Planned([l, m], [y, x]).parts| == 1
    ensures Planned([l, m], [x, y]).score == 2 * x.distance && Planned([l, m], [y, x]).score == x.distance
  {
    assert x in [x, y] && y in [x, y];
    PairPlan(l, m, x, y);
    PairPlan(l, m, y, x);
  }

  /** One such order: 10 of A and 100 of B, with 10 of A in both warehouses and 7 of B in the second. */
  lemma TieOrder() returns (l: Line, m: Line, x: Supply, y: Supply)
    ensures l == Line("A", 10) && m == Line("B", 100)
    ensures x == Supply("W1", 5, map["A" := 10]) && y == Supply("W2", 5, map["A" := 10, "B" := 7])
    ensures Stock(x, l.key) == 10 && Stock(y, l.key) == 10 && Stock(x, m.key) == 0 && Stock(y, m.key) == 7
    ensures Stocked([x, y]) && x.distance == y.distance > 0
  {
    l, m := Line("A", 10), Line("B", 100);
    x, y := Supply("W1", 5, map["A" := 10]), Supply("W2", 5, map["A" := 10, "B" := 7]);
  }

  lemma ListingMattersInstance() returns (l: Line, m: Line, x: Supply, y: Supply)
    ensures |Planned([l, m], [x, y]).parts| == 2 && |Planned([l, m], [y, x]).parts| == 1
  {
    l, m, x, y := TieOrder();
    ListingMattersForUncovered(l, m, x, y);
  }
}
