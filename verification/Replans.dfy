/**
 * The administrator's re-plans against the plan: none is better,
     and a re-plan on the plan's own warehouses is the plan.
 */
module Replans {
  import opened Sequences
  import opened Combinations
  import opened Planner
  import opened PlanSearch
  import opened Optimality
  import opened Fulfilment
  import opened Alternatives
  import opened ListingOrder

  // ---------------------------------------------------------------- the warehouses that ship are enough

  /** The warehouses that ship when `c` is visited in order are those of `keep`. */
  ghost predicate ShipExactly(required: seq<Line>, c: seq<Supply>, keep: set<Supply>) {
    forall i :: 0 <= i < |c| ==> (PartLines(required, c[..i], c[i]) != [] <==> c[i] in keep)
  }

  lemma ShipExactlyBefore(required: seq<Line>, c: seq<Supply>, keep: set<Supply>)
    requires ShipExactly(required, c, keep) && c != []
    ensures ShipExactly(required, c[..|c|-1], keep)
    ensures PartLines(required, c[..|c|-1], c[|c|-1]) != [] <==> c[|c|-1] in keep
  {
    var before := c[..|c|-1];
    forall i | 0 <= i < |before| ensures PartLines(required, before[..i], before[i]) != [] <==> before[i] in keep {
      assert before[..i] == c[..i];
    }
  }

  /** Warehouses that ship nothing hold nothing that is missed. */
  lemma {:induction false} IdleHoldNothing(required: seq<Line>, c: seq<Supply>, keep: set<Supply>, n: nat)
    requires Stocked(c) && n < |required| && ShipExactly(required, c, keep)
    ensures Left(required[n].quantity, Total(Select(c, keep), required[n].key))
         == Left(required[n].quantity, Total(c, required[n].key))
  {
    if c != [] {
      var before, s := c[..|c|-1], c[|c|-1];
      ShipExactlyBefore(required, c, keep);
      StockedSplit(c);
      IdleHoldNothing(required, before, keep, n);
      if s in keep {
        ShipperAdds(c, keep, required[n]);
      } else {
        IdleAdds(required, c, n);
      }
    }
  }

  lemma ShipperAdds(c: seq<Supply>, keep: set<Supply>, l: Line)
    requires c != [] && Stocked([c[|c|-1]]) && c[|c|-1] in keep
    requires Left(l.quantity, Total(Select(c[..|c|-1], keep), l.key)) == Left(l.quantity, Total(c[..|c|-1], l.key))
    ensures Left(l.quantity, Total(Select(c, keep), l.key)) == Left(l.quantity, Total(c, l.key))
  {
    var before, s := c[..|c|-1], c[|c|-1];
    LastAdds(c, l.key);
    TotalSnoc(Select(before, keep), s, l.key);
    assert s in [s];
    SameLeftMore(l.quantity, Total(Select(before, keep), l.key), Total(before, l.key), Stock(s, l.key));
  }

  lemma IdleAdds(required: seq<Line>, c: seq<Supply>, n: nat)
    requires c != [] && Stocked(c) && n < |required| && PartLines(required, c[..|c|-1], c[|c|-1]) == []
    ensures Left(required[n].quantity, Total(c[..|c|-1], required[n].key))
         == Left(required[n].quantity, Total(c, required[n].key))
  {
    LastAdds(c, required[n].key);
    StockedSplit(c);
    NothingShipped(required, c[..|c|-1], c[|c|-1], n);
    TotalNonNegative(c[..|c|-1], required[n].key);
    assert c[|c|-1] in c;
  }

  lemma LastAdds(c: seq<Supply>, key: string)
    requires c != []
    ensures Total(c, key) == Total(c[..|c|-1], key) + Stock(c[|c|-1], key)
  {}

  lemma SameLeftMore(quantity: int, a: int, b: int, stock: int)
    requires Left(quantity, a) == Left(quantity, b) && stock >= 0
    ensures Left(quantity, a + stock) == Left(quantity, b + stock)
  {}

  /** So those that ship cover whatever the whole visit covers. */
  lemma ShippersCover(required: seq<Line>, c: seq<Supply>, keep: set<Supply>)
    requires Stocked(c) && Covers(required, c) && ShipExactly(required, c, keep)
    ensures Covers(required, Select(c, keep))
  {
    forall n | 0 <= n < |required| && required[n].quantity > 0
      ensures Total(Select(c, keep), required[n].key) >= required[n].quantity
    {
      IdleHoldNothing(required, c, keep, n);
    }
  }

  // ---------------------------------------------------------------- no re-plan is better

  ghost function WarehousesOf(supplies: seq<Supply>, ids: set<string>): set<Supply> {
    set s | s in supplies && s.warehouseId in ids
  }

  lemma {:induction false} WithIdsIsSelect(supplies: seq<Supply>, ids: set<string>, keep: set<Supply>)
    requires forall s :: s in supplies ==> (s in keep <==> s.warehouseId in ids)
    ensures WithIds(supplies, ids) == Select(supplies, keep)
  {
    if supplies != [] { WithIdsIsSelect(supplies[..|supplies|-1], ids, keep); }
  }

  /** The warehouses that ship in a re-plan, as a selection of all of them. */
  lemma ReplanShippers(required: seq<Line>, supplies: seq<Supply>, warehouseIds: seq<string>)
      returns (keep: set<Supply>)
    requires Stocked(supplies) && DistinctWarehouses(supplies) && Replanned(required, supplies, warehouseIds).Some?
    ensures var replan, sel := Replanned(required, supplies, warehouseIds).value, Select(supplies, keep);
      && Covers(required, sel) && |replan.parts| == |sel| && replan.score == Distance(sel)
  {
    var ids := IdSet(warehouseIds);
    var ch, c := WithIds(supplies, ids), ReplanOrder(supplies, warehouseIds);
    WithIdsMembers(supplies, ids);
    WithIdsDistinct(supplies, ids);
    SortBySorts(Kilometres(), ch);
    StockedPermuted(ch, c);
    DistinctSupplies(ch);
    DistinctPermuted(ch, c);
    CoversPermuted(required, ch, c);
    ReplanIsFill(required, supplies, warehouseIds);
    keep := Shipping(required, c);
    forall i | 0 <= i < |c| ensures PartLines(required, c[..i], c[i]) != [] <==> c[i] in keep {
      ShippingIff(required, c, i);
    }
    PartsOf(required, c, keep);
    ShippersCover(required, c, keep);
    ShippersAreSelected(supplies, ids, c, keep);
    CoversPermuted(required, Select(c, keep), Select(supplies, keep));
  }

  lemma ShippersAreSelected(supplies: seq<Supply>, ids: set<string>, c: seq<Supply>, keep: set<Supply>)
    requires multiset(c) == multiset(WithIds(supplies, ids)) && forall s :: s in keep ==> s in c
    ensures multiset(Select(c, keep)) == multiset(Select(supplies, keep))
  {
    var big := WarehousesOf(supplies, ids);
    WithIdsIsSelect(supplies, ids, big);
    WithIdsMembers(supplies, ids);
    SamePermutedMembers(c, WithIds(supplies, ids));
    SelectPermuted(c, WithIds(supplies, ids), keep);
    SelectTwice(supplies, big, keep);
  }

  /** No accepted re-plan has fewer parts than the plan, and none with equally many is nearer. */
  lemma NoReplanBeatsThePlan(required: seq<Line>, supplies: seq<Supply>, warehouseIds: seq<string>)
    requires PositiveDemand(required) && Stocked(supplies) && DistinctWarehouses(supplies)
    requires Replanned(required, supplies, warehouseIds).Some?
    ensures var plan, replan := Planned(required, supplies), Replanned(required, supplies, warehouseIds).value;
      && |plan.parts| <= |replan.parts|
      && (|plan.parts| == |replan.parts| ==> plan.score <= replan.score)
  {
    var keep := ReplanShippers(required, supplies, warehouseIds);
    SelectedCoverIsCover(required, supplies, keep);
    PlanBeatsEverySelection(required, supplies, keep);
  }

  lemma {:induction false} NothingToShip(required: seq<Line>, c: seq<Supply>)
    requires !PositiveDemand(required)
    ensures Parts(required, c) == []
  {
    if c != [] {
      NothingToShip(required, c[..|c|-1]);
      NoLines(required, c[..|c|-1], c[|c|-1]);
    }
  }

  lemma {:induction false} NoLines(required: seq<Line>, before: seq<Supply>, s: Supply)
    requires !PositiveDemand(required)
    ensures PartLines(required, before, s) == []
  {
    if required != [] {
      var init := required[..|required|-1];
      assert !PositiveDemand(init) by {
        assert forall i :: 0 <= i < |init| ==> init[i] == required[i];
      }
      NoLines(init, before, s);
      assert required[|required|-1].quantity <= 0;
    }
  }

  /**
   * For an order that asks for nothing every re-plan is empty, so it has fewer parts exactly if there is a warehouse.
   */
  lemma EmptyReplanIsSmallerIff(required: seq<Line>, supplies: seq<Supply>, warehouseIds: seq<string>)
    requires !PositiveDemand(required) && Replanned(required, supplies, warehouseIds).Some?
    ensures Replanned(required, supplies, warehouseIds).value.parts == []
    ensures |Replanned(required, supplies, warehouseIds).value.parts| < |Planned(required, supplies).parts|
       <==> supplies != []
  {
    NothingToShip(required, ReplanOrder(supplies, warehouseIds));
    NoDemandPlan(required, supplies);
  }

  // ---------------------------------------------------------------- re-planning on the plan's own warehouses

  lemma SelectCons<T>(x: T, s: seq<T>, keep: set<T>)
    ensures Select([x] + s, keep) == if x in keep then [x] + Select(s, keep) else Select(s, keep)
  {
    SelectConcat([x], s, keep);
    assert [x][..0] == [];
    assert Select([x], keep) == if x in keep then [x] else [];
  }

  lemma {:induction false} InsertBetween<T>(f: T -> int, x: T, a: seq<T>, b: seq<T>)
    requires (forall y :: y in a ==> f(y) < f(x)) && (forall y :: y in b ==> f(x) <= f(y))
    ensures Insert(f, x, a + b) == a + [x] + b
  {
    if a == [] {
      assert a + b == b && a + [x] + b == [x] + b;
      if b != [] { assert b[0] in b; }
    } else {
      assert a[0] in a;
      assert (a + b)[0] == a[0] && (a + b)[1..] == a[1..] + b;
      InsertBetween(f, x, a[1..], b);
      assert a + [x] + b == [a[0]] + (a[1..] + [x] + b);
    }
  }

  /** Where an item goes: after the smaller ones, before the others. */
  lemma InsertSplits<T>(f: T -> int, x: T, t: seq<T>) returns (a: seq<T>, b: seq<T>)
    requires Ascending(f, t)
    ensures t == a + b && Insert(f, x, t) == a + [x] + b
    ensures (forall y :: y in a ==> f(y) < f(x)) && (forall y :: y in b ==> f(x) <= f(y))
  {
    var p := InsertAt(f, x, t);
    a, b := t[..p], t[p..];
    forall y | y in b ensures f(x) <= f(y) {
      var j :| 0 <= j < |b| && b[j] == y;
      assert b[j] == t[p + j] && (j > 0 ==> f(t[p]) <= f(t[p + j]));
    }
  }

  lemma {:induction false} SelectedFrom<T>(s: seq<T>, keep: set<T>, y: T)
    requires y in Select(s, keep)
    ensures y in s
  {
    if s != [] && y in Select(s[..|s|-1], keep) { SelectedFrom(s[..|s|-1], keep, y); }
  }

  lemma InsertedIsSelected<T>(f: T -> int, x: T, t: seq<T>, keep: set<T>)
    requires Ascending(f, t)
    ensures Select(Insert(f, x, t), keep) == if x in keep then Insert(f, x, Select(t, keep)) else Select(t, keep)
  {
    var a, b := InsertSplits(f, x, t);
    SelectThree(a, x, b, keep);
    SelectConcat(a, b, keep);
    if x in keep {
      forall y | y in Select(a, keep) ensures f(y) < f(x) { SelectedFrom(a, keep, y); }
      forall y | y in Select(b, keep) ensures f(x) <= f(y) { SelectedFrom(b, keep, y); }
      InsertBetween(f, x, Select(a, keep), Select(b, keep));
    }
  }

  lemma SelectThree<T>(a: seq<T>, x: T, b: seq<T>, keep: set<T>)
    ensures Select(a + [x] + b, keep)
         == Select(a, keep) + (if x in keep then [x] else []) + Select(b, keep)
  {
    SelectConcat(a + [x], b, keep);
    SelectSnoc(a, x, keep);
  }

  /** A stable sort commutes with selection. */
  lemma {:induction false} SortSelects<T>(f: T -> int, s: seq<T>, keep: set<T>)
    ensures SortBy(f, Select(s, keep)) == Select(SortBy(f, s), keep)
  {
    if s != [] {
      var x, rest := s[0], s[1..];
      SortSelects(f, rest, keep);
      SortBySorts(f, rest);
      InsertedIsSelected(f, x, SortBy(f, rest), keep);
      assert s == [x] + rest;
      SelectCons(x, rest, keep);
      if x in keep { assert ([x] + Select(rest, keep))[1..] == Select(rest, keep); }
    }
  }

  function PlanIds(plan: Plan): (ids: seq<string>)
    ensures |ids| == |plan.parts| && forall i :: 0 <= i < |ids| ==> ids[i] == plan.parts[i].warehouseId
  {
    seq(|plan.parts|, i requires 0 <= i < |plan.parts| => plan.parts[i].warehouseId)
  }

  /** Re-planning on the chosen warehouses visits them in the planner's order. */
  lemma ReplanOrderOfChosen(required: seq<Line>, supplies: seq<Supply>)
    requires PositiveDemand(required) && Stocked(supplies) && DistinctWarehouses(supplies) && Covers(required, supplies)
    ensures ReplanOrder(supplies, Ids(Chosen(required, supplies))) == Chosen(required, supplies)
    ensures |WithIds(supplies, IdSet(Ids(Chosen(required, supplies))))| == |IdSet(Ids(Chosen(required, supplies)))|
  {
    var c, sup := Chosen(required, supplies), SortBy(Kilometres(), supplies);
    SortBySorts(Kilometres(), supplies);
    DistinctSupplies(supplies);
    DistinctPermuted(supplies, sup);
    ChosenIsMinimal(required, supplies);
    ChosenMembers(required, supplies);
    GeneratedIsSelection(sup, |c|, c);
    SortSelects(Kilometres(), supplies, Members(c));
    IdsSelect(supplies, c);
    MembersDistinctWarehouses(supplies, c);
    WithIdsOfSelection(supplies, c);
  }

  lemma IdsSelect(supplies: seq<Supply>, c: seq<Supply>)
    requires DistinctWarehouses(supplies) && forall s :: s in c ==> s in supplies
    ensures WithIds(supplies, IdSet(Ids(c))) == Select(supplies, Members(c))
  {
    forall s | s in supplies ensures s in Members(c) <==> s.warehouseId in IdSet(Ids(c)) {
      if s in c {
        var i :| 0 <= i < |c| && c[i] == s;
        assert Ids(c)[i] == s.warehouseId;
      }
      if s.warehouseId in Ids(c) {
        var i :| 0 <= i < |c| && Ids(c)[i] == s.warehouseId;
        SameIdSameSupply(supplies, s, c[i]);
      }
    }
    WithIdsIsSelect(supplies, IdSet(Ids(c)), Members(c));
  }

  /** Re-planning on the plan's own warehouses returns the plan. */
  lemma ReplanOfThePlan(required: seq<Line>, supplies: seq<Supply>)
    requires PositiveDemand(required) && Stocked(supplies) && DistinctWarehouses(supplies) && Covers(required, supplies)
    ensures Replanned(required, supplies, PlanIds(Planned(required, supplies))) == Some(Planned(required, supplies))
  {
    var c, ids := Chosen(required, supplies), PlanIds(Planned(required, supplies));
    PartsAreTheChosen(required, supplies);
    assert ids == Ids(c);
    ReplanOrderOfChosen(required, supplies);
    ChosenCovers(required, supplies);
    SortBySorts(Kilometres(), WithIds(supplies, IdSet(ids)));
    CoversPermuted(required, WithIds(supplies, IdSet(ids)), c);
    ReplanIsFill(required, supplies, ids);
    PlannedIsFill(required, supplies);
  }

  lemma ChosenCovers(required: seq<Line>, supplies: seq<Supply>)
    requires PositiveDemand(required) && Covers(required, supplies)
    ensures Covers(required, Chosen(required, supplies))
  {
    ChosenIsMinimal(required, supplies);
  }
}
