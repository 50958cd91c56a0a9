/**
 * What each warehouse ships in a plan of the planner and in a re-plan on chosen warehouses: at most one part, with at
 * most one line a material, and never more of a material than it holds.
 */
module Shipments {
  import opened Sequences
  import opened Planner
  import opened PlanSearch
  import opened Optimality
  import opened Fulfilment
  import opened Priority
  import opened Alternatives

  // ---------------------------------------------------------------- each part is within its warehouse

  ghost predicate OneLinePerKey(lines: seq<Line>) {
    forall i, j :: 0 <= i < j < |lines| ==> lines[i].key != lines[j].key
  }

  ghost predicate WithinStock(lines: seq<Line>, s: Supply) {
    forall i :: 0 <= i < |lines| ==> 0 < lines[i].quantity <= Stock(s, lines[i].key)
  }

  ghost predicate KeysFrom(lines: seq<Line>, required: seq<Line>) {
    forall i :: 0 <= i < |lines| ==> lines[i].key in Keys(required)
  }

  lemma {:induction false} PartLinesWithinStock(required: seq<Line>, before: seq<Supply>, s: Supply)
    requires DistinctKeys(required) && Stocked(before) && Stocked([s])
    ensures WithinStock(PartLines(required, before, s), s)
    ensures KeysFrom(PartLines(required, before, s), required)
    ensures OneLinePerKey(PartLines(required, before, s))
  {
    if required != [] {
      var init, l := required[..|required|-1], required[|required|-1];
      var lines := PartLines(init, before, s);
      PartLinesWithinStock(init, before, s);
      ShippedInRange(before, s, l);
      assert Keys(required) == Keys(init) + [l.key];
      assert forall i :: 0 <= i < |lines| ==> lines[i].key != l.key;
    }
  }

  /** A part taken from warehouse `s`: its identity, one line a material, each within the stock. */
  ghost predicate SoundPart(p: Part, s: Supply) {
    && p.warehouseId == s.warehouseId && p.distance == s.distance
    && OneLinePerKey(p.lines) && WithinStock(p.lines, s)
  }

  ghost predicate SoundFrom(p: Part, supplies: seq<Supply>) {
    exists s :: s in supplies && SoundPart(p, s)
  }

  lemma {:induction false} PartsAreSound(required: seq<Line>, c: seq<Supply>)
    requires DistinctKeys(required) && Stocked(c)
    ensures forall p :: p in Parts(required, c) ==> SoundFrom(p, c)
  {
    if c != [] {
      var before, s := c[..|c|-1], c[|c|-1];
      StockedSplit(c);
      PartsAreSound(required, before);
      PartLinesWithinStock(required, before, s);
      assert c == before + [s];
      forall p | p in Parts(required, c) ensures SoundFrom(p, c) {
        if p in Parts(required, before) {
          var x :| x in before && SoundPart(p, x);
          assert x in c;
        } else {
          assert s in c && SoundPart(p, s);
        }
      }
    }
  }

  // ---------------------------------------------------------------- one part for each warehouse

  ghost predicate OnePartEach(parts: seq<Part>) {
    forall i, j :: 0 <= i < j < |parts| ==> parts[i].warehouseId != parts[j].warehouseId
  }

  lemma {:induction false} PartsOfDifferentWarehouses(required: seq<Line>, c: seq<Supply>)
    requires DistinctWarehouses(c)
    ensures OnePartEach(Parts(required, c))
    ensures forall p :: p in Parts(required, c) ==> exists i :: 0 <= i < |c| && c[i].warehouseId == p.warehouseId
  {
    if c != [] {
      var before := c[..|c|-1];
      PartsOfDifferentWarehouses(required, before);
      forall p | p in Parts(required, c) ensures exists i :: 0 <= i < |c| && c[i].warehouseId == p.warehouseId {
        if p in Parts(required, before) {
          var i :| 0 <= i < |before| && before[i].warehouseId == p.warehouseId;
          assert c[i].warehouseId == p.warehouseId;
        }
      }
    }
  }

  // ---------------------------------------------------------------- all the shipments of one warehouse

  lemma {:induction false} OtherKeysShipNothing(required: seq<Line>, c: seq<Supply>, id: string, key: string)
    requires forall i :: 0 <= i < |required| ==> required[i].key != key
    ensures Sum(CarriedFrom(id, key), Parts(required, c)) == 0
  {
    if c != [] {
      var before, s := c[..|c|-1], c[|c|-1];
      OtherKeysShipNothing(required, before, id, key);
      OtherKeysCarryNothing(required, before, s, key);
      FromWarehouseStep(required, c, id, key);
    }
  }

  /** In a greedy fill a warehouse ships no more of any material than it holds. */
  lemma FillWithinStock(required: seq<Line>, c: seq<Supply>, i: nat, key: string)
    requires DistinctKeys(required) && Stocked(c) && DistinctWarehouses(c) && i < |c|
    ensures 0 <= DeliveredFrom(FillPlan(required, c), c[i].warehouseId, key) <= Stock(c[i], key)
  {
    TotalNonNegative(c[..i], key);
    assert c[i] in c;
    if n :| 0 <= n < |required| && required[n].key == key {
      FromWarehouse(required, c, i, n);
      ShippedWithin(required[n].quantity, Total(c[..i], key), Stock(c[i], key));
    } else {
      OtherKeysShipNothing(required, c, c[i].warehouseId, key);
    }
  }

  lemma ShippedWithin(quantity: int, before: int, stock: int)
    requires before >= 0 && stock >= 0
    ensures 0 <= Shipped(quantity, before, stock) <= stock
  {}

  // ---------------------------------------------------------------- the plans of the planner

  /** Every part of a plan comes from a known warehouse and stays within what it holds; no warehouse has two. */
  lemma PlanRespectsStock(required: seq<Line>, supplies: seq<Supply>)
    requires DistinctKeys(required) && Stocked(supplies)
    ensures forall p :: p in Planned(required, supplies).parts ==> SoundFrom(p, supplies)
    ensures DistinctWarehouses(supplies) ==> OnePartEach(Planned(required, supplies).parts)
  {
    if PositiveDemand(required) {
      var c := Chosen(required, supplies);
      PlannedIsFill(required, supplies);
      ChosenMembers(required, supplies);
      ChosenIsStocked(required, supplies);
      PartsAreSound(required, c);
      if DistinctWarehouses(supplies) {
        ChosenInOrder(required, supplies);
        PartsOfDifferentWarehouses(required, c);
      }
      forall p | p in Parts(required, c) ensures SoundFrom(p, supplies) {
        var x :| x in c && SoundPart(p, x);
        assert x in supplies;
      }
    } else if supplies != [] {
      NoDemandPlan(required, supplies);
      var sup := SortBy(Kilometres(), supplies);
      SortByMembers(Kilometres(), supplies);
      SortBySorts(Kilometres(), supplies);
      assert Covers(required, [sup[0]]);
      assert sup[0] in supplies && SoundPart(Planned(required, supplies).parts[0], sup[0]);
    } else {
      NoDemandPlan(required, supplies);
    }
  }

  /** No warehouse ships more of a material than it holds, over the whole plan. */
  lemma ShipmentsWithinStock(required: seq<Line>, supplies: seq<Supply>, s: Supply, key: string)
    requires DistinctKeys(required) && Stocked(supplies) && DistinctWarehouses(supplies) && s in supplies
    ensures 0 <= DeliveredFrom(Planned(required, supplies), s.warehouseId, key) <= Stock(s, key)
  {
    if PositiveDemand(required) {
      PlannedIsFill(required, supplies);
      ChosenMembers(required, supplies);
      ChosenInOrder(required, supplies);
      ChosenIsStocked(required, supplies);
      MembersShipWithinStock(required, supplies, Chosen(required, supplies), s, key);
    } else {
      NoDemandPlan(required, supplies);
      EmptyPartShips(Planned(required, supplies).parts, s.warehouseId, key);
    }
  }

  lemma MembersShipWithinStock(required: seq<Line>, supplies: seq<Supply>, c: seq<Supply>, s: Supply, key: string)
    requires DistinctKeys(required) && Stocked(supplies) && DistinctWarehouses(supplies) && s in supplies
    requires DistinctWarehouses(c) && Stocked(c) && forall x :: x in c ==> x in supplies
    ensures 0 <= DeliveredFrom(FillPlan(required, c), s.warehouseId, key) <= Stock(s, key)
  {
    if i :| 0 <= i < |c| && c[i].warehouseId == s.warehouseId {
      assert c[i] in c;
      SameIdSameSupply(supplies, s, c[i]);
      FillWithinStock(required, c, i, key);
    } else {
      OtherWarehousesCarryNothing(required, c, s.warehouseId, key);
    }
  }

  lemma EmptyPartShips(parts: seq<Part>, id: string, key: string)
    requires |parts| <= 1 && forall p :: p in parts ==> p.lines == []
    ensures Sum(CarriedFrom(id, key), parts) == 0
  {
    if parts != [] {
      SumSnoc(CarriedFrom(id, key), [], parts[0]);
      assert [] + [parts[0]] == parts;
    }
  }

  // ---------------------------------------------------------------- the re-plans

  lemma ReplanOrderIsSound(supplies: seq<Supply>, warehouseIds: seq<string>)
    requires Stocked(supplies) && DistinctWarehouses(supplies)
    ensures var c := ReplanOrder(supplies, warehouseIds);
      && Ascending(Kilometres(), c) && DistinctWarehouses(c) && Stocked(c)
      && forall s :: s in c <==> s in supplies && s.warehouseId in warehouseIds
  {
    var ids := IdSet(warehouseIds);
    var ch := WithIds(supplies, ids);
    WithIdsMembers(supplies, ids);
    WithIdsDistinct(supplies, ids);
    SortBySorts(Kilometres(), ch);
    SortByMembers(Kilometres(), ch);
    DistinctWarehousesPermuted(ch, SortBy(Kilometres(), ch));
  }

  /** A re-plan, too, has one sound part a warehouse, and nobody ships more than it holds. */
  lemma ReplanRespectsStock(required: seq<Line>, supplies: seq<Supply>, warehouseIds: seq<string>, s: Supply,
      key: string)
    requires DistinctKeys(required) && Stocked(supplies) && DistinctWarehouses(supplies) && s in supplies
    requires Replanned(required, supplies, warehouseIds).Some?
    ensures var plan := Replanned(required, supplies, warehouseIds).value;
      && OnePartEach(plan.parts) && (forall p :: p in plan.parts ==> SoundFrom(p, supplies))
      && 0 <= DeliveredFrom(plan, s.warehouseId, key) <= Stock(s, key)
  {
    var c := ReplanOrder(supplies, warehouseIds);
    ReplanOrderIsSound(supplies, warehouseIds);
    ReplanIsFill(required, supplies, warehouseIds);
    PartsAreSound(required, c);
    PartsOfDifferentWarehouses(required, c);
    MembersShipWithinStock(required, supplies, c, s, key);
    forall p | p in Parts(required, c) ensures SoundFrom(p, supplies) {
      var x :| x in c && SoundPart(p, x);
      assert x in supplies;
    }
  }

  /** In a re-plan nearer warehouses are emptied first, and the parts are in non-decreasing distance. */
  lemma ReplanEmptiesNearerFirst(
    required: seq<Line>, supplies: seq<Supply>, warehouseIds: seq<string>, i: nat, j: nat, n: nat)
    requires DistinctKeys(required) && Stocked(supplies) && DistinctWarehouses(supplies)
    requires Replanned(required, supplies, warehouseIds).Some?
    requires i < j < |ReplanOrder(supplies, warehouseIds)| && n < |required|
    ensures var plan, c := Replanned(required, supplies, warehouseIds).value, ReplanOrder(supplies, warehouseIds);
      var key := required[n].key;
      && Ascending(PartKilometres(), plan.parts) && c[i].distance <= c[j].distance
      && (DeliveredFrom(plan, c[j].warehouseId, key) > 0 ==>
            DeliveredFrom(plan, c[i].warehouseId, key) == Stock(c[i], key))
  {
    var c := ReplanOrder(supplies, warehouseIds);
    ReplanOrderIsSound(supplies, warehouseIds);
    ReplanIsFill(required, supplies, warehouseIds);
    PartsInOrder(required, c);
    EmptiedFirst(required, c, i, j, n);
  }
}
