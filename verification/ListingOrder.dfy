/**
 * Which warehouses serve an order that cannot be covered, when some are equally far away: exactly when the listing
 * order decides it, and that part count and score follow when it does not.
 */
module ListingOrder {
  import opened Sequences
  import opened Combinations
  import opened Planner
  import opened PlanSearch
  import opened Optimality
  import opened Fulfilment
  import opened Priority

  /** The warehouses visited before `s` in every listing. */
  ghost function Nearer(all: seq<Supply>, s: Supply): set<Supply> {
    set x | x in all && x.distance < s.distance
  }

  /** The warehouses visited before `s` in some listing. */
  ghost function Rivals(all: seq<Supply>, s: Supply): set<Supply> {
    set x | x in all && x.distance <= s.distance && x != s
  }

  /** Something `s` holds is still wanted when the warehouses in `ahead` have nothing left. */
  ghost predicate StillWanted(required: seq<Line>, ahead: seq<Supply>, s: Supply) {
    exists n :: 0 <= n < |required| && Stock(s, required[n].key) > 0
        && required[n].quantity > Total(ahead, required[n].key)
  }

  /**
   * No warehouse can be emptied of its turn by equally distant ones: if it serves when visited first, it serves when
   * last.
   */
  ghost predicate PlaceNeverMatters(required: seq<Line>, all: seq<Supply>) {
    forall s :: s in all && StillWanted(required, Select(all, Nearer(all, s)), s) ==>
      StillWanted(required, Select(all, Rivals(all, s)), s)
  }

  /** The warehouses a plan ships from. */
  ghost function Serving(plan: Plan): set<string> {
    PartIds(plan.parts)
  }

  ghost function PartIds(parts: seq<Part>): set<string> {
    set p | p in parts :: p.warehouseId
  }

  ghost function WarehouseIds(c: seq<Supply>): set<string> {
    set s | s in c :: s.warehouseId
  }

  // ---------------------------------------------------------------- when a visited warehouse ships

  lemma {:induction false} ShipsIff(required: seq<Line>, before: seq<Supply>, s: Supply)
    requires Stocked(before) && Stocked([s])
    ensures PartLines(required, before, s) != [] <==> StillWanted(required, before, s)
  {
    if required != [] {
      var init, l := required[..|required|-1], required[|required|-1];
      ShipsIff(init, before, s);
      assert s in [s];
      TotalNonNegative(before, l.key);
      assert StillWanted(required, before, s) <==>
        StillWanted(init, before, s) || (Stock(s, l.key) > 0 && l.quantity > Total(before, l.key)) by {
        if StillWanted(init, before, s) {
          var n :| 0 <= n < |init| && Stock(s, init[n].key) > 0 && init[n].quantity > Total(before, init[n].key);
          assert required[n] == init[n];
        }
      }
    }
  }

  lemma SelectAhead(c: seq<Supply>, i: nat)
    requires Distinct(c) && i <= |c|
    ensures Select(c, Members(c[..i])) == c[..i]
  {
    var ahead, rest := c[..i], c[i..];
    SplitAt(c, i);
    SelectConcat(ahead, rest, Members(ahead));
    SelectAll(ahead, Members(ahead));
    SelectNone(rest, Members(ahead));
  }

  lemma AheadTotal(all: seq<Supply>, c: seq<Supply>, i: nat, key: string)
    requires Distinct(all) && multiset(c) == multiset(all) && i <= |c|
    ensures Total(c[..i], key) == Total(Select(all, Members(c[..i])), key)
  {
    DistinctPermuted(all, c);
    SelectAhead(c, i);
    SelectPermuted(all, c, Members(c[..i]));
    SumPermuted(StockOf(key), Select(all, Members(c[..i])), c[..i]);
  }

  lemma {:induction false} MoreAhead(all: seq<Supply>, small: set<Supply>, big: set<Supply>, key: string)
    requires Stocked(all) && small <= big
    ensures Total(Select(all, small), key) <= Total(Select(all, big), key)
  {
    if all != [] {
      var init, s := all[..|all|-1], all[|all|-1];
      MoreAhead(init, small, big, key);
      TotalSnoc(Select(init, small), s, key);
      TotalSnoc(Select(init, big), s, key);
    }
  }

  lemma WantedWithFewerAhead(required: seq<Line>, all: seq<Supply>, small: set<Supply>, big: set<Supply>, s: Supply)
    requires Stocked(all) && small <= big && StillWanted(required, Select(all, big), s)
    ensures StillWanted(required, Select(all, small), s)
  {
    var n :| 0 <= n < |required| && Stock(s, required[n].key) > 0
        && required[n].quantity > Total(Select(all, big), required[n].key);
    MoreAhead(all, small, big, required[n].key);
  }

  /** In a listing sorted by distance, what is ahead decides whether a warehouse ships. */
  lemma ShipsAtPlace(required: seq<Line>, all: seq<Supply>, c: seq<Supply>, i: nat)
    requires Stocked(all) && Distinct(all) && multiset(c) == multiset(all) && i < |c|
    ensures PartLines(required, c[..i], c[i]) != [] <==> StillWanted(required, Select(all, Members(c[..i])), c[i])
  {
    StockedPermuted(all, c);
    ShipsIff(required, c[..i], c[i]);
    forall n | 0 <= n < |required|
      ensures Total(c[..i], required[n].key) == Total(Select(all, Members(c[..i])), required[n].key)
    {
      AheadTotal(all, c, i, required[n].key);
    }
  }

  lemma AheadBounds(all: seq<Supply>, c: seq<Supply>, i: nat)
    requires Distinct(all) && multiset(c) == multiset(all) && i < |c| && Ascending(Kilometres(), c)
    ensures c[i] in all && Nearer(all, c[i]) <= Members(c[..i]) <= Rivals(all, c[i])
  {
    DistinctPermuted(all, c);
    SamePermutedMembers(all, c);
    forall x | x in Nearer(all, c[i]) ensures x in c[..i] {
      var j :| 0 <= j < |c| && c[j] == x;
      assert Kilometres()(c[j]) < Kilometres()(c[i]);
    }
    forall x | x in c[..i] ensures x in Rivals(all, c[i]) {
      var j :| 0 <= j < i && c[j] == x;
      assert Kilometres()(c[j]) <= Kilometres()(c[i]);
    }
  }

  lemma SamePermutedMembers<T>(a: seq<T>, b: seq<T>)
    requires multiset(a) == multiset(b)
    ensures forall x :: x in a <==> x in b
  {
    forall x ensures x in a <==> x in b {
      assert x in a <==> x in multiset(a);
      assert x in b <==> x in multiset(b);
    }
  }

  // ---------------------------------------------------------------- who serves

  /** When the warehouses that ship on a visit are those of `keep`, the parts are theirs. */
  lemma {:induction false} PartsOf(required: seq<Line>, c: seq<Supply>, keep: set<Supply>)
    requires forall i :: 0 <= i < |c| ==> (PartLines(required, c[..i], c[i]) != [] <==> c[i] in keep)
    ensures |Parts(required, c)| == |Select(c, keep)|
    ensures Sum(PartKilometres(), Parts(required, c)) == Distance(Select(c, keep))
    ensures PartIds(Parts(required, c)) == WarehouseIds(Select(c, keep))
  {
    if c != [] {
      var before, s := c[..|c|-1], c[|c|-1];
      forall i | 0 <= i < |before| ensures PartLines(required, before[..i], before[i]) != [] <==> before[i] in keep {
        assert before[..i] == c[..i];
      }
      PartsOf(required, before, keep);
      assert PartLines(required, c[..|c|-1], c[|c|-1]) != [] <==> c[|c|-1] in keep;
      if s in keep {
        SumSnoc(PartKilometres(), Parts(required, before),
            Part(s.warehouseId, s.distance, PartLines(required, before, s)));
        SumSnoc(Kilometres(), Select(before, keep), s);
        IdsSnoc(Parts(required, before), Select(before, keep),
            Part(s.warehouseId, s.distance, PartLines(required, before, s)), s);
      }
    }
  }

  lemma IdsSnoc(parts: seq<Part>, c: seq<Supply>, p: Part, s: Supply)
    requires PartIds(parts) == WarehouseIds(c) && p.warehouseId == s.warehouseId
    ensures PartIds(parts + [p]) == WarehouseIds(c + [s])
  {
    assert PartIds(parts + [p]) == PartIds(parts) + {p.warehouseId};
    assert WarehouseIds(c + [s]) == WarehouseIds(c) + {s.warehouseId};
  }

  /** The warehouses that ship when `c` is visited in order. */
  ghost function Shipping(required: seq<Line>, c: seq<Supply>): set<Supply> {
    set j | 0 <= j < |c| && PartLines(required, c[..j], c[j]) != [] :: c[j]
  }

  lemma ShippingIff(required: seq<Line>, c: seq<Supply>, i: nat)
    requires Distinct(c) && i < |c|
    ensures PartLines(required, c[..i], c[i]) != [] <==> c[i] in Shipping(required, c)
  {
    if c[i] in Shipping(required, c) {
      var j :| 0 <= j < |c| && PartLines(required, c[..j], c[j]) != [] && c[j] == c[i];
      assert j == i;
    }
  }

  lemma ServingIff(required: seq<Line>, c: seq<Supply>, i: nat)
    requires DistinctWarehouses(c) && i < |c|
    ensures c[i].warehouseId in Serving(FillPlan(required, c)) <==> PartLines(required, c[..i], c[i]) != []
  {
    DistinctSupplies(c);
    var keep := Shipping(required, c);
    forall j | 0 <= j < |c| ensures PartLines(required, c[..j], c[j]) != [] <==> c[j] in keep {
      ShippingIff(required, c, j);
    }
    PartsOf(required, c, keep);
    IdSelectedIff(c, keep, i);
  }

  lemma IdSelectedIff(c: seq<Supply>, keep: set<Supply>, i: nat)
    requires DistinctWarehouses(c) && i < |c|
    ensures c[i].warehouseId in WarehouseIds(Select(c, keep)) <==> c[i] in keep
  {
    SelectMembers(c, keep);
  }

  lemma UncoveredPlan(required: seq<Line>, all: seq<Supply>, b: seq<Supply>)
    requires Stocked(all) && !Covers(required, all) && multiset(b) == multiset(all)
    ensures Planned(required, b) == FillPlan(required, SortBy(Kilometres(), b))
    ensures Ascending(Kilometres(), SortBy(Kilometres(), b)) && multiset(SortBy(Kilometres(), b)) == multiset(all)
  {
    StockedPermuted(all, b);
    CoversPermuted(required, all, b);
    UncoveredChoosesAll(required, b);
    PlannedIsFill(required, b);
    SortBySorts(Kilometres(), b);
  }

  // ---------------------------------------------------------------- when the place never matters

  ghost function ServesFirst(required: seq<Line>, all: seq<Supply>): set<Supply> {
    set s | s in all && StillWanted(required, Select(all, Nearer(all, s)), s)
  }

  lemma SortedServes(required: seq<Line>, all: seq<Supply>, c: seq<Supply>, i: nat)
    requires Stocked(all) && Distinct(all) && PlaceNeverMatters(required, all)
    requires multiset(c) == multiset(all) && Ascending(Kilometres(), c) && i < |c|
    ensures PartLines(required, c[..i], c[i]) != [] <==> c[i] in ServesFirst(required, all)
  {
    var ahead := Members(c[..i]);
    ShipsAtPlace(required, all, c, i);
    AheadBounds(all, c, i);
    if StillWanted(required, Select(all, ahead), c[i]) {
      WantedWithFewerAhead(required, all, Nearer(all, c[i]), ahead, c[i]);
    }
    if c[i] in ServesFirst(required, all) {
      WantedWithFewerAhead(required, all, ahead, Rivals(all, c[i]), c[i]);
    }
  }

  /** Then every listing is served by the same warehouses, in as many parts and at the same score. */
  lemma SameServersSamePlanSize(required: seq<Line>, all: seq<Supply>, b: seq<Supply>)
    requires Stocked(all) && DistinctWarehouses(all) && !Covers(required, all)
    requires PlaceNeverMatters(required, all) && multiset(b) == multiset(all)
    ensures Serving(Planned(required, b)) == Serving(Planned(required, all))
    ensures |Planned(required, b).parts| == |Planned(required, all).parts|
    ensures Planned(required, b).score == Planned(required, all).score
  {
    var keep := ServesFirst(required, all);
    SortedPlan(required, all, all);
    SortedPlan(required, all, b);
    var ca, cb := SortBy(Kilometres(), all), SortBy(Kilometres(), b);
    SelectPermuted(ca, cb, keep);
    PermutedLength(Select(ca, keep), Select(cb, keep));
    SumPermuted(Kilometres(), Select(ca, keep), Select(cb, keep));
    SamePermutedMembers(Select(ca, keep), Select(cb, keep));
  }

  lemma SortedPlan(required: seq<Line>, all: seq<Supply>, b: seq<Supply>)
    requires Stocked(all) && DistinctWarehouses(all) && !Covers(required, all)
    requires PlaceNeverMatters(required, all) && multiset(b) == multiset(all)
    ensures var c, keep, plan := SortBy(Kilometres(), b), ServesFirst(required, all), Planned(required, b);
      && multiset(c) == multiset(all)
      && |plan.parts| == |Select(c, keep)| && plan.score == Distance(Select(c, keep))
      && Serving(plan) == WarehouseIds(Select(c, keep))
  {
    var c, keep := SortBy(Kilometres(), b), ServesFirst(required, all);
    DistinctSupplies(all);
    UncoveredPlan(required, all, b);
    forall i | 0 <= i < |c| ensures PartLines(required, c[..i], c[i]) != [] <==> c[i] in keep {
      SortedServes(required, all, c, i);
    }
    PartsOf(required, c, keep);
  }

  // ---------------------------------------------------------------- when it does

  lemma {:induction false} InsertAt<T>(f: T -> int, x: T, t: seq<T>) returns (p: nat)
    ensures p <= |t| && Insert(f, x, t) == t[..p] + [x] + t[p..]
    ensures forall j :: 0 <= j < p ==> f(t[j]) < f(x)
    ensures p < |t| ==> f(x) <= f(t[p])
  {
    if t == [] || f(x) <= f(t[0]) {
      p := 0;
    } else {
      var q := InsertAt(f, x, t[1..]);
      p := q + 1;
      assert t[..p] == [t[0]] + t[1..][..q] && t[p..] == t[1..][q..];
    }
  }

  /** The warehouse listed last comes after all equally distant ones. */
  lemma {:induction false} SortedLast<T>(f: T -> int, t: seq<T>, x: T) returns (i: nat)
    ensures var c := SortBy(f, t + [x]); i < |c| && c[i] == x && forall j :: i < j < |c| ==> f(c[j]) > f(x)
  {
    if t == [] {
      i := 0;
      assert t + [x] == [x] && SortBy(f, [x][1..]) == [];
    } else {
      var c := SortBy(f, t[1..] + [x]);
      i := SortedLast(f, t[1..], x);
      assert (t + [x])[1..] == t[1..] + [x];
      var p := InsertAt(f, t[0], c);
      if p <= i { i := i + 1; }
    }
  }

  /** The warehouse listed first comes after the strictly nearer ones only. */
  lemma SortedFirst<T>(f: T -> int, x: T, t: seq<T>) returns (i: nat)
    ensures var c := SortBy(f, [x] + t); i < |c| && c[i] == x && forall j :: 0 <= j < i ==> f(c[j]) < f(x)
  {
    assert ([x] + t)[1..] == t;
    i := InsertAt(f, x, SortBy(f, t));
  }

  lemma ServesAt(required: seq<Line>, all: seq<Supply>, b: seq<Supply>, i: nat)
    requires Stocked(all) && DistinctWarehouses(all) && !Covers(required, all)
    requires multiset(b) == multiset(all) && i < |SortBy(Kilometres(), b)|
    ensures var c := SortBy(Kilometres(), b);
      c[i].warehouseId in Serving(Planned(required, b)) <==> StillWanted(required, Select(all, Members(c[..i])), c[i])
  {
    var c := SortBy(Kilometres(), b);
    DistinctSupplies(all);
    UncoveredPlan(required, all, b);
    DistinctWarehousesPermuted(all, c);
    ServingIff(required, c, i);
    ShipsAtPlace(required, all, c, i);
  }

  lemma AheadIsNearer(all: seq<Supply>, c: seq<Supply>, i: nat)
    requires Distinct(all) && multiset(c) == multiset(all) && i < |c| && Ascending(Kilometres(), c)
    requires forall j :: 0 <= j < i ==> Kilometres()(c[j]) < Kilometres()(c[i])
    ensures Members(c[..i]) == Nearer(all, c[i])
  {
    AheadBounds(all, c, i);
    SamePermutedMembers(all, c);
    forall x | x in c[..i] ensures x in Nearer(all, c[i]) {
      var j :| 0 <= j < i && c[j] == x;
      assert Kilometres()(c[j]) < Kilometres()(c[i]);
    }
  }

  lemma AheadIsRivals(all: seq<Supply>, c: seq<Supply>, i: nat)
    requires Distinct(all) && multiset(c) == multiset(all) && i < |c| && Ascending(Kilometres(), c)
    requires forall j :: i < j < |c| ==> Kilometres()(c[j]) > Kilometres()(c[i])
    ensures Members(c[..i]) == Rivals(all, c[i])
  {
    AheadBounds(all, c, i);
    SamePermutedMembers(all, c);
    forall x | x in Rivals(all, c[i]) ensures x in c[..i] {
      var j :| 0 <= j < |c| && c[j] == x;
      assert j <= i;
    }
  }

  lemma FirstServesIff(required: seq<Line>, all: seq<Supply>, b: seq<Supply>, i: nat)
    requires Stocked(all) && DistinctWarehouses(all) && !Covers(required, all)
    requires var c := SortBy(Kilometres(), b);
      multiset(b) == multiset(all) && i < |c| && forall j :: 0 <= j < i ==> Kilometres()(c[j]) < Kilometres()(c[i])
    ensures var s := SortBy(Kilometres(), b)[i];
      s.warehouseId in Serving(Planned(required, b)) <==> StillWanted(required, Select(all, Nearer(all, s)), s)
  {
    DistinctSupplies(all);
    UncoveredPlan(required, all, b);
    AheadIsNearer(all, SortBy(Kilometres(), b), i);
    ServesAt(required, all, b, i);
  }

  lemma LastServesIff(required: seq<Line>, all: seq<Supply>, b: seq<Supply>, i: nat)
    requires Stocked(all) && DistinctWarehouses(all) && !Covers(required, all)
    requires var c := SortBy(Kilometres(), b);
      multiset(b) == multiset(all) && i < |c| && forall j :: i < j < |c| ==> Kilometres()(c[j]) > Kilometres()(c[i])
    ensures var s := SortBy(Kilometres(), b)[i];
      s.warehouseId in Serving(Planned(required, b)) <==> StillWanted(required, Select(all, Rivals(all, s)), s)
  {
    DistinctSupplies(all);
    UncoveredPlan(required, all, b);
    AheadIsRivals(all, SortBy(Kilometres(), b), i);
    ServesAt(required, all, b, i);
  }

  lemma Others(all: seq<Supply>, s: Supply) returns (rest: seq<Supply>)
    requires s in all
    ensures multiset([s] + rest) == multiset(all) && multiset(rest + [s]) == multiset(all)
  {
    var k :| 0 <= k < |all| && all[k] == s;
    rest := all[..k] + all[k+1..];
    MultisetWithout(all, k);
  }

  /** A warehouse whose place matters serves one listing and not another. */
  lemma PlaceMatters(required: seq<Line>, all: seq<Supply>, s: Supply) returns (a: seq<Supply>, b: seq<Supply>)
    requires Stocked(all) && DistinctWarehouses(all) && !Covers(required, all) && s in all
    requires StillWanted(required, Select(all, Nearer(all, s)), s)
        && !StillWanted(required, Select(all, Rivals(all, s)), s)
    ensures multiset(a) == multiset(all) && s.warehouseId in Serving(Planned(required, a))
    ensures multiset(b) == multiset(all) && s.warehouseId !in Serving(Planned(required, b))
  {
    var rest := Others(all, s);
    a, b := [s] + rest, rest + [s];
    var i := SortedFirst(Kilometres(), s, rest);
    var j := SortedLast(Kilometres(), rest, s);
    FirstServesIff(required, all, a, i);
    LastServesIff(required, all, b, j);
  }

  // ---------------------------------------------------------------- main result

  /**
   * An order that cannot be covered is served by the same warehouses in every listing exactly when no place matters.
   */
  lemma ListingNeverMattersIff(required: seq<Line>, all: seq<Supply>)
    requires Stocked(all) && DistinctWarehouses(all) && !Covers(required, all)
    ensures PlaceNeverMatters(required, all) <==>
      forall b :: multiset(b) == multiset(all) ==> Serving(Planned(required, b)) == Serving(Planned(required, all))
  {
    if PlaceNeverMatters(required, all) {
      forall b: seq<Supply> | multiset(b) == multiset(all)
          ensures Serving(Planned(required, b)) == Serving(Planned(required, all)) {
        SameServersSamePlanSize(required, all, b);
      }
    } else {
      var s :| && s in all && StillWanted(required, Select(all, Nearer(all, s)), s)
               && !StillWanted(required, Select(all, Rivals(all, s)), s);
      var a, b := PlaceMatters(required, all, s);
      assert Serving(Planned(required, a)) != Serving(Planned(required, b));
    }
  }
}
