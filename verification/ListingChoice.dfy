/**
 * Which warehouses are chosen for an order that can be covered: among the nearest smallest covers the one that comes
 * first in the sorted list, and exactly when that choice does not depend on the listing.
 */
module ListingChoice {
  import opened Sequences
  import opened Combinations
  import opened Planner
  import opened PlanSearch
  import opened Optimality
  import opened ListingOrder
  import opened Priority
  import opened Alternatives

  /** A covering set of warehouses, as few as possible and among equally few as near as possible. */
  ghost predicate Best(required: seq<Line>, all: seq<Supply>, x: set<Supply>) {
    && x <= Members(all) && Covers(required, Select(all, x))
    && forall y :: Covers(required, Select(all, y)) ==> NoBetter(Select(all, y), Select(all, x))
  }

  ghost predicate NoBetter(y: seq<Supply>, x: seq<Supply>) {
    |x| <= |y| && (|x| == |y| ==> Distance(x) <= Distance(y))
  }

  /** Some warehouse of `a` is nearer than all of `b`. */
  ghost predicate StartsNearer(a: set<Supply>, b: set<Supply>) {
    exists s :: s in a && forall x :: x in b ==> s.distance < x.distance
  }

  /** A best cover that, wherever it differs from another, starts nearer. */
  ghost predicate Undisputed(required: seq<Line>, all: seq<Supply>, x: set<Supply>) {
    && Best(required, all, x)
    && forall y :: Best(required, all, y) && y != x ==> StartsNearer(x - y, y - x)
  }

  /** The first warehouse of the list that is in one of the sets only is in `x`. */
  ghost predicate ComesFirst(sup: seq<Supply>, x: set<Supply>, y: set<Supply>) {
    exists i :: ComesFirstAt(sup, x, y, i)
  }

  ghost predicate ComesFirstAt(sup: seq<Supply>, x: set<Supply>, y: set<Supply>, i: int) {
    && 0 <= i < |sup| && sup[i] in x && sup[i] !in y
    && forall j :: 0 <= j < i ==> (sup[j] in x <==> sup[j] in y)
  }

  // ---------------------------------------------------------------- the first of the nearest covers

  lemma {:induction false} BestCoverIsFirst(required: seq<Line>, combos: seq<seq<Supply>>) returns (q: nat)
    requires BestCover(required, combos).Some?
    ensures q < |combos| && combos[q] == BestCover(required, combos).value
    ensures forall r :: 0 <= r < q && Covers(required, combos[r]) ==> Distance(combos[r]) > Distance(combos[q])
  {
    var init := combos[..|combos|-1];
    var best, c := BestCover(required, init), combos[|combos|-1];
    BestCoverIsNearest(required, init);
    if Covers(required, c) && (best.None? || Distance(c) < Distance(best.value)) {
      q := |combos| - 1;
      forall r | 0 <= r < q && Covers(required, combos[r]) ensures Distance(combos[r]) > Distance(combos[q]) {
        assert init[r] == combos[r] && combos[r] in init;
      }
    } else {
      q := BestCoverIsFirst(required, init);
      assert forall r :: 0 <= r <= q ==> init[r] == combos[r];
    }
  }

  lemma {:induction false} FewestIsBest(required: seq<Line>, sup: seq<Supply>, sz: int, max: int)
    requires FewestCover(required, sup, sz, max).Some?
    ensures var c := FewestCover(required, sup, sz, max).value; BestCover(required, Combos(sup, |c|)) == Some(c)
    decreases max - sz
  {
    var best := BestCover(required, Combos(sup, sz));
    if best.Some? {
      BestCoverIsGenerated(required, Combos(sup, sz));
      ComboMembers(sup, sz, best.value);
    } else {
      FewestIsBest(required, sup, sz + 1, max);
    }
  }

  lemma {:induction false} SingleIsFirst(required: seq<Line>, sup: seq<Supply>) returns (q: nat)
    requires SingleCandidate(required, sup).Some?
    ensures q < |sup| && sup[q] == SingleCandidate(required, sup).value
    ensures forall r :: 0 <= r < q ==> !Covers(required, [sup[r]])
  {
    if Covers(required, [sup[0]]) {
      q := 0;
    } else {
      var p := SingleIsFirst(required, sup[1..]);
      q := p + 1;
      assert forall r :: 1 <= r < q ==> sup[r] == sup[1..][r - 1];
    }
  }

  /** Of two combinations, the one generated first starts with the warehouse listed first. */
  lemma EarlierComesFirst(sup: seq<Supply>, k: int, q: nat, r: nat)
    requires Distinct(sup) && q < r < |Combos(sup, k)|
    ensures ComesFirst(sup, Members(Combos(sup, k)[q]), Members(Combos(sup, k)[r]))
  {
    var ts := Tuples(0, |sup|, k);
    TuplesAreCombinations(0, |sup|, k);
    TuplesAscend(0, |sup|, k);
    var t, u := ts[q], ts[r];
    assert LexLess(t, u);
    var p :| LexLessAt(t, u, p);
    SmallerComesFirst(sup, t, u, k, p);
  }

  lemma PickedIff(sup: seq<Supply>, t: seq<int>, k: nat, j: int)
    requires Distinct(sup) && IsCombination(t, 0, |sup|, k) && 0 <= j < |sup|
    ensures sup[j] in Members(Pick(sup, t)) <==> j in t
  {
    if sup[j] in Pick(sup, t) {
      var i :| 0 <= i < k && Pick(sup, t)[i] == sup[j];
      assert sup[t[i]] == sup[j];
    }
    if j in t {
      var i :| 0 <= i < k && t[i] == j;
      assert Pick(sup, t)[i] == sup[j];
    }
  }

  lemma SmallerComesFirst(sup: seq<Supply>, t: seq<int>, u: seq<int>, k: nat, p: int)
    requires Distinct(sup) && IsCombination(t, 0, |sup|, k) && IsCombination(u, 0, |sup|, k) && LexLessAt(t, u, p)
    ensures ComesFirst(sup, Members(Pick(sup, t)), Members(Pick(sup, u)))
  {
    var i := t[p];
    forall j | 0 <= j <= i ensures j in u <==> j != i && j in t {
      BelowTheDifference(t, u, |sup|, k, p, j);
    }
    forall j | 0 <= j <= i
      ensures sup[j] in Members(Pick(sup, t)) <==> j in t
      ensures sup[j] in Members(Pick(sup, u)) <==> j in u
    {
      PickedIff(sup, t, k, j);
      PickedIff(sup, u, k, j);
    }
    assert ComesFirstAt(sup, Members(Pick(sup, t)), Members(Pick(sup, u)), i);
  }

  lemma BelowTheDifference(t: seq<int>, u: seq<int>, n: nat, k: nat, p: int, j: int)
    requires IsCombination(t, 0, n, k) && IsCombination(u, 0, n, k) && LexLessAt(t, u, p) && 0 <= j <= t[p]
    ensures j in u <==> j != t[p] && j in t
  {
    if j in u {
      var i :| 0 <= i < k && u[i] == j;
      assert i < p;
      assert t[i] == j;
    }
    if j in t && j != t[p] {
      var i :| 0 <= i < k && t[i] == j;
      assert i < p;
      assert u[i] == j;
    }
  }

  // ---------------------------------------------------------------- the chosen warehouses come first

  lemma SameSelections(all: seq<Supply>, b: seq<Supply>, x: set<Supply>)
    requires multiset(b) == multiset(all)
    ensures |Select(b, x)| == |Select(all, x)| && Distance(Select(b, x)) == Distance(Select(all, x))
    ensures forall required :: Covers(required, Select(b, x)) <==> Covers(required, Select(all, x))
  {
    SelectPermuted(b, all, x);
    forall required ensures Covers(required, Select(b, x)) <==> Covers(required, Select(all, x)) {
      CoversPermuted(required, Select(b, x), Select(all, x));
    }
    CoversPermuted([], Select(b, x), Select(all, x));
  }

  /** What holds of every order for which the choice is discussed. */
  ghost predicate RealOrder(required: seq<Line>, all: seq<Supply>) {
    PositiveDemand(required) && Stocked(all) && DistinctWarehouses(all) && Covers(required, all)
  }

  lemma RealInAnyListing(required: seq<Line>, all: seq<Supply>, b: seq<Supply>)
    requires RealOrder(required, all) && multiset(b) == multiset(all)
    ensures RealOrder(required, b)
  {
    StockedPermuted(all, b);
    DistinctWarehousesPermuted(all, b);
    CoversPermuted(required, all, b);
  }

  /** In every listing a best cover is chosen. */
  lemma ChosenIsBest(required: seq<Line>, all: seq<Supply>, b: seq<Supply>)
    requires RealOrder(required, all) && multiset(b) == multiset(all)
    ensures Best(required, all, Members(Chosen(required, b)))
  {
    var x := Members(Chosen(required, b));
    RealInAnyListing(required, all, b);
    PlanIsASelection(required, b);
    ChosenMembers(required, b);
    SamePermutedMembers(all, b);
    SameSelections(all, b, x);
    forall y | Covers(required, Select(all, y)) ensures NoBetter(Select(all, y), Select(all, x)) {
      SameSelections(all, b, y);
      PlanBeatsEverySelection(required, b, y);
    }
  }

  lemma BestAreAlike(required: seq<Line>, all: seq<Supply>, x: set<Supply>, y: set<Supply>)
    requires Best(required, all, x) && Best(required, all, y)
    ensures |Select(all, x)| == |Select(all, y)| && Distance(Select(all, x)) == Distance(Select(all, y))
  {
    assert NoBetter(Select(all, y), Select(all, x)) && NoBetter(Select(all, x), Select(all, y));
  }

  /** A best cover, selected from the sorted list, is one of the combinations that compete with the chosen one. */
  lemma CompetitorIsGenerated(required: seq<Line>, all: seq<Supply>, sup: seq<Supply>, y: set<Supply>)
    requires PositiveDemand(required) && multiset(sup) == multiset(all) && Distinct(sup) && Best(required, all, y)
    ensures var d := Select(sup, y);
      d != [] && d in Combos(sup, |d|) && Covers(required, d) && Members(d) == y
  {
    SameSelections(all, sup, y);
    NothingCoversNothing(required);
    SelectionIsGenerated(sup, y);
    SelectMembers(sup, y);
    SamePermutedMembers(all, sup);
  }

  lemma ChosenIsFirst(required: seq<Line>, all: seq<Supply>, b: seq<Supply>) returns (q: nat)
    requires RealOrder(required, all) && multiset(b) == multiset(all)
    ensures var sup, c := SortBy(Kilometres(), b), Chosen(required, b);
      && q < |Combos(sup, |c|)| && Combos(sup, |c|)[q] == c
      && forall r :: 0 <= r < q && Covers(required, Combos(sup, |c|)[r]) ==>
           Distance(Combos(sup, |c|)[r]) > Distance(c)
  {
    var sup, c := SortBy(Kilometres(), b), Chosen(required, b);
    RealInAnyListing(required, all, b);
    if SingleCandidate(required, sup).Some? {
      q := SingleIsFirst(required, sup);
      SinglesInOrder(sup);
    } else {
      FewestExists(required, b);
      FewestIsBest(required, sup, 2, |sup|);
      q := BestCoverIsFirst(required, Combos(sup, |c|));
    }
  }

  lemma SinglesInOrder(sup: seq<Supply>)
    ensures |Combos(sup, 1)| == |sup| && forall i :: 0 <= i < |sup| ==> Combos(sup, 1)[i] == [sup[i]]
  {
    SingleTuples(0, |sup|);
  }

  lemma {:induction false} SingleTuples(lo: int, n: int)
    requires lo <= n
    ensures |Tuples(lo, n, 1)| == n - lo && forall i :: 0 <= i < n - lo ==> Tuples(lo, n, 1)[i] == [lo + i]
    decreases n - lo
  {
    if lo < n {
      SingleTuples(lo + 1, n);
      assert Tuples(lo + 1, n, 0) == [[]];
      assert [lo] + [] == [lo];
    }
  }

  lemma FewestExists(required: seq<Line>, b: seq<Supply>)
    requires PositiveDemand(required) && Covers(required, b)
    requires SingleCandidate(required, SortBy(Kilometres(), b)).None?
    ensures var sup := SortBy(Kilometres(), b); FewestCover(required, sup, 2, |sup|) == Some(Chosen(required, b))
  {
    var sup := SortBy(Kilometres(), b);
    SortBySorts(Kilometres(), b);
    CoversPermuted(required, b, sup);
    NothingCoversNothing(required);
    SingleCandidateIsNearest(required, sup);
    NoSingleCovers(required, sup);
    FewestCoverIsMinimal(required, sup);
  }

  /** In every listing the chosen cover comes before every other best one. */
  lemma ChosenComesFirst(required: seq<Line>, all: seq<Supply>, b: seq<Supply>, y: set<Supply>)
    requires RealOrder(required, all) && multiset(b) == multiset(all)
    requires Best(required, all, y) && y != Members(Chosen(required, b))
    ensures ComesFirst(SortBy(Kilometres(), b), Members(Chosen(required, b)), y)
  {
    var sup, c := SortBy(Kilometres(), b), Chosen(required, b);
    SortedListing(all, b);
    ChosenIsBest(required, all, b);
    BestAreAlike(required, all, Members(c), y);
    CompetitorIsGenerated(required, all, sup, y);
    CompetitorIsGenerated(required, all, sup, Members(c));
    SameSelections(all, sup, y);
    SameSelections(all, sup, Members(c));
    var q := ChosenIsFirst(required, all, b);
    GeneratedIsSelection(sup, |c|, c);
    var d := Select(sup, y);
    var r :| 0 <= r < |Combos(sup, |d|)| && Combos(sup, |d|)[r] == d;
    assert q <= r && q != r;
    EarlierComesFirst(sup, |c|, q, r);
  }

  lemma SortedListing(all: seq<Supply>, b: seq<Supply>)
    requires DistinctWarehouses(all) && multiset(b) == multiset(all)
    ensures var sup := SortBy(Kilometres(), b);
      multiset(sup) == multiset(all) && Distinct(sup) && Ascending(Kilometres(), sup)
  {
    var sup := SortBy(Kilometres(), b);
    SortBySorts(Kilometres(), b);
    DistinctSupplies(all);
    DistinctPermuted(all, sup);
  }

  // ---------------------------------------------------------------- undisputed means chosen

  /** What comes later in a sorted list does not start nearer. */
  lemma LaterStartsNoNearer(sup: seq<Supply>, x: set<Supply>, y: set<Supply>)
    requires Ascending(Kilometres(), sup) && x <= Members(sup) && ComesFirst(sup, y, x)
    ensures !StartsNearer(x - y, y - x)
  {
    var i :| ComesFirstAt(sup, y, x, i);
    assert sup[i] in y - x;
    forall s | s in x - y ensures sup[i].distance <= s.distance {
      var j :| 0 <= j < |sup| && sup[j] == s;
      assert i < j;
      assert Kilometres()(sup[i]) <= Kilometres()(sup[j]);
    }
  }

  lemma UndisputedIsChosen(required: seq<Line>, all: seq<Supply>, b: seq<Supply>, x: set<Supply>)
    requires RealOrder(required, all) && multiset(b) == multiset(all) && Undisputed(required, all, x)
    ensures Members(Chosen(required, b)) == x
  {
    var y := Members(Chosen(required, b));
    ChosenIsBest(required, all, b);
    if y != x {
      ChosenComesFirst(required, all, b, x);
      SortedListing(all, b);
      SamePermutedMembers(all, SortBy(Kilometres(), b));
      LaterStartsNoNearer(SortBy(Kilometres(), b), x, y);
      assert false;
    }
  }

  // ---------------------------------------------------------------- disputed means it depends

  lemma {:induction false} NearestOf(group: set<Supply>) returns (s: Supply)
    requires group != {}
    ensures s in group && forall x :: x in group ==> s.distance <= x.distance
    decreases |group|
  {
    s :| s in group;
    if group != {s} {
      var t := NearestOf(group - {s});
      assert forall x :: x in group ==> x == s || x in group - {s};
      if t.distance < s.distance { s := t; }
    }
  }

  lemma {:induction false} SelectSize(all: seq<Supply>, x: set<Supply>)
    requires Distinct(all) && x <= Members(all)
    ensures |Select(all, x)| == |x|
    decreases |all|
  {
    if all == [] {
      assert x == {};
    } else {
      var init, s := all[..|all|-1], all[|all|-1];
      assert forall y :: y in all ==> y == s || y in init;
      SelectAgrees(init, x, x - {s});
      SelectSize(init, x - {s});
      if s in x { assert x == (x - {s}) + {s}; } else { assert x - {s} == x; }
    }
  }

  /** In some listing `x` comes before `y` only if it starts nearer. */
  lemma DisputeDecidedByListing(all: seq<Supply>, x: set<Supply>, y: set<Supply>) returns (b: seq<Supply>)
    requires DistinctWarehouses(all) && y <= Members(all) && y - x != {}
    ensures multiset(b) == multiset(all)
    ensures ComesFirst(SortBy(Kilometres(), b), x, y) ==> StartsNearer(x - y, y - x)
  {
    var s := NearestOf(y - x);
    var rest := Others(all, s);
    b := [s] + rest;
    var sup := SortBy(Kilometres(), b);
    SortedListing(all, b);
    var i := SortedFirst(Kilometres(), s, rest);
    if ComesFirst(sup, x, y) {
      var k :| ComesFirstAt(sup, x, y, k);
      assert k < i;
      assert Kilometres()(sup[k]) < Kilometres()(s);
      assert sup[k] in x - y && forall z :: z in y - x ==> sup[k].distance < z.distance;
    }
  }

  lemma AlwaysChosenIsUndisputed(required: seq<Line>, all: seq<Supply>)
    requires RealOrder(required, all)
    requires forall b :: multiset(b) == multiset(all) ==>
      Members(Chosen(required, b)) == Members(Chosen(required, all))
    ensures Undisputed(required, all, Members(Chosen(required, all)))
  {
    var x := Members(Chosen(required, all));
    ChosenIsBest(required, all, all);
    DistinctSupplies(all);
    forall y | Best(required, all, y) && y != x ensures StartsNearer(x - y, y - x) {
      BestAreAlike(required, all, x, y);
      SelectSize(all, x);
      SelectSize(all, y);
      SomethingNew(x, y);
      var b := DisputeDecidedByListing(all, x, y);
      ChosenComesFirst(required, all, b, y);
    }
  }

  lemma SomethingNew<T>(x: set<T>, y: set<T>)
    requires |x| == |y| && x != y
    ensures y - x != {}
  {
    if y <= x {
      SubsetOfSameSize(y, x);
      assert false;
    }
    var z :| z in y && z !in x;
    assert z in y - x;
  }

  // ---------------------------------------------------------------- main result

  /**
   * The chosen warehouses of an order that can be covered are the same in every listing exactly when one of the best
   * covers starts nearer than every other where the two differ.
   */
  lemma ChoiceIsFreeIff(required: seq<Line>, all: seq<Supply>)
    requires PositiveDemand(required) && Stocked(all) && DistinctWarehouses(all) && Covers(required, all)
    ensures (exists x :: Undisputed(required, all, x)) <==>
      forall b :: multiset(b) == multiset(all) ==>
        Members(Chosen(required, b)) == Members(Chosen(required, all))
  {
    if exists x :: Undisputed(required, all, x) {
      var x :| Undisputed(required, all, x);
      forall b: seq<Supply> | multiset(b) == multiset(all)
        ensures Members(Chosen(required, b)) == Members(Chosen(required, all))
      {
        UndisputedIsChosen(required, all, b, x);
        UndisputedIsChosen(required, all, all, x);
      }
    }
    if forall b :: multiset(b) == multiset(all) ==> Members(Chosen(required, b)) == Members(Chosen(required, all)) {
      AlwaysChosenIsUndisputed(required, all);
    }
  }
}
