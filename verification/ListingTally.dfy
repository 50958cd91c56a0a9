/**
 * When part count and score of an order that cannot be covered do not depend on the listing: exactly when, at each
 * distance, every order of the equally distant warehouses ships from equally many. For the score, distance 0 is free.
 */
module ListingTally {
  import opened Sequences
  import opened Combinations
  import opened Planner
  import opened PlanSearch
  import opened ListingOrder

  // ---------------------------------------------------------------- counting the parts of a visit

  function Times(x: int, n: int): int {
    x * n
  }

  function Weighted(w: int -> int): Part -> int {
    (p: Part) => w(p.distance)
  }

  function One(): int -> int {
    (d: int) => 1
  }

  function Far(): int -> int {
    (d: int) => d
  }

  /** The weight of the parts that a visit of `g` adds after `ahead`. */
  function Tally(w: int -> int, required: seq<Line>, ahead: seq<Supply>, g: seq<Supply>): int {
    if g == [] then 0
    else
      var before, s := g[..|g|-1], g[|g|-1];
      var rest := Tally(w, required, ahead, before);
      if PartLines(required, ahead + before, s) != [] then rest + w(s.distance) else rest
  }

  lemma {:induction false} TallyIsSum(w: int -> int, required: seq<Line>, c: seq<Supply>)
    ensures Sum(Weighted(w), Parts(required, c)) == Tally(w, required, [], c)
  {
    if c != [] {
      var before, s := c[..|c|-1], c[|c|-1];
      TallyIsSum(w, required, before);
      assert [] + before == before;
      var part := Part(s.warehouseId, s.distance, PartLines(required, before, s));
      SumSnoc(Weighted(w), Parts(required, before), part);
    }
  }

  lemma {:induction false} SumOnes(parts: seq<Part>)
    ensures Sum(Weighted(One()), parts) == |parts|
  {
    if parts != [] { SumOnes(parts[..|parts|-1]); }
  }

  lemma {:induction false} SumFar(parts: seq<Part>)
    ensures Sum(Weighted(Far()), parts) == Sum(PartKilometres(), parts)
  {
    if parts != [] { SumFar(parts[..|parts|-1]); }
  }

  function Added(w: int -> int, required: seq<Line>, ahead: seq<Supply>, s: Supply): int {
    if PartLines(required, ahead, s) != [] then w(s.distance) else 0
  }

  lemma TallyLast(w: int -> int, required: seq<Line>, ahead: seq<Supply>, g: seq<Supply>)
    requires g != []
    ensures Tally(w, required, ahead, g)
         == Tally(w, required, ahead, g[..|g|-1]) + Added(w, required, ahead + g[..|g|-1], g[|g|-1])
  {}

  lemma LastOfTwo<T>(ahead: seq<T>, a: seq<T>, b: seq<T>)
    requires b != []
    ensures (a + b)[..|a + b|-1] == a + b[..|b|-1] && (a + b)[|a + b|-1] == b[|b|-1]
    ensures ahead + (a + b[..|b|-1]) == (ahead + a) + b[..|b|-1]
  {}

  lemma {:induction false} TallyConcat(
    w: int -> int, required: seq<Line>, ahead: seq<Supply>, a: seq<Supply>, b: seq<Supply>)
    ensures Tally(w, required, ahead, a + b) == Tally(w, required, ahead, a) + Tally(w, required, ahead + a, b)
  {
    if b == [] {
      assert a + b == a;
    } else {
      LastOfTwo(ahead, a, b);
      TallyLast(w, required, ahead, a + b);
      TallyLast(w, required, ahead + a, b);
      TallyConcat(w, required, ahead, a, b[..|b|-1]);
    }
  }

  lemma {:induction false} SameLines(required: seq<Line>, x: seq<Supply>, y: seq<Supply>, s: Supply)
    requires multiset(x) == multiset(y)
    ensures PartLines(required, x, s) == PartLines(required, y, s)
  {
    if required != [] {
      SameLines(required[..|required|-1], x, y, s);
      SumPermuted(StockOf(required[|required|-1].key), x, y);
    }
  }

  /** Only what is ahead counts, not in which order. */
  lemma {:induction false} TallySameAhead(w: int -> int, required: seq<Line>, x: seq<Supply>, y: seq<Supply>,
      g: seq<Supply>)
    requires multiset(x) == multiset(y)
    ensures Tally(w, required, x, g) == Tally(w, required, y, g)
  {
    if g != [] {
      var before := g[..|g|-1];
      TallySameAhead(w, required, x, y, before);
      SameLines(required, x + before, y + before, g[|g|-1]);
    }
  }

  lemma {:induction false} LevelTally(w: int -> int, required: seq<Line>, ahead: seq<Supply>, g: seq<Supply>, d: int)
    requires forall s :: s in g ==> s.distance == d
    ensures Tally(w, required, ahead, g) == Times(w(d), Tally(One(), required, ahead, g))
  {
    if g != [] {
      var before, s := g[..|g|-1], g[|g|-1];
      LevelTally(w, required, ahead, before, d);
      OneMore(w(d), Tally(One(), required, ahead, before));
      assert w(s.distance) == w(d);
    }
  }

  lemma OneMore(x: int, n: int)
    ensures Times(x, n + 1) == Times(x, n) + x
  {}

  // ---------------------------------------------------------------- the groups of equally distant warehouses

  ghost function Below(all: seq<Supply>, d: int): set<Supply> {
    set s | s in all && s.distance < d
  }

  ghost function At(all: seq<Supply>, d: int): set<Supply> {
    set s | s in all && s.distance == d
  }

  ghost function Above(all: seq<Supply>, d: int): set<Supply> {
    set s | s in all && s.distance > d
  }

  ghost predicate ListsGroup(g: seq<Supply>, all: seq<Supply>, d: int) {
    multiset(g) == multiset(Select(all, At(all, d)))
  }

  /** How many of the group's warehouses ship when they are visited in this order after all nearer ones. */
  ghost function Shippers(required: seq<Line>, all: seq<Supply>, d: int, g: seq<Supply>): int {
    Tally(One(), required, Select(all, Below(all, d)), g)
  }

  /** Every order of the group ships from equally many warehouses. */
  ghost predicate OrderIsFree(required: seq<Line>, all: seq<Supply>, d: int) {
    forall g, h :: ListsGroup(g, all, d) && ListsGroup(h, all, d) ==>
      Shippers(required, all, d, g) == Shippers(required, all, d, h)
  }

  lemma GroupAtDistance(g: seq<Supply>, all: seq<Supply>, d: int)
    requires ListsGroup(g, all, d)
    ensures forall s :: s in g ==> s.distance == d
  {
    SelectMembers(all, At(all, d));
    SamePermutedMembers(g, Select(all, At(all, d)));
  }

  lemma {:induction false} SplitAscending(c: seq<Supply>, lo: set<Supply>, hi: set<Supply>)
    requires Ascending(Kilometres(), c) && forall x, y :: x in lo && y in hi ==> x.distance < y.distance
    ensures Select(c, lo + hi) == Select(c, lo) + Select(c, hi)
  {
    if c != [] {
      var init, s := c[..|c|-1], c[|c|-1];
      SplitAscending(init, lo, hi);
      if s in lo {
        forall x | x in c ensures x !in hi {
          var i :| 0 <= i < |c| && c[i] == x;
          assert i < |c| - 1 ==> Kilometres()(c[i]) <= Kilometres()(c[|c|-1]);
        }
        SelectNone(init, hi);
      }
    }
  }

  /** A sorted listing is the nearer ones, the group, and the farther ones. */
  lemma SplitAtGroup(all: seq<Supply>, c: seq<Supply>, d: int)
    requires Ascending(Kilometres(), c) && multiset(c) == multiset(all)
    ensures c == Select(c, Below(all, d)) + Select(c, At(all, d)) + Select(c, Above(all, d))
  {
    var lo, at, hi := Below(all, d), At(all, d), Above(all, d);
    SamePermutedMembers(all, c);
    SplitAscending(c, lo, at);
    SplitAscending(c, lo + at, hi);
    SelectAll(c, lo + at + hi);
  }

  lemma {:induction false} SortedStays<T>(f: T -> int, s: seq<T>)
    requires Ascending(f, s)
    ensures SortBy(f, s) == s
  {
    if s != [] {
      SortedStays(f, s[1..]);
      assert s == [s[0]] + s[1..];
      if |s| > 1 { assert f(s[0]) <= f(s[1]); }
    }
  }

  // ---------------------------------------------------------------- free groups, free listing

  ghost predicate FreeWhereWeighed(w: int -> int, required: seq<Line>, all: seq<Supply>) {
    forall d :: w(d) != 0 ==> OrderIsFree(required, all, d)
  }

  /** Two sorted listings weigh the same at one distance. */
  lemma GroupsWeighTheSame(w: int -> int, required: seq<Line>, all: seq<Supply>, c: seq<Supply>, e: seq<Supply>, d: int)
    requires FreeWhereWeighed(w, required, all) && multiset(c) == multiset(all) && multiset(e) == multiset(all)
    ensures Tally(w, required, Select(c, Below(all, d)), Select(c, At(all, d)))
         == Tally(w, required, Select(e, Below(all, d)), Select(e, At(all, d)))
  {
    GroupWeighs(w, required, all, c, d);
    GroupWeighs(w, required, all, e, d);
    if w(d) != 0 {
      assert OrderIsFree(required, all, d);
      assert ListsGroup(Select(c, At(all, d)), all, d) && ListsGroup(Select(e, At(all, d)), all, d);
    }
  }

  lemma GroupWeighs(w: int -> int, required: seq<Line>, all: seq<Supply>, c: seq<Supply>, d: int)
    requires multiset(c) == multiset(all)
    ensures ListsGroup(Select(c, At(all, d)), all, d)
    ensures Tally(w, required, Select(c, Below(all, d)), Select(c, At(all, d)))
         == Times(w(d), Shippers(required, all, d, Select(c, At(all, d))))
  {
    SelectPermuted(c, all, At(all, d));
    SelectPermuted(c, all, Below(all, d));
    GroupAtDistance(Select(c, At(all, d)), all, d);
    LevelTally(w, required, Select(c, Below(all, d)), Select(c, At(all, d)), d);
    TallySameAhead(One(), required, Select(c, Below(all, d)), Select(all, Below(all, d)), Select(c, At(all, d)));
  }

  lemma {:induction false} NearerWeighTheSame(
    w: int -> int, required: seq<Line>, all: seq<Supply>, c: seq<Supply>, e: seq<Supply>, d: int)
    requires FreeWhereWeighed(w, required, all) && multiset(c) == multiset(all) && multiset(e) == multiset(all)
    requires Ascending(Kilometres(), c) && Ascending(Kilometres(), e)
    ensures Tally(w, required, [], Select(c, Below(all, d))) == Tally(w, required, [], Select(e, Below(all, d)))
    decreases |Below(all, d)|
  {
    var lo := Below(all, d);
    if lo == {} {
      SelectNone(c, lo);
      SelectNone(e, lo);
    } else {
      var k := Farthest(lo);
      assert Below(all, k) + At(all, k) == lo;
      FewerBelow(all, k, lo);
      NearerWeighTheSame(w, required, all, c, e, k);
      GroupsWeighTheSame(w, required, all, c, e, k);
      OneMoreGroup(w, required, all, c, k);
      OneMoreGroup(w, required, all, e, k);
    }
  }

  lemma FewerBelow(all: seq<Supply>, k: int, lo: set<Supply>)
    requires exists s :: s in lo && s.distance == k
    requires Below(all, k) <= lo
    ensures |Below(all, k)| < |lo|
  {
    var s :| s in lo && s.distance == k;
    assert lo == Below(all, k) + (lo - Below(all, k)) && s in lo - Below(all, k);
  }

  lemma {:induction false} Farthest(group: set<Supply>) returns (k: int)
    requires group != {}
    ensures (exists s :: s in group && s.distance == k) && forall s :: s in group ==> s.distance <= k
    decreases |group|
  {
    var x :| x in group;
    k := x.distance;
    if group != {x} {
      var j := Farthest(group - {x});
      if j > k { k := j; }
      assert forall s :: s in group ==> s == x || s in group - {x};
    }
  }

  lemma OneMoreGroup(w: int -> int, required: seq<Line>, all: seq<Supply>, c: seq<Supply>, k: int)
    requires Ascending(Kilometres(), c)
    ensures Tally(w, required, [], Select(c, Below(all, k) + At(all, k)))
         == Tally(w, required, [], Select(c, Below(all, k)))
            + Tally(w, required, Select(c, Below(all, k)), Select(c, At(all, k)))
  {
    SplitAscending(c, Below(all, k), At(all, k));
    TallyConcat(w, required, [], Select(c, Below(all, k)), Select(c, At(all, k)));
    assert [] + Select(c, Below(all, k)) == Select(c, Below(all, k));
  }

  lemma SortedWeighTheSame(w: int -> int, required: seq<Line>, all: seq<Supply>, c: seq<Supply>, e: seq<Supply>)
    requires FreeWhereWeighed(w, required, all) && multiset(c) == multiset(all) && multiset(e) == multiset(all)
    requires Ascending(Kilometres(), c) && Ascending(Kilometres(), e)
    ensures Tally(w, required, [], c) == Tally(w, required, [], e)
  {
    var members := Members(all);
    SamePermutedMembers(all, c);
    SamePermutedMembers(all, e);
    var top := 0;
    if members != {} {
      var k := Farthest(members);
      top := k + 1;
    }
    assert forall s :: s in all ==> s in members && s.distance < top;
    NearerWeighTheSame(w, required, all, c, e, top);
    SelectAll(c, Below(all, top));
    SelectAll(e, Below(all, top));
  }

  // ---------------------------------------------------------------- free listing, free groups

  /** A sorted listing with the group in this order. */
  ghost function WithGroup(all: seq<Supply>, d: int, g: seq<Supply>): seq<Supply> {
    var c := SortBy(Kilometres(), all);
    Select(c, Below(all, d)) + g + Select(c, Above(all, d))
  }

  lemma WithGroupLists(all: seq<Supply>, d: int, g: seq<Supply>)
    requires ListsGroup(g, all, d)
    ensures multiset(WithGroup(all, d, g)) == multiset(all)
    ensures SortBy(Kilometres(), WithGroup(all, d, g)) == WithGroup(all, d, g)
  {
    var c := SortBy(Kilometres(), all);
    SortBySorts(Kilometres(), all);
    SplitAtGroup(all, c, d);
    SelectPermuted(c, all, At(all, d));
    var lo, hi := Select(c, Below(all, d)), Select(c, Above(all, d));
    SelectMembers(c, Below(all, d));
    SelectMembers(c, Above(all, d));
    GroupAtDistance(g, all, d);
    SelectAscends(c, Below(all, d));
    SelectAscends(c, Above(all, d));
    ThreeAscend(lo, g, hi, d);
    SortedStays(Kilometres(), WithGroup(all, d, g));
  }

  lemma {:induction false} SelectAscends(c: seq<Supply>, keep: set<Supply>)
    requires Ascending(Kilometres(), c)
    ensures Ascending(Kilometres(), Select(c, keep))
  {
    if c != [] {
      var init, s := c[..|c|-1], c[|c|-1];
      SelectAscends(init, keep);
      SelectMembers(init, keep);
      var sel := Select(init, keep);
      forall i | 0 <= i < |sel| ensures Kilometres()(sel[i]) <= Kilometres()(s) {
        assert sel[i] in init;
        var j :| 0 <= j < |init| && init[j] == sel[i];
        assert Kilometres()(c[j]) <= Kilometres()(c[|c|-1]);
      }
    }
  }

  lemma ThreeAscend(lo: seq<Supply>, g: seq<Supply>, hi: seq<Supply>, d: int)
    requires Ascending(Kilometres(), lo) && Ascending(Kilometres(), hi)
    requires (forall s :: s in lo ==> s.distance < d) && (forall s :: s in g ==> s.distance == d)
    requires forall s :: s in hi ==> s.distance > d
    ensures Ascending(Kilometres(), lo + g + hi)
  {
    var c := lo + g + hi;
    forall i, j | 0 <= i < j < |c| ensures Kilometres()(c[i]) <= Kilometres()(c[j]) {
      PlaceOf(lo, g, hi, i);
      PlaceOf(lo, g, hi, j);
      if j < |lo| {
        assert Kilometres()(lo[i]) <= Kilometres()(lo[j]);
      } else if i >= |lo| + |g| {
        assert Kilometres()(hi[i - |lo| - |g|]) <= Kilometres()(hi[j - |lo| - |g|]);
      }
    }
  }

  lemma PlaceOf(lo: seq<Supply>, g: seq<Supply>, hi: seq<Supply>, i: nat)
    requires i < |lo + g + hi|
    ensures if i < |lo| then (lo + g + hi)[i] == lo[i] && lo[i] in lo
            else if i < |lo| + |g| then (lo + g + hi)[i] == g[i - |lo|] && g[i - |lo|] in g
            else (lo + g + hi)[i] == hi[i - |lo| - |g|] && hi[i - |lo| - |g|] in hi
  {}

  lemma WithGroupWeighs(w: int -> int, required: seq<Line>, all: seq<Supply>, d: int, g: seq<Supply>, h: seq<Supply>)
    requires ListsGroup(g, all, d) && ListsGroup(h, all, d)
    ensures Tally(w, required, [], WithGroup(all, d, g)) - Tally(w, required, [], WithGroup(all, d, h))
         == Times(w(d), Shippers(required, all, d, g)) - Times(w(d), Shippers(required, all, d, h))
  {
    var c := SortBy(Kilometres(), all);
    var lo, hi := Select(c, Below(all, d)), Select(c, Above(all, d));
    SortBySorts(Kilometres(), all);
    SelectPermuted(c, all, Below(all, d));
    ThreeTallies(w, required, lo, g, hi);
    ThreeTallies(w, required, lo, h, hi);
    TallySameAhead(w, required, lo + g, lo + h, hi);
    GroupTally(w, required, all, d, lo, g);
    GroupTally(w, required, all, d, lo, h);
  }

  lemma ThreeTallies(w: int -> int, required: seq<Line>, lo: seq<Supply>, g: seq<Supply>, hi: seq<Supply>)
    ensures Tally(w, required, [], lo + g + hi)
         == Tally(w, required, [], lo) + Tally(w, required, lo, g) + Tally(w, required, lo + g, hi)
  {
    TallyConcat(w, required, [], lo + g, hi);
    TallyConcat(w, required, [], lo, g);
    assert [] + (lo + g) == lo + g && [] + lo == lo;
  }

  lemma GroupTally(w: int -> int, required: seq<Line>, all: seq<Supply>, d: int, lo: seq<Supply>, g: seq<Supply>)
    requires ListsGroup(g, all, d) && multiset(lo) == multiset(Select(all, Below(all, d)))
    ensures Tally(w, required, lo, g) == Times(w(d), Shippers(required, all, d, g))
  {
    GroupAtDistance(g, all, d);
    LevelTally(w, required, lo, g, d);
    TallySameAhead(One(), required, lo, Select(all, Below(all, d)), g);
  }

  // ---------------------------------------------------------------- main results

  ghost function PlanWeight(w: int -> int, plan: Plan): int {
    Sum(Weighted(w), plan.parts)
  }

  lemma PlanWeighs(w: int -> int, required: seq<Line>, all: seq<Supply>, b: seq<Supply>)
    requires Stocked(all) && !Covers(required, all) && multiset(b) == multiset(all)
    ensures PlanWeight(w, Planned(required, b)) == Tally(w, required, [], SortBy(Kilometres(), b))
  {
    UncoveredPlan(required, all, b);
    TallyIsSum(w, required, SortBy(Kilometres(), b));
  }

  /** The weight of the parts is the same in every listing. */
  ghost predicate ListingIsFree(w: int -> int, required: seq<Line>, all: seq<Supply>) {
    forall b :: multiset(b) == multiset(all) ==>
      PlanWeight(w, Planned(required, b)) == PlanWeight(w, Planned(required, all))
  }

  lemma FreeGroupsFreeListing(w: int -> int, required: seq<Line>, all: seq<Supply>)
    requires Stocked(all) && !Covers(required, all) && FreeWhereWeighed(w, required, all)
    ensures ListingIsFree(w, required, all)
  {
    forall b: seq<Supply> | multiset(b) == multiset(all)
      ensures PlanWeight(w, Planned(required, b)) == PlanWeight(w, Planned(required, all))
    {
      SortBySorts(Kilometres(), b);
      SortBySorts(Kilometres(), all);
      PlanWeighs(w, required, all, b);
      PlanWeighs(w, required, all, all);
      SortedWeighTheSame(w, required, all, SortBy(Kilometres(), b), SortBy(Kilometres(), all));
    }
  }

  lemma GroupListingsWeighTheSame(w: int -> int, required: seq<Line>, all: seq<Supply>, d: int, g: seq<Supply>)
    requires Stocked(all) && !Covers(required, all) && ListingIsFree(w, required, all)
    requires ListsGroup(g, all, d)
    ensures Tally(w, required, [], WithGroup(all, d, g)) == PlanWeight(w, Planned(required, all))
  {
    WithGroupLists(all, d, g);
    PlanWeighs(w, required, all, WithGroup(all, d, g));
  }

  lemma SameShippers(w: int -> int, required: seq<Line>, all: seq<Supply>, d: int, g: seq<Supply>, h: seq<Supply>)
    requires Stocked(all) && !Covers(required, all) && ListingIsFree(w, required, all)
    requires w(d) != 0 && ListsGroup(g, all, d) && ListsGroup(h, all, d)
    ensures Shippers(required, all, d, g) == Shippers(required, all, d, h)
  {
    GroupListingsWeighTheSame(w, required, all, d, g);
    GroupListingsWeighTheSame(w, required, all, d, h);
    WithGroupWeighs(w, required, all, d, g, h);
    SameFactor(w(d), Shippers(required, all, d, g), Shippers(required, all, d, h));
  }

  lemma FreeListingFreeGroup(w: int -> int, required: seq<Line>, all: seq<Supply>, d: int)
    requires Stocked(all) && !Covers(required, all) && ListingIsFree(w, required, all)
    requires w(d) != 0
    ensures OrderIsFree(required, all, d)
  {
    forall g, h | ListsGroup(g, all, d) && ListsGroup(h, all, d)
      ensures Shippers(required, all, d, g) == Shippers(required, all, d, h)
    {
      SameShippers(w, required, all, d, g, h);
    }
  }

  lemma SameFactor(x: int, a: int, b: int)
    requires x != 0 && Times(x, a) == Times(x, b)
    ensures a == b
  {
    assert x * (a - b) == 0;
  }

  lemma ListingIsFreeIff(w: int -> int, required: seq<Line>, all: seq<Supply>)
    requires Stocked(all) && !Covers(required, all)
    ensures ListingIsFree(w, required, all) <==> FreeWhereWeighed(w, required, all)
  {
    if FreeWhereWeighed(w, required, all) { FreeGroupsFreeListing(w, required, all); }
    if ListingIsFree(w, required, all) {
      forall d | w(d) != 0 ensures OrderIsFree(required, all, d) { FreeListingFreeGroup(w, required, all, d); }
    }
  }

  /** The part count is the same in every listing exactly when every group's order is free. */
  lemma PartCountIsFreeIff(required: seq<Line>, all: seq<Supply>)
    requires Stocked(all) && !Covers(required, all)
    ensures (forall d :: OrderIsFree(required, all, d)) <==>
      forall b :: multiset(b) == multiset(all) ==> |Planned(required, b).parts| == |Planned(required, all).parts|
  {
    ListingIsFreeIff(One(), required, all);
    assert FreeWhereWeighed(One(), required, all) <==> forall d :: OrderIsFree(required, all, d) by {
      assert forall d :: One()(d) == 1;
    }
    forall b: seq<Supply> ensures PlanWeight(One(), Planned(required, b)) == |Planned(required, b).parts| {
      SumOnes(Planned(required, b).parts);
    }
  }

  /**
   * The score is the same in every listing exactly when the order of every group at another distance than 0 is free.
   */
  lemma ScoreIsFreeIff(required: seq<Line>, all: seq<Supply>)
    requires Stocked(all) && !Covers(required, all)
    ensures (forall d :: d != 0 ==> OrderIsFree(required, all, d)) <==>
      forall b :: multiset(b) == multiset(all) ==> Planned(required, b).score == Planned(required, all).score
  {
    ListingIsFreeIff(Far(), required, all);
    assert FreeWhereWeighed(Far(), required, all) <==> forall d :: d != 0 ==> OrderIsFree(required, all, d) by {
      assert forall d :: Far()(d) == d;
    }
    forall b: seq<Supply> | multiset(b) == multiset(all)
      ensures PlanWeight(Far(), Planned(required, b)) == Planned(required, b).score
    {
      UncoveredPlan(required, all, b);
      SumFar(Planned(required, b).parts);
    }
  }
}
