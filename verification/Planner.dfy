/**
 * The warehouse allocation planner. Quantities and distances are counted in thousandths, the scale of the
 * numeric(_,3) columns they come from; RealQuantities.dfy shows that on that grid the 0.0001 tolerance and the
 * rounding of the planner are exact.
 */
module Planner {
  import opened Sequences

  datatype Line = Line(key: string, quantity: int)
  datatype Supply = Supply(warehouseId: string, distance: int, available: map<string, int>)
  datatype Part = Part(warehouseId: string, distance: int, lines: seq<Line>)
  datatype Shortfall = Shortfall(key: string, requested: int, supplied: int, missing: int)
  datatype Plan = Plan(parts: seq<Part>, shortfalls: seq<Shortfall>, score: int, fullyCovered: bool)

  // ---------------------------------------------------------------- what callers supply

  ghost predicate DistinctKeys(required: seq<Line>) {
    forall i, j :: 0 <= i < j < |required| ==> required[i].key != required[j].key
  }

  ghost predicate DistinctWarehouses(supplies: seq<Supply>) {
    forall i, j :: 0 <= i < j < |supplies| ==> supplies[i].warehouseId != supplies[j].warehouseId
  }

  ghost predicate Stocked(supplies: seq<Supply>) {
    forall s :: s in supplies ==> forall k :: k in s.available ==> s.available[k] >= 0
  }

  ghost predicate PositiveDemand(required: seq<Line>) {
    exists i :: 0 <= i < |required| && required[i].quantity > 0
  }

  // ---------------------------------------------------------------- totals and cover

  function Stock(s: Supply, key: string): int {
    if key in s.available then s.available[key] else 0
  }

  function StockOf(key: string): Supply -> int {
    (s: Supply) => Stock(s, key)
  }

  function Kilometres(): Supply -> int {
    (s: Supply) => s.distance
  }

  function Total(combo: seq<Supply>, key: string): int {
    Sum(StockOf(key), combo)
  }

  function Distance(combo: seq<Supply>): int {
    Sum(Kilometres(), combo)
  }

  /** The combination holds enough of every demanded line. */
  predicate Covers(required: seq<Line>, combo: seq<Supply>) {
    forall i :: 0 <= i < |required| && required[i].quantity > 0 ==>
      Total(combo, required[i].key) >= required[i].quantity
  }

  // ---------------------------------------------------------------- one visit to one warehouse

  /** What a warehouse with `free` in stock hands over when `needed` is still missing. */
  function Take(needed: int, free: int): int {
    if needed <= 0 then 0
    else
      var take := if needed < free then needed else free;
      if take <= 0 then 0 else take
  }

  /** The lines a warehouse ships against the outstanding quantities, in their order. */
  function TakenLines(order: seq<string>, left: map<string, int>, supply: Supply): seq<Line>
    requires forall k :: k in order ==> k in left
  {
    if order == [] then []
    else
      var k := order[|order|-1];
      var take := Take(left[k], Stock(supply, k));
      var init := TakenLines(order[..|order|-1], left, supply);
      if take > 0 then init + [Line(k, take)] else init
  }

  lemma TakenLinesSnoc(order: seq<string>, n: nat, left: map<string, int>, supply: Supply)
    requires n < |order| && forall k :: k in order ==> k in left
    ensures var init, take := TakenLines(order[..n], left, supply), Take(left[order[n]], Stock(supply, order[n]));
      TakenLines(order[..n+1], left, supply) == if take > 0 then init + [Line(order[n], take)] else init
  {
    assert order[..n+1][..n] == order[..n];
  }

  /** `after` is `left` with what `supply` ships of the `seen` materials struck off. */
  ghost predicate Struck(left: map<string, int>, after: map<string, int>, seen: seq<string>, supply: Supply) {
    && after.Keys == left.Keys
    && forall k :: k in left ==> after[k] == left[k] - if k in seen then Take(left[k], Stock(supply, k)) else 0
  }

  lemma StruckSnoc(left: map<string, int>, after: map<string, int>, order: seq<string>, n: nat, supply: Supply)
    requires Distinct(order) && n < |order| && order[n] in left
    requires Struck(left, after, order[..n], supply)
    ensures after[order[n]] == left[order[n]]
    ensures var take := Take(left[order[n]], Stock(supply, order[n]));
      Struck(left, if take > 0 then after[order[n] := left[order[n]] - take] else after, order[..n+1], supply)
  {
    assert order[n] !in order[..n];
    assert order[..n+1] == order[..n] + [order[n]];
  }

  /** The outstanding quantities of one order, keyed by material in insertion order. */
  class Remaining {
    const order: seq<string>
    var left: map<string, int>

    ghost predicate Valid()
      reads this
    {
      && Distinct(order)
      && forall k :: k in left <==> k in order
    }

    constructor (required: seq<Line>)
      requires DistinctKeys(required)
      ensures Valid() && order == Keys(required)
      ensures forall i :: 0 <= i < |required| ==> left[required[i].key] == required[i].quantity
    {
      order := Keys(required);
      left := map[];
      new;
      for n := 0 to |required|
        invariant forall k :: k in left <==> k in order[..n]
        invariant forall i :: 0 <= i < n ==> order[i] == required[i].key && left[order[i]] == required[i].quantity
      {
        assert order[..n+1] == order[..n] + [order[n]];
        left := left[required[n].key := required[n].quantity];
      }
      assert order[..|required|] == order;
    }

    /**
     * Ship what `supply` has towards what is outstanding, and strike it off.
     */
    method TakeFrom(supply: Supply) returns (lines: seq<Line>)
      requires Valid()
      modifies this`left
      ensures Valid()
      ensures lines == TakenLines(order, old(left), supply)
      ensures Struck(old(left), left, order, supply)
    {
      ghost var start := left;
      lines := [];
      for n := 0 to |order|
        invariant left.Keys == start.Keys && Struck(start, left, order[..n], supply)
        invariant lines == TakenLines(order[..n], start, supply)
      {
        var key, needed := order[n], left[order[n]];
        TakenLinesSnoc(order, n, start, supply);
        StruckSnoc(start, left, order, n, supply);
        if needed > 0 {
          var free := Stock(supply, key);
          var take := if needed < free then needed else free;
          if take > 0 {
            lines := lines + [Line(key, take)];
            left := left[key := needed - take];
          }
        }
      }
      assert order[..|order|] == order;
    }

    method IsSatisfied() returns (r: bool)
      requires Valid()
      ensures r <==> forall k :: k in left ==> left[k] <= 0
    {
      for n := 0 to |order|
        invariant forall i :: 0 <= i < n ==> left[order[i]] <= 0
      {
        if left[order[n]] > 0 { return false; }
      }
      return true;
    }
  }

  function Keys(required: seq<Line>): (r: seq<string>)
    ensures |r| == |required| && forall i :: 0 <= i < |required| ==> r[i] == required[i].key
  {
    seq(|required|, i requires 0 <= i < |required| => required[i].key)
  }

  // ---------------------------------------------------------------- the closed form of a greedy fill

  /** What is still missing of a demanded quantity once `total` has been available. */
  function Left(quantity: int, total: int): int {
    if quantity <= 0 then quantity else if total >= quantity then 0 else quantity - total
  }

  /** What the next warehouse ships when the ones before it held `before` and it holds `stock`. */
  function Shipped(quantity: int, before: int, stock: int): int {
    Left(quantity, before) - Left(quantity, before + stock)
  }

  /** The lines `supply` ships after the warehouses `before` it have shipped theirs. */
  function PartLines(required: seq<Line>, before: seq<Supply>, supply: Supply): seq<Line> {
    if required == [] then []
    else
      var l := required[|required|-1];
      var q := Shipped(l.quantity, Total(before, l.key), Stock(supply, l.key));
      var init := PartLines(required[..|required|-1], before, supply);
      if q > 0 then init + [Line(l.key, q)] else init
  }

  /** One part for every warehouse that ships something when they are visited in order. */
  function Parts(required: seq<Line>, supplies: seq<Supply>): seq<Part> {
    if supplies == [] then []
    else
      var before, s := supplies[..|supplies|-1], supplies[|supplies|-1];
      var lines := PartLines(required, before, s);
      if lines == [] then Parts(required, before)
      else Parts(required, before) + [Part(s.warehouseId, s.distance, lines)]
  }

  function Shortfalls(required: seq<Line>, supplies: seq<Supply>): seq<Shortfall> {
    if required == [] then []
    else
      var l := required[|required|-1];
      var missing := Left(l.quantity, Total(supplies, l.key));
      var init := Shortfalls(required[..|required|-1], supplies);
      if missing > 0 then init + [Shortfall(l.key, l.quantity, l.quantity - missing, missing)] else init
  }

  function PartKilometres(): Part -> int {
    (p: Part) => p.distance
  }

  /** The plan a greedy visit of `supplies` in order produces. */
  function FillPlan(required: seq<Line>, supplies: seq<Supply>): Plan {
    var parts, shortfalls := Parts(required, supplies), Shortfalls(required, supplies);
    Plan(parts, shortfalls, Sum(PartKilometres(), parts), shortfalls == [])
  }

  /** `left` is what the demand comes down to after `visited` have shipped. */
  ghost predicate Tracks(left: map<string, int>, required: seq<Line>, visited: seq<Supply>) {
    && (forall k :: k in left <==> k in Keys(required))
    && forall i :: 0 <= i < |required| ==>
      required[i].key in left && left[required[i].key] == Left(required[i].quantity, Total(visited, required[i].key))
  }

  lemma TotalNonNegative(supplies: seq<Supply>, key: string)
    requires Stocked(supplies)
    ensures Total(supplies, key) >= 0
  {
    SumNonNegative(StockOf(key), supplies);
  }

  lemma TotalSnoc(supplies: seq<Supply>, s: Supply, key: string)
    ensures Total(supplies + [s], key) == Total(supplies, key) + Stock(s, key)
  {
    SumSnoc(StockOf(key), supplies, s);
  }

  lemma TakeIsShipped(quantity: int, before: int, stock: int)
    requires before >= 0 && stock >= 0
    ensures Take(Left(quantity, before), stock) == Shipped(quantity, before, stock)
  {}

  lemma {:induction false} TakenLinesClosedForm(required: seq<Line>, left: map<string, int>, visited: seq<Supply>,
      s: Supply)
    requires forall i :: 0 <= i < |required| ==>
      required[i].key in left && left[required[i].key] == Left(required[i].quantity, Total(visited, required[i].key))
    requires Stocked(visited) && Stocked([s])
    ensures TakenLines(Keys(required), left, s) == PartLines(required, visited, s)
  {
    if required != [] {
      var init, l := required[..|required|-1], required[|required|-1];
      TakenLinesClosedForm(init, left, visited, s);
      assert Keys(required)[..|required|-1] == Keys(init);
      assert s in [s];
      TotalNonNegative(visited, l.key);
      TakeIsShipped(l.quantity, Total(visited, l.key), Stock(s, l.key));
    }
  }

  lemma TracksStep(left: map<string, int>, after: map<string, int>, required: seq<Line>, visited: seq<Supply>,
      s: Supply)
    requires Tracks(left, required, visited) && Struck(left, after, Keys(required), s)
    requires Stocked(visited) && Stocked([s])
    ensures Tracks(after, required, visited + [s])
  {
    assert s in [s];
    forall i | 0 <= i < |required|
      ensures after[required[i].key] == Left(required[i].quantity, Total(visited + [s], required[i].key))
    {
      var l := required[i];
      TotalSnoc(visited, s, l.key);
      TotalNonNegative(visited, l.key);
      TakeIsShipped(l.quantity, Total(visited, l.key), Stock(s, l.key));
    }
  }

  /** Once nothing is outstanding later warehouses ship nothing, so stopping early changes nothing. */
  lemma {:induction false} SatisfiedShipsNothing(required: seq<Line>, before: seq<Supply>, s: Supply)
    requires forall i :: 0 <= i < |required| ==> Left(required[i].quantity, Total(before, required[i].key)) <= 0
    requires forall k :: k in s.available ==> s.available[k] >= 0
    ensures PartLines(required, before, s) == []
  {
    if required != [] {
      SatisfiedShipsNothing(required[..|required|-1], before, s);
    }
  }

  /** The demand is met by what `supplies` hold. */
  ghost predicate Satisfied(required: seq<Line>, supplies: seq<Supply>) {
    forall i :: 0 <= i < |required| ==> Left(required[i].quantity, Total(supplies, required[i].key)) <= 0
  }

  lemma SatisfiedByMore(required: seq<Line>, before: seq<Supply>, rest: seq<Supply>)
    requires Satisfied(required, before) && Stocked(rest)
    ensures Satisfied(required, before + rest)
    ensures forall i :: 0 <= i < |required| ==>
      Left(required[i].quantity, Total(before + rest, required[i].key))
          == Left(required[i].quantity, Total(before, required[i].key))
  {
    forall i | 0 <= i < |required|
      ensures Left(required[i].quantity, Total(before + rest, required[i].key))
          == Left(required[i].quantity, Total(before, required[i].key))
    {
      SumConcat(StockOf(required[i].key), before, rest);
      TotalNonNegative(rest, required[i].key);
    }
  }

  lemma {:induction false} SatisfiedStays(required: seq<Line>, before: seq<Supply>, rest: seq<Supply>)
    requires Satisfied(required, before) && Stocked(rest)
    ensures Parts(required, before + rest) == Parts(required, before)
  {
    if rest == [] {
      assert before + rest == before;
    } else {
      var init, s := rest[..|rest|-1], rest[|rest|-1];
      SatisfiedStays(required, before, init);
      SatisfiedByMore(required, before, init);
      SatisfiedShipsNothing(required, before + init, s);
      assert (before + rest)[..|before + rest|-1] == before + init;
    }
  }
}
