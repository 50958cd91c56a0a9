/**
 * The three attempts of the planner: the nearest single warehouse that covers everything, then the smallest
 * and nearest covering combination, then a partial fill. Each method is tied to a function of its inputs;
 * Optimality.dfy proves what those functions achieve.
 */
module PlanSearch {
  import opened Sequences
  import opened Combinations
  import opened Planner

  // ---------------------------------------------------------------- shortfalls of what is left

  function ShortfallsFrom(required: seq<Line>, left: map<string, int>): seq<Shortfall> {
    if required == [] then []
    else
      var l := required[|required|-1];
      var missing := if l.key in left then left[l.key] else 0;
      var init := ShortfallsFrom(required[..|required|-1], left);
      if missing > 0 then init + [Shortfall(l.key, l.quantity, l.quantity - missing, missing)] else init
  }

  lemma {:induction false} ShortfallsClosedForm(required: seq<Line>, left: map<string, int>, visited: seq<Supply>)
    requires forall i :: 0 <= i < |required| ==>
      required[i].key in left && left[required[i].key] == Left(required[i].quantity, Total(visited, required[i].key))
    ensures ShortfallsFrom(required, left) == Shortfalls(required, visited)
  {
    if required != [] { ShortfallsClosedForm(required[..|required|-1], left, visited); }
  }

  lemma TracksSatisfied(left: map<string, int>, required: seq<Line>, visited: seq<Supply>)
    requires Tracks(left, required, visited)
    ensures Satisfied(required, visited) <==> forall k :: k in left ==> left[k] <= 0
  {
    if Satisfied(required, visited) {
      forall k | k in left ensures left[k] <= 0 {
        var i :| 0 <= i < |required| && Keys(required)[i] == k;
      }
    } else {
      var i :| 0 <= i < |required| && Left(required[i].quantity, Total(visited, required[i].key)) > 0;
      assert required[i].key in left;
    }
  }

  lemma TracksInitially(left: map<string, int>, required: seq<Line>)
    requires forall k :: k in left <==> k in Keys(required)
    requires forall i :: 0 <= i < |required| ==>
      required[i].key in left && left[required[i].key] == required[i].quantity
    ensures Tracks(left, required, [])
  {}

  lemma SatisfiedShortfalls(required: seq<Line>, before: seq<Supply>, rest: seq<Supply>)
    requires Satisfied(required, before) && Stocked(rest)
    ensures FillPlan(required, before + rest) == FillPlan(required, before)
  {
    SatisfiedStays(required, before, rest);
    SatisfiedByMore(required, before, rest);
    NoShortfalls(required, before);
    NoShortfalls(required, before + rest);
  }

  lemma {:induction false} NoShortfalls(required: seq<Line>, supplies: seq<Supply>)
    requires Satisfied(required, supplies)
    ensures Shortfalls(required, supplies) == []
  {
    if required != [] { NoShortfalls(required[..|required|-1], supplies); }
  }

  lemma PartsSnoc(required: seq<Line>, supplies: seq<Supply>, i: nat)
    requires i < |supplies|
    ensures var before, s := supplies[..i], supplies[i];
      var lines := PartLines(required, before, s);
      Parts(required, supplies[..i+1]) == if lines == [] then Parts(required, before)
                                          else Parts(required, before) + [Part(s.warehouseId, s.distance, lines)]
  {
    assert supplies[..i+1][..i] == supplies[..i];
  }

  // ---------------------------------------------------------------- the nearest single warehouse

  /** The first supply that covers the demand alone. */
  function SingleCandidate(required: seq<Line>, supplies: seq<Supply>): Option<Supply> {
    if supplies == [] then None
    else if Covers(required, [supplies[0]]) then Some(supplies[0])
    else SingleCandidate(required, supplies[1..])
  }

  /** The demanded lines themselves, without the ones that ask for nothing. */
  function PositiveLines(required: seq<Line>): seq<Line> {
    if required == [] then []
    else
      var l := required[|required|-1];
      var init := PositiveLines(required[..|required|-1]);
      if l.quantity > 0 then init + [l] else init
  }

  function PlanSingleWarehouse(required: seq<Line>, supplies: seq<Supply>): Option<Plan> {
    match SingleCandidate(required, supplies)
    case None => None
    case Some(c) => Some(Plan([Part(c.warehouseId, c.distance, PositiveLines(required))], [], c.distance, true))
  }

  // ---------------------------------------------------------------- the greedy fills

  /** Visit `combo` in order until nothing is outstanding. */
  method BuildCoveringPlan(required: seq<Line>, combo: seq<Supply>) returns (plan: Plan)
    requires DistinctKeys(required) && Stocked(combo)
    ensures plan == FillPlan(required, combo).(fullyCovered := true)
  {
    var rem := new Remaining(required);
    TracksInitially(rem.left, required);
    var parts: seq<Part> := [];
    var i := 0;
    while i < |combo|
      invariant 0 <= i <= |combo| && rem.Valid() && rem.order == Keys(required)
      invariant Tracks(rem.left, required, combo[..i]) && parts == Parts(required, combo[..i])
    {
      var done := rem.IsSatisfied();
      if done { break; }
      parts := VisitSupply(required, combo, i, rem, parts);
      i := i + 1;
    }
    var shortfalls := ShortfallsFrom(required, rem.left);
    FillEnds(required, combo[..i], rem.left);
    FillStopsHere(required, combo, i);
    plan := Plan(parts, shortfalls, Sum(PartKilometres(), parts), true);
  }

  /** The shortfalls of what is left are those of the fill so far. */
  lemma FillEnds(required: seq<Line>, visited: seq<Supply>, left: map<string, int>)
    requires Tracks(left, required, visited)
    ensures FillPlan(required, visited).shortfalls == ShortfallsFrom(required, left)
    ensures Satisfied(required, visited) <==> forall k :: k in left ==> left[k] <= 0
  {
    TracksSatisfied(left, required, visited);
    ShortfallsClosedForm(required, left, visited);
  }

  lemma FillStopsHere(required: seq<Line>, supplies: seq<Supply>, i: nat)
    requires i <= |supplies| && Stocked(supplies)
    requires i == |supplies| || Satisfied(required, supplies[..i])
    ensures FillPlan(required, supplies) == FillPlan(required, supplies[..i])
  {
    SplitAt(supplies, i);
    if i == |supplies| {
      assert supplies[..i] == supplies;
    } else {
      SatisfiedShortfalls(required, supplies[..i], supplies[i..]);
    }
  }

  /** One round of a fill: take from supply i and add its part, unless it ships nothing. */
  method VisitSupply(required: seq<Line>, supplies: seq<Supply>, i: nat, rem: Remaining, parts: seq<Part>)
    returns (r: seq<Part>)
    requires i < |supplies| && Stocked(supplies) && rem.Valid() && rem.order == Keys(required)
    requires Tracks(rem.left, required, supplies[..i]) && parts == Parts(required, supplies[..i])
    modifies rem`left
    ensures rem.Valid()
    ensures Tracks(rem.left, required, supplies[..i+1]) && r == Parts(required, supplies[..i+1])
  {
    ghost var visited, start := supplies[..i], rem.left;
    var s := supplies[i];
    var lines := rem.TakeFrom(s);
    TakenLinesClosedForm(required, start, visited, s);
    TracksStep(start, rem.left, required, visited, s);
    PrefixSnoc(supplies, i);
    PartsSnoc(required, supplies, i);
    r := if lines == [] then parts else parts + [Part(s.warehouseId, s.distance, lines)];
  }

  /** The supplies a partial fill gets to before it holds `max` parts. */
  function Visited(required: seq<Line>, supplies: seq<Supply>, max: int): seq<Supply> {
    if supplies == [] then []
    else
      var init := supplies[..|supplies|-1];
      var v := Visited(required, init, max);
      if |v| < |init| || |Parts(required, v)| >= max then v else supplies
  }

  lemma {:induction false} VisitedStops(required: seq<Line>, supplies: seq<Supply>, max: int, i: nat)
    requires i <= |supplies| && Visited(required, supplies[..i], max) == supplies[..i]
    requires |Parts(required, supplies[..i])| >= max
    ensures Visited(required, supplies, max) == supplies[..i]
  {
    if i == |supplies| {
      assert supplies[..i] == supplies;
    } else {
      var init := supplies[..|supplies|-1];
      assert init[..i] == supplies[..i];
      VisitedStops(required, init, max, i);
    }
  }

  lemma {:induction false} VisitedPrefix(required: seq<Line>, supplies: seq<Supply>, max: int, i: nat)
    requires i <= |supplies| && Visited(required, supplies[..i], max) == supplies[..i]
    ensures var v := Visited(required, supplies, max); i <= |v| <= |supplies| && v == supplies[..|v|]
  {
    if i == |supplies| {
      assert supplies[..i] == supplies;
    } else {
      var init := supplies[..|supplies|-1];
      assert init[..i] == supplies[..i];
      VisitedPrefix(required, init, max, i);
      assert init[..|Visited(required, init, max)|] == supplies[..|Visited(required, init, max)|];
    }
  }

  lemma {:induction false} VisitedAll(required: seq<Line>, supplies: seq<Supply>, max: int)
    requires |supplies| <= max
    ensures Visited(required, supplies, max) == supplies && |Parts(required, supplies)| <= |supplies|
  {
    if supplies != [] { VisitedAll(required, supplies[..|supplies|-1], max); }
  }

  /** Fill from the nearest on, up to `max` parts, and report what is still missing. */
  method PlanPartial(required: seq<Line>, supplies: seq<Supply>, max: int) returns (plan: Plan)
    requires DistinctKeys(required) && Stocked(supplies)
    ensures plan == FillPlan(required, Visited(required, supplies, max))
  {
    var rem := new Remaining(required);
    TracksInitially(rem.left, required);
    var parts: seq<Part> := [];
    var i := 0;
    while i < |supplies|
      invariant 0 <= i <= |supplies| && rem.Valid() && rem.order == Keys(required)
      invariant Tracks(rem.left, required, supplies[..i]) && parts == Parts(required, supplies[..i])
      invariant Visited(required, supplies[..i], max) == supplies[..i]
    {
      if |parts| >= max { break; }
      var done := rem.IsSatisfied();
      if done { break; }
      parts := VisitSupply(required, supplies, i, rem, parts);
      assert supplies[..i+1][..i] == supplies[..i];
      i := i + 1;
    }
    var shortfalls := ShortfallsFrom(required, rem.left);
    FillEnds(required, supplies[..i], rem.left);
    PartialStopsHere(required, supplies, max, i);
    plan := Plan(parts, shortfalls, Sum(PartKilometres(), parts), shortfalls == []);
  }

  lemma PartialStopsHere(required: seq<Line>, supplies: seq<Supply>, max: int, i: nat)
    requires i <= |supplies| && Stocked(supplies) && Visited(required, supplies[..i], max) == supplies[..i]
    requires i == |supplies| || |Parts(required, supplies[..i])| >= max || Satisfied(required, supplies[..i])
    ensures FillPlan(required, Visited(required, supplies, max)) == FillPlan(required, supplies[..i])
  {
    assert supplies[..|supplies|] == supplies;
    if i < |supplies| && |Parts(required, supplies[..i])| >= max {
      VisitedStops(required, supplies, max, i);
    } else if i < |supplies| {
      VisitedPrefix(required, supplies, max, i);
      var v := Visited(required, supplies, max);
      assert v == supplies[..i] + supplies[i..|v|];
      SatisfiedShortfalls(required, supplies[..i], supplies[i..|v|]);
    }
  }

  // ---------------------------------------------------------------- the smallest, nearest combination

  /** The first of the nearest covering combinations. */
  function BestCover(required: seq<Line>, combos: seq<seq<Supply>>): Option<seq<Supply>> {
    if combos == [] then None
    else
      var best, c := BestCover(required, combos[..|combos|-1]), combos[|combos|-1];
      if Covers(required, c) && (best.None? || Distance(c) < Distance(best.value)) then Some(c) else best
  }

  /** The best covering combination of the smallest size from `sz` to `max` that has one. */
  function FewestCover(required: seq<Line>, supplies: seq<Supply>, sz: int, max: int): Option<seq<Supply>>
    decreases max - sz
  {
    if sz > max then None
    else
      var best := BestCover(required, Combos(supplies, sz));
      if best.Some? then best else FewestCover(required, supplies, sz + 1, max)
  }

  method PlanFewestParts(required: seq<Line>, supplies: seq<Supply>, max: int) returns (plan: Option<Plan>)
    requires DistinctKeys(required) && Stocked(supplies)
    ensures plan == match FewestCover(required, supplies, 2, max)
                    case None => None
                    case Some(c) => Some(FillPlan(required, c).(fullyCovered := true))
  {
    var sz := 2;
    while sz <= max
      invariant sz >= 2 && FewestCover(required, supplies, sz, max) == FewestCover(required, supplies, 2, max)
      decreases max - sz
    {
      var best: Option<(seq<Supply>, int)> := None;
      var combos := Generate(supplies, sz);
      for i := 0 to |combos|
        invariant best == Measured(BestCover(required, combos[..i]))
      {
        BestCoverSnoc(required, combos, i);
        var c := combos[i];
        if Covers(required, c) {
          var km := Distance(c);
          if best.None? || km < best.value.1 { best := Some((c, km)); }
        }
      }
      assert combos[..|combos|] == combos;
      if best.Some? {
        BestCoverIsGenerated(required, combos);
        ComboMembers(supplies, sz, best.value.0);
        var p := BuildCoveringPlan(required, best.value.0);
        return Some(p);
      }
      sz := sz + 1;
    }
    return None;
  }

  /** A combination with its distance, as the search keeps it. */
  function Measured(c: Option<seq<Supply>>): Option<(seq<Supply>, int)> {
    match c case None => None case Some(combo) => Some((combo, Distance(combo)))
  }

  lemma BestCoverSnoc(required: seq<Line>, combos: seq<seq<Supply>>, i: nat)
    requires i < |combos|
    ensures var best, c := Measured(BestCover(required, combos[..i])), combos[i];
      Measured(BestCover(required, combos[..i+1]))
        == if Covers(required, c) && (best.None? || Distance(c) < best.value.1) then Some((c, Distance(c))) else best
  {
    PrefixSnoc(combos, i);
  }

  lemma {:induction false} BestCoverIsGenerated(required: seq<Line>, combos: seq<seq<Supply>>)
    ensures BestCover(required, combos).Some? ==> BestCover(required, combos).value in combos
  {
    if combos != [] { BestCoverIsGenerated(required, combos[..|combos|-1]); }
  }

  lemma ComboMembers<T>(items: seq<T>, k: int, c: seq<T>)
    requires c in Combos(items, k)
    ensures |c| == k && forall x :: x in c ==> x in items
  {
    TuplesAreCombinations(0, |items|, k);
  }

  // ---------------------------------------------------------------- the planner

  /** The plan for an order: what PlanAllocation returns. */
  function Planned(required: seq<Line>, supplies: seq<Supply>): Plan {
    var sup := SortBy(Kilometres(), supplies);
    match PlanSingleWarehouse(required, sup)
    case Some(plan) => plan
    case None =>
      match FewestCover(required, sup, 2, |sup|)
      case Some(c) => FillPlan(required, c).(fullyCovered := true)
      case None => FillPlan(required, sup)
  }

  method PlanAllocation(required: seq<Line>, supplies: seq<Supply>) returns (plan: Plan)
    requires DistinctKeys(required) && Stocked(supplies)
    ensures plan == Planned(required, supplies)
  {
    var sup := SortBy(Kilometres(), supplies);
    SortByMembers(Kilometres(), supplies);
    var mx := |sup|;
    var s := PlanSingleWarehouse(required, sup);
    if s.Some? { return s.value; }
    var sp := PlanFewestParts(required, sup, mx);
    if sp.Some? { return sp.value; }
    plan := PlanPartial(required, sup, mx);
    VisitedAll(required, sup, mx);
  }
}
