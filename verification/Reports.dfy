/**
 * What a plan reports, line by line: each shortfall is that of one demanded line, with what is asked for, what the
 * parts carry and what no stock can provide, and the score is the distance of the parts.
 */
module Reports {
  import opened Sequences
  import opened Combinations
  import opened Planner
  import opened PlanSearch
  import opened Optimality
  import opened Fulfilment
  import opened Priority
  import opened Alternatives

  // ---------------------------------------------------------------- shortfalls

  /** Shortfall `x` says of line `l` what is asked for, shipped and lacking, and something is lacking. */
  ghost predicate Tells(x: Shortfall, l: Line, plan: Plan, supplies: seq<Supply>) {
    && x.key == l.key
    && x.requested == l.quantity
    && x.supplied == Delivered(plan, l.key)
    && x.missing == Lacking(l.quantity, Total(supplies, l.key))
    && x.missing > 0
  }

  /** The shortfalls are those of the lines at these places. */
  ghost predicate TellsOf(xs: seq<Shortfall>, required: seq<Line>, at: seq<nat>, plan: Plan, supplies: seq<Supply>) {
    && |at| == |xs|
    && forall i :: 0 <= i < |xs| ==> at[i] < |required| && Tells(xs[i], required[at[i]], plan, supplies)
  }

  ghost predicate Increasing(at: seq<nat>) {
    forall i, j :: 0 <= i < j < |at| ==> at[i] < at[j]
  }

  ghost predicate Short(l: Line, supplies: seq<Supply>) {
    Lacking(l.quantity, Total(supplies, l.key)) > 0
  }

  /** The places of the lines that the stock does not meet. */
  ghost function ShortLines(required: seq<Line>, supplies: seq<Supply>): (at: seq<nat>)
    ensures forall i :: 0 <= i < |at| ==> at[i] < |required| && Short(required[at[i]], supplies)
    ensures Increasing(at)
  {
    if required == [] then []
    else
      var n := |required| - 1;
      var at := ShortLines(required[..n], supplies);
      if Short(required[n], supplies) then at + [n] else at
  }

  lemma {:induction false} EveryShortLine(required: seq<Line>, supplies: seq<Supply>, n: nat)
    requires n < |required| && Short(required[n], supplies)
    ensures n in ShortLines(required, supplies)
  {
    if n < |required| - 1 { EveryShortLine(required[..|required|-1], supplies, n); }
  }

  /** A plan ships of a line what all the stock can, and the warehouses it draws on lack no more than all do. */
  ghost predicate Served(l: Line, c: seq<Supply>, supplies: seq<Supply>, plan: Plan) {
    var lacking := Lacking(l.quantity, Total(supplies, l.key));
    Lacking(l.quantity, Total(c, l.key)) == lacking && Delivered(plan, l.key) == Demanded(l.quantity) - lacking
  }

  lemma {:induction false} ShortfallsAt(required: seq<Line>, c: seq<Supply>, supplies: seq<Supply>, plan: Plan)
    requires forall l :: l in required ==> Served(l, c, supplies, plan)
    ensures TellsOf(Shortfalls(required, c), required, ShortLines(required, supplies), plan, supplies)
  {
    if required != [] {
      var init, l := required[..|required|-1], required[|required|-1];
      ShortfallsAt(init, c, supplies, plan);
      assert l in required && Served(l, c, supplies, plan);
      TellsMore(Shortfalls(init, c), required, ShortLines(init, supplies), plan, supplies);
    }
  }

  lemma TellsMore(xs: seq<Shortfall>, required: seq<Line>, at: seq<nat>, plan: Plan, supplies: seq<Supply>)
    requires required != [] && TellsOf(xs, required[..|required|-1], at, plan, supplies)
    ensures TellsOf(xs, required, at, plan, supplies)
  {}

  /**
   * The shortfalls are those of the lines that the stock does not meet, in the order of the demand; each says truly
   * what is asked for, what the parts carry and what is missing.
   */
  lemma ShortfallsTellTheTruth(required: seq<Line>, supplies: seq<Supply>)
    requires DistinctKeys(required) && Stocked(supplies)
    ensures var plan, at := Planned(required, supplies), ShortLines(required, supplies);
      && TellsOf(plan.shortfalls, required, at, plan, supplies)
      && forall n :: 0 <= n < |required| ==> (Short(required[n], supplies) <==> n in at)
  {
    var plan, c := Planned(required, supplies), Chosen(required, supplies);
    forall n | 0 <= n < |required| && Short(required[n], supplies) ensures n in ShortLines(required, supplies) {
      EveryShortLine(required, supplies, n);
    }
    if PositiveDemand(required) {
      PlannedIsFill(required, supplies);
      forall l | l in required ensures Served(l, c, supplies, plan) {
        var n :| 0 <= n < |required| && required[n] == l;
        ChosenLacks(required, supplies, n);
        NothingIsLost(required, supplies, n);
        MissingIsExact(required, supplies, n);
      }
      ShortfallsAt(required, c, supplies, plan);
    } else {
      NoDemandPlan(required, supplies);
    }
  }

  /** So no material is reported twice. */
  lemma OneShortfallAKey(required: seq<Line>, supplies: seq<Supply>)
    requires DistinctKeys(required) && Stocked(supplies)
    ensures var xs := Planned(required, supplies).shortfalls;
      forall i, j :: 0 <= i < j < |xs| ==> xs[i].key != xs[j].key
  {
    ShortfallsTellTheTruth(required, supplies);
    var xs, at := Planned(required, supplies).shortfalls, ShortLines(required, supplies);
    forall i, j | 0 <= i < j < |xs| ensures xs[i].key != xs[j].key {
      assert at[i] < at[j];
    }
  }

  // ---------------------------------------------------------------- the lines of a part

  /** The lines are those of demanded materials, in the order of the demand. */
  ghost predicate InDemandOrder(lines: seq<Line>, required: seq<Line>) {
    exists at: seq<nat> :: At(lines, required, at)
  }

  ghost predicate At(lines: seq<Line>, required: seq<Line>, at: seq<nat>) {
    && |at| == |lines| && Increasing(at)
    && forall i :: 0 <= i < |lines| ==> at[i] < |required| && lines[i].key == required[at[i]].key
  }

  lemma {:induction false} PartLinesInOrder(required: seq<Line>, before: seq<Supply>, s: Supply)
    ensures InDemandOrder(PartLines(required, before, s), required)
  {
    if required == [] {
      assert At([], required, []);
    } else {
      var n := |required| - 1;
      PartLinesInOrder(required[..n], before, s);
      var lines := PartLines(required[..n], before, s);
      var at: seq<nat> :| At(lines, required[..n], at);
      AtStays(lines, required, at);
      if PartLines(required, before, s) != lines {
        AtSnoc(lines, required, at, PartLines(required, before, s)[|lines|]);
      }
    }
  }

  lemma AtStays(lines: seq<Line>, required: seq<Line>, at: seq<nat>)
    requires required != [] && At(lines, required[..|required|-1], at)
    ensures At(lines, required, at)
  {}

  lemma AtSnoc(lines: seq<Line>, required: seq<Line>, at: seq<nat>, l: Line)
    requires required != [] && At(lines, required[..|required|-1], at) && l.key == required[|required|-1].key
    ensures At(lines + [l], required, at + [|required| - 1])
  {}

  lemma {:induction false} PartsInDemandOrder(required: seq<Line>, c: seq<Supply>)
    ensures forall p :: p in Parts(required, c) ==> InDemandOrder(p.lines, required)
  {
    if c != [] {
      PartsInDemandOrder(required, c[..|c|-1]);
      PartLinesInOrder(required, c[..|c|-1], c[|c|-1]);
    }
  }

  /** Every part lists its materials in the order of the demand. */
  lemma LinesInDemandOrder(required: seq<Line>, supplies: seq<Supply>)
    requires Stocked(supplies)
    ensures forall p :: p in Planned(required, supplies).parts ==> InDemandOrder(p.lines, required)
  {
    if PositiveDemand(required) {
      PlannedIsFill(required, supplies);
      PartsInDemandOrder(required, Chosen(required, supplies));
    } else {
      NoDemandPlan(required, supplies);
      assert At([], required, []);
    }
  }

  // ---------------------------------------------------------------- the score

  /** Whatever the order, covered or not, the score is the distance of the parts. */
  lemma ScoreIsPartDistance(required: seq<Line>, supplies: seq<Supply>)
    requires Stocked(supplies)
    ensures Planned(required, supplies).score == Sum(PartKilometres(), Planned(required, supplies).parts)
  {
    if PositiveDemand(required) {
      PlannedIsFill(required, supplies);
    } else if supplies != [] {
      var sup := SortBy(Kilometres(), supplies);
      SortBySorts(Kilometres(), supplies);
      NoDemandPlan(required, supplies);
      var plan := Planned(required, supplies);
      SumSnoc(PartKilometres(), [], plan.parts[0]);
      assert [] + [plan.parts[0]] == plan.parts;
      assert Covers(required, [sup[0]]);
    }
  }

  /** For an order that asks for nothing the missing share is 0. */
  lemma NothingAskedRatio(required: seq<Line>, plan: Plan)
    requires NonNegativeDemand(required) && !PositiveDemand(required)
    ensures ShortfallRatio(plan, required) == 0.0
  {
    SomethingAsked(required);
  }

  // ---------------------------------------------------------------- who can contribute

  /** A warehouse contributes exactly when a visit to it alone ships something. */
  lemma {:induction false} ContributesIffItShips(required: seq<Line>, s: Supply)
    requires Stocked([s])
    ensures Contributes(required, s) <==> PartLines(required, [], s) != []
  {
    if required != [] {
      var init, l := required[..|required|-1], required[|required|-1];
      ContributesIffItShips(init, s);
      assert s in [s];
      assert required == init + [l];
      if Contributes(required, s) && !Contributes(init, s) {
        assert l.quantity > 0 && Stock(s, l.key) > 0;
      }
      if Contributes(init, s) {
        var i :| 0 <= i < |init| && init[i].quantity > 0 && Stock(s, init[i].key) > 0;
        assert required[i] == init[i];
      }
      if l.quantity > 0 && Stock(s, l.key) > 0 {
        assert required[|required|-1].quantity > 0;
      }
    }
  }

  lemma {:induction false} ContributorsHoldAll(required: seq<Line>, c: seq<Supply>, n: nat)
    requires Stocked(c) && n < |required| && required[n].quantity > 0
    ensures Total(Contributors(required, c), required[n].key) == Total(c, required[n].key)
  {
    if c != [] {
      var init, s := c[..|c|-1], c[|c|-1];
      assert s in c;
      ContributorsHoldAll(required, init, n);
      TotalSnoc(init, s, required[n].key);
      assert init + [s] == c;
      TotalSnoc(Contributors(required, init), s, required[n].key);
    }
  }

  /** Leaving out the warehouses that do not contribute neither breaks a cover nor makes one. */
  lemma CoverWithoutIdlers(required: seq<Line>, c: seq<Supply>)
    requires Stocked(c)
    ensures Covers(required, Contributors(required, c)) <==> Covers(required, c)
  {
    forall n | 0 <= n < |required| && required[n].quantity > 0
      ensures Total(Contributors(required, c), required[n].key) == Total(c, required[n].key)
    {
      ContributorsHoldAll(required, c, n);
    }
  }

  // ---------------------------------------------------------------- offers at equal distance

  /** The choices are those of the covering combinations at these places. */
  ghost predicate ChosenAt(os: seq<Choice>, required: seq<Line>, combos: seq<seq<Supply>>, at: seq<nat>) {
    && |at| == |os| && Increasing(at)
    && forall i :: 0 <= i < |os| ==>
         at[i] < |combos| && Covers(required, combos[at[i]])
         && os[i] == Choice(Ids(combos[at[i]]), Distance(combos[at[i]]))
  }

  /** The places of the covering combinations. */
  ghost function CoverPlaces(required: seq<Line>, combos: seq<seq<Supply>>): seq<nat> {
    if combos == [] then []
    else
      var at := CoverPlaces(required, combos[..|combos|-1]);
      if Covers(required, combos[|combos|-1]) then at + [|combos| - 1] else at
  }

  lemma {:induction false} ChoicesAreAtCovers(required: seq<Line>, combos: seq<seq<Supply>>)
    ensures ChosenAt(Choices(required, combos), required, combos, CoverPlaces(required, combos))
  {
    if combos != [] {
      var init := combos[..|combos|-1];
      ChoicesAreAtCovers(required, init);
      if Covers(required, combos[|combos|-1]) {
        ChosenSnoc(Choices(required, init), required, combos, CoverPlaces(required, init));
      } else {
        ChosenStays(Choices(required, init), required, combos, CoverPlaces(required, init));
      }
    }
  }

  lemma ChosenStays(os: seq<Choice>, required: seq<Line>, combos: seq<seq<Supply>>, at: seq<nat>)
    requires combos != [] && ChosenAt(os, required, combos[..|combos|-1], at)
    ensures ChosenAt(os, required, combos, at)
  {}

  lemma ChosenSnoc(os: seq<Choice>, required: seq<Line>, combos: seq<seq<Supply>>, at: seq<nat>)
    requires combos != [] && ChosenAt(os, required, combos[..|combos|-1], at)
    requires Covers(required, combos[|combos|-1])
    ensures var c := combos[|combos|-1];
      ChosenAt(os + [Choice(Ids(c), Distance(c))], required, combos, at + [|combos| - 1])
  {}

  /** Choices at the same distance are offered in the order in which they were generated. */
  lemma EqualOffersKeepOrder(required: seq<Line>, supplies: seq<Supply>, size: int, d: int)
    ensures var combos := Combos(SortBy(Kilometres(), Contributors(required, supplies)), size);
      && Level(ChoiceDistance(), Offered(required, supplies, size), d)
      == Level(ChoiceDistance(), Choices(required, combos), d)
      && ChosenAt(Choices(required, combos), required, combos, CoverPlaces(required, combos))
  {
    var combos := Combos(SortBy(Kilometres(), Contributors(required, supplies)), size);
    SortByStable(ChoiceDistance(), Choices(required, combos), d);
    ChoicesAreAtCovers(required, combos);
  }
}
