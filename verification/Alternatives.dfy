/**
 * The administrator's side: the covering combinations of a given size offered as alternatives, and the
 * re-plan on a chosen set of warehouses.
 */
module Alternatives {
  import opened Sequences
  import opened Combinations
  import opened Planner
  import opened PlanSearch
  import opened Optimality
  import opened Fulfilment
  import opened Priority

  /** One offered set of warehouses. */
  datatype Choice = Choice(warehouseIds: seq<string>, totalDistance: int)

  function ChoiceDistance(): Choice -> int {
    (o: Choice) => o.totalDistance
  }

  function Ids(c: seq<Supply>): (r: seq<string>)
    ensures |r| == |c| && forall i :: 0 <= i < |c| ==> r[i] == c[i].warehouseId
  {
    seq(|c|, i requires 0 <= i < |c| => c[i].warehouseId)
  }

  /** The warehouse has some of something that is asked for. */
  predicate Contributes(required: seq<Line>, s: Supply) {
    exists i :: 0 <= i < |required| && required[i].quantity > 0 && Stock(s, required[i].key) > 0
  }

  function Contributors(required: seq<Line>, supplies: seq<Supply>): seq<Supply> {
    if supplies == [] then []
    else
      var init, s := Contributors(required, supplies[..|supplies|-1]), supplies[|supplies|-1];
      if Contributes(required, s) then init + [s] else init
  }

  /** The covering combinations among `combos`, as choices. */
  function Choices(required: seq<Line>, combos: seq<seq<Supply>>): seq<Choice> {
    if combos == [] then []
    else
      var init, c := Choices(required, combos[..|combos|-1]), combos[|combos|-1];
      if Covers(required, c) then init + [Choice(Ids(c), Distance(c))] else init
  }

  /** The alternatives offered for `size` warehouses, nearest first. */
  function Offered(required: seq<Line>, supplies: seq<Supply>, size: int): seq<Choice> {
    var sup := SortBy(Kilometres(), Contributors(required, supplies));
    SortBy(ChoiceDistance(), Choices(required, Combos(sup, size)))
  }

  method CoveringCombinations(required: seq<Line>, supplies: seq<Supply>, size: int) returns (opts: seq<Choice>)
    ensures opts == Offered(required, supplies, size)
  {
    var sup := SortBy(Kilometres(), Contributors(required, supplies));
    if size < 1 || size > |sup| { return []; }
    opts := [];
    var combos := Generate(sup, size);
    for i := 0 to |combos|
      invariant opts == Choices(required, combos[..i])
    {
      assert combos[..i+1][..i] == combos[..i];
      var c := combos[i];
      if Covers(required, c) { opts := opts + [Choice(Ids(c), Distance(c))]; }
    }
    assert combos[..|combos|] == combos;
    opts := SortBy(ChoiceDistance(), opts);
  }

  // ---------------------------------------------------------------- contributors

  ghost function Contributing(required: seq<Line>, supplies: seq<Supply>): set<Supply> {
    set s | s in supplies && Contributes(required, s)
  }

  lemma {:induction false} ContributorsAreSelected(required: seq<Line>, supplies: seq<Supply>, keep: set<Supply>)
    requires forall s :: s in supplies ==> (s in keep <==> Contributes(required, s))
    ensures Contributors(required, supplies) == Select(supplies, keep)
  {
    if supplies != [] { ContributorsAreSelected(required, supplies[..|supplies|-1], keep); }
  }

  /** The contributors in order of distance: distinct warehouses, all known, all contributing. */
  lemma ContributorsInOrder(required: seq<Line>, supplies: seq<Supply>)
    requires DistinctWarehouses(supplies)
    ensures var sup := SortBy(Kilometres(), Contributors(required, supplies));
      && Distinct(sup) && DistinctWarehouses(sup)
      && forall s :: s in sup <==> s in supplies && Contributes(required, s)
  {
    var con := Contributors(required, supplies);
    ContributorsAreSelected(required, supplies, Contributing(required, supplies));
    SelectMembers(supplies, Contributing(required, supplies));
    DistinctSupplies(supplies);
    SelectDistinct(supplies, Contributing(required, supplies));
    MembersDistinctWarehouses(supplies, con);
    SortBySorts(Kilometres(), con);
    SortByMembers(Kilometres(), con);
    DistinctWarehousesPermuted(con, SortBy(Kilometres(), con));
    DistinctSupplies(SortBy(Kilometres(), con));
  }

  lemma MembersDistinctWarehouses(supplies: seq<Supply>, c: seq<Supply>)
    requires DistinctWarehouses(supplies) && Distinct(c) && forall s :: s in c ==> s in supplies
    ensures DistinctWarehouses(c)
  {
    forall i, j | 0 <= i < j < |c| ensures c[i].warehouseId != c[j].warehouseId {
      assert c[i] in supplies && c[j] in supplies;
      var x :| 0 <= x < |supplies| && supplies[x] == c[i];
      var y :| 0 <= y < |supplies| && supplies[y] == c[j];
    }
  }

  // ---------------------------------------------------------------- what is offered

  lemma {:induction false} ChoicesAreCovers(required: seq<Line>, combos: seq<seq<Supply>>, o: Choice)
    requires o in Choices(required, combos)
    ensures exists c :: c in combos && Covers(required, c) && o == Choice(Ids(c), Distance(c))
  {
    var init, c := combos[..|combos|-1], combos[|combos|-1];
    assert combos == init + [c];
    if o in Choices(required, init) {
      ChoicesAreCovers(required, init, o);
      var d :| d in init && Covers(required, d) && o == Choice(Ids(d), Distance(d));
      assert d in combos;
    } else {
      assert c in combos;
    }
  }

  lemma {:induction false} CoversAreChoices(required: seq<Line>, combos: seq<seq<Supply>>, c: seq<Supply>)
    requires c in combos && Covers(required, c)
    ensures Choice(Ids(c), Distance(c)) in Choices(required, combos)
  {
    var init, last := combos[..|combos|-1], combos[|combos|-1];
    assert combos == init + [last];
    if c in init { CoversAreChoices(required, init, c); }
  }

  /** The selection `keep` of the contributing warehouses, nearest first. */
  function Selected(required: seq<Line>, supplies: seq<Supply>, keep: set<Supply>): seq<Supply> {
    Select(SortBy(Kilometres(), Contributors(required, supplies)), keep)
  }

  /** Everything offered is a covering choice of `size` contributing warehouses, at its true distance. */
  lemma OfferedAreCovers(required: seq<Line>, supplies: seq<Supply>, size: int, o: Choice)
    requires DistinctWarehouses(supplies) && o in Offered(required, supplies, size)
    ensures exists keep :: var c := Selected(required, supplies, keep);
      |c| == size && Covers(required, c) && o == Choice(Ids(c), Distance(c))
  {
    var sup := SortBy(Kilometres(), Contributors(required, supplies));
    ContributorsInOrder(required, supplies);
    SortByMembers(ChoiceDistance(), Choices(required, Combos(sup, size)));
    ChoicesAreCovers(required, Combos(sup, size), o);
    var c :| c in Combos(sup, size) && Covers(required, c) && o == Choice(Ids(c), Distance(c));
    GeneratedIsSelection(sup, size, c);
    assert c == Selected(required, supplies, Members(c));
  }

  /** And every covering choice of `size` contributing warehouses is offered. */
  lemma CoversAreOffered(required: seq<Line>, supplies: seq<Supply>, keep: set<Supply>)
    requires var c := Selected(required, supplies, keep); c != [] && Covers(required, c)
    ensures var c := Selected(required, supplies, keep);
      Choice(Ids(c), Distance(c)) in Offered(required, supplies, |c|)
  {
    var sup, c := SortBy(Kilometres(), Contributors(required, supplies)), Selected(required, supplies, keep);
    SelectionIsGenerated(sup, keep);
    CoversAreChoices(required, Combos(sup, |c|), c);
    SortByMembers(ChoiceDistance(), Choices(required, Combos(sup, |c|)));
  }

  lemma {:induction false} ChoicesDistinct(required: seq<Line>, combos: seq<seq<Supply>>, all: seq<Supply>)
    requires Distinct(combos) && DistinctWarehouses(all)
    requires forall c :: c in combos ==> forall s :: s in c ==> s in all
    ensures Distinct(Choices(required, combos))
  {
    if combos != [] {
      var init, c := combos[..|combos|-1], combos[|combos|-1];
      assert forall d :: d in init ==> d in combos;
      ChoicesDistinct(required, init, all);
      var o := Choice(Ids(c), Distance(c));
      if o in Choices(required, init) {
        ChoicesAreCovers(required, init, o);
        var d :| d in init && Covers(required, d) && o == Choice(Ids(d), Distance(d));
        assert c in combos;
        IdsDetermine(all, c, d);
      }
    }
  }

  lemma IdsDetermine(all: seq<Supply>, c: seq<Supply>, d: seq<Supply>)
    requires DistinctWarehouses(all) && Ids(c) == Ids(d)
    requires forall s :: s in c ==> s in all
    requires forall s :: s in d ==> s in all
    ensures c == d
  {
    assert |c| == |Ids(c)| == |Ids(d)| == |d|;
    forall i | 0 <= i < |c| ensures c[i] == d[i] {
      assert Ids(c)[i] == Ids(d)[i];
      assert c[i] in all && d[i] in all;
    }
  }

  /** No choice is offered twice, and the nearest come first. */
  lemma OfferedOnceByDistance(required: seq<Line>, supplies: seq<Supply>, size: int)
    requires DistinctWarehouses(supplies)
    ensures Distinct(Offered(required, supplies, size))
    ensures Ascending(ChoiceDistance(), Offered(required, supplies, size))
  {
    var sup := SortBy(Kilometres(), Contributors(required, supplies));
    var combos := Combos(sup, size);
    ContributorsInOrder(required, supplies);
    CombosDistinct(sup, size);
    forall c | c in combos ensures forall s :: s in c ==> s in sup { ComboMembers(sup, size, c); }
    ChoicesDistinct(required, combos, sup);
    SortBySorts(ChoiceDistance(), Choices(required, combos));
    DistinctPermuted(Choices(required, combos), Offered(required, supplies, size));
  }

  lemma CombosDistinct<T>(s: seq<T>, k: int)
    requires Distinct(s)
    ensures Distinct(Combos(s, k))
  {
    if 0 < k <= |s| {
      var ts := Tuples(0, |s|, k);
      TuplesAreCombinations(0, |s|, k);
      TuplesNeverRepeat(|s|, k);
      forall i, j | 0 <= i < j < |ts| ensures Combos(s, k)[i] != Combos(s, k)[j] {
        assert IsCombination(ts[i], 0, |s|, k) && IsCombination(ts[j], 0, |s|, k);
        PickDiffers(s, ts[i], ts[j], k);
      }
    }
  }

  lemma PickDiffers<T>(s: seq<T>, t: seq<int>, u: seq<int>, k: nat)
    requires Distinct(s) && IsCombination(t, 0, |s|, k) && IsCombination(u, 0, |s|, k) && t != u
    ensures Pick(s, t) != Pick(s, u)
  {
    var i :| 0 <= i < k && t[i] != u[i];
    assert Pick(s, t)[i] == s[t[i]] && Pick(s, u)[i] == s[u[i]];
  }

  // ---------------------------------------------------------------- the alternatives to the plan

  /** A minimal cover holds only contributing warehouses: another one could be left out. */
  lemma MinimalCoverContributes(required: seq<Line>, sup: seq<Supply>, c: seq<Supply>, i: nat)
    requires PositiveDemand(required) && Stocked(sup) && MinimalCover(required, sup, c) && i < |c|
    ensures Contributes(required, c[i])
  {
    ComboMembers(sup, |c|, c);
    if !Contributes(required, c[i]) {
      UselessCanBeDropped(required, c, i);
      if |c| == 1 {
        NothingCoversNothing(required);
      } else {
        DroppedIsGenerated(sup, |c|, c, i);
      }
    }
  }

  lemma UselessCanBeDropped(required: seq<Line>, c: seq<Supply>, i: nat)
    requires i < |c| && Covers(required, c) && !Contributes(required, c[i])
    ensures Covers(required, c[..i] + c[i+1..])
  {
    forall n | 0 <= n < |required| && required[n].quantity > 0
      ensures Total(c[..i] + c[i+1..], required[n].key) >= required[n].quantity
    {
      SumWithout(StockOf(required[n].key), c, i);
    }
  }

  /** Any cover of the plan's size is offered, so dropping the other warehouses loses no alternative. */
  lemma PlanSizedCoversAreOffered(required: seq<Line>, supplies: seq<Supply>, keep: set<Supply>)
    requires PositiveDemand(required) && Stocked(supplies) && DistinctWarehouses(supplies)
    requires Covers(required, Select(supplies, keep))
    requires |Select(supplies, keep)| == |Planned(required, supplies).parts|
    ensures var c := Selected(required, supplies, keep);
      && multiset(c) == multiset(Select(supplies, keep))
      && Choice(Ids(c), Distance(Select(supplies, keep))) in Offered(required, supplies, |c|)
  {
    var sel, c := Select(supplies, keep), Selected(required, supplies, keep);
    SelectedCoverIsCover(required, supplies, keep);
    PartsAreTheChosen(required, supplies);
    SmallCoverContributes(required, supplies, keep);
    SelectedIsSelect(required, supplies, keep);
    CoversPermuted(required, sel, c);
    NothingCoversNothing(required);
    CoversAreOffered(required, supplies, keep);
  }

  lemma SelectedCoverIsCover(required: seq<Line>, supplies: seq<Supply>, keep: set<Supply>)
    requires Stocked(supplies) && Covers(required, Select(supplies, keep))
    requires PositiveDemand(required)
    ensures Covers(required, supplies)
  {
    NothingCoversNothing(required);
    SelectionIsGenerated(supplies, keep);
    ComboCoverIsCover(required, supplies, |Select(supplies, keep)|, Select(supplies, keep));
  }

  /** Each member of a cover of the plan's size contributes. */
  lemma SmallCoverContributes(required: seq<Line>, supplies: seq<Supply>, keep: set<Supply>)
    requires PositiveDemand(required) && Stocked(supplies) && Covers(required, supplies)
    requires DistinctWarehouses(supplies) && Covers(required, Select(supplies, keep))
    requires |Select(supplies, keep)| == |Planned(required, supplies).parts|
    ensures forall s :: s in Select(supplies, keep) ==> Contributes(required, s)
  {
    var sel := Select(supplies, keep);
    forall s | s in sel ensures Contributes(required, s) {
      var i :| 0 <= i < |sel| && sel[i] == s;
      if !Contributes(required, s) {
        UselessCanBeDropped(required, sel, i);
        DistinctSupplies(supplies);
        SelectDistinct(supplies, keep);
        DroppedIsSelected(supplies, keep, i);
        PlanBeatsEverySelection(required, supplies, keep - {s});
      }
    }
  }

  lemma DroppedIsSelected<T>(s: seq<T>, keep: set<T>, i: nat)
    requires Distinct(s) && i < |Select(s, keep)|
    ensures var sel := Select(s, keep); Select(s, keep - {sel[i]}) == sel[..i] + sel[i+1..]
  {
    var sel := Select(s, keep);
    SelectDistinct(s, keep);
    SelectTwice(s, keep, keep - {sel[i]});
    forall j | 0 <= j < |sel| && j != i ensures sel[j] in keep - {sel[i]} {
      SelectKeeps(s, keep, j);
      DistinctAt(sel, i, j);
    }
    SelectAllButOne(sel, i, keep - {sel[i]});
  }

  lemma {:induction false} SelectKeeps<T>(s: seq<T>, keep: set<T>, j: nat)
    requires j < |Select(s, keep)|
    ensures Select(s, keep)[j] in keep
  {
    if j < |Select(s[..|s|-1], keep)| { SelectKeeps(s[..|s|-1], keep, j); }
  }

  lemma DistinctAt<T>(s: seq<T>, i: nat, j: nat)
    requires Distinct(s) && i < |s| && j < |s| && i != j
    ensures s[i] != s[j]
  {
    assert s[if i < j then i else j] != s[if i < j then j else i];
  }

  lemma {:induction false} SelectAllButOne<T>(s: seq<T>, i: nat, keep: set<T>)
    requires i < |s| && s[i] !in keep
    requires forall j :: 0 <= j < |s| && j != i ==> s[j] in keep
    ensures Select(s, keep) == s[..i] + s[i+1..]
  {
    var init := s[..|s|-1];
    if i == |s| - 1 {
      forall x | x in init ensures x in keep {
        var j :| 0 <= j < |init| && init[j] == x;
        assert s[j] in keep;
      }
      SelectAll(init, keep);
    } else {
      SelectAllButOne(init, i, keep);
    }
  }

  lemma {:induction false} SelectTwice<T>(s: seq<T>, big: set<T>, small: set<T>)
    requires small <= big
    ensures Select(Select(s, big), small) == Select(s, small)
  {
    if s != [] {
      SelectTwice(s[..|s|-1], big, small);
      SelectSnoc(Select(s[..|s|-1], big), s[|s|-1], small);
    }
  }

  lemma SelectedIsSelect(required: seq<Line>, supplies: seq<Supply>, keep: set<Supply>)
    requires forall s :: s in Select(supplies, keep) ==> Contributes(required, s)
    ensures multiset(Selected(required, supplies, keep)) == multiset(Select(supplies, keep))
  {
    var con, want := Contributors(required, supplies), Contributing(required, supplies);
    ContributorsAreSelected(required, supplies, want);
    SortBySorts(Kilometres(), con);
    SelectPermuted(SortBy(Kilometres(), con), con, keep);
    SelectMembers(supplies, keep);
    SelectTwice(supplies, want, keep * want);
    SelectMembers(supplies, want);
    SelectAgrees(con, keep, keep * want);
    SelectAgrees(supplies, keep, keep * want);
  }

  /** The nearest alternative of the plan's size is exactly as near as the plan. */
  lemma FirstOfferMatchesPlan(required: seq<Line>, supplies: seq<Supply>)
    requires PositiveDemand(required) && Stocked(supplies) && DistinctWarehouses(supplies) && Covers(required, supplies)
    ensures var plan := Planned(required, supplies);
      var opts := Offered(required, supplies, |plan.parts|);
      opts != [] && opts[0].totalDistance == plan.score
  {
    var plan := Planned(required, supplies);
    var keep := Members(Chosen(required, supplies));
    var opts := Offered(required, supplies, |plan.parts|);
    PlanIsASelection(required, supplies);
    PlanSizedCoversAreOffered(required, supplies, keep);
    PermutedLength(Selected(required, supplies, keep), Select(supplies, keep));
    OfferedOnceByDistance(required, supplies, |plan.parts|);
    var mine := Choice(Ids(Selected(required, supplies, keep)), plan.score);
    var m :| 0 <= m < |opts| && opts[m] == mine;
    assert m > 0 ==> ChoiceDistance()(opts[0]) <= ChoiceDistance()(opts[m]);
    NoOfferIsNearer(required, supplies, opts[0]);
  }

  lemma NoOfferIsNearer(required: seq<Line>, supplies: seq<Supply>, o: Choice)
    requires PositiveDemand(required) && Stocked(supplies) && DistinctWarehouses(supplies) && Covers(required, supplies)
    requires o in Offered(required, supplies, |Planned(required, supplies).parts|)
    ensures Planned(required, supplies).score <= o.totalDistance
  {
    var size := |Planned(required, supplies).parts|;
    OfferedAreCovers(required, supplies, size, o);
    var keep :| var c := Selected(required, supplies, keep);
      |c| == size && Covers(required, c) && o == Choice(Ids(c), Distance(c));
    var c, want := Selected(required, supplies, keep), Contributing(required, supplies);
    ContributorsAreSelected(required, supplies, want);
    SortBySorts(Kilometres(), Contributors(required, supplies));
    SelectPermuted(SortBy(Kilometres(), Contributors(required, supplies)), Contributors(required, supplies), keep);
    SelectTwice(supplies, want, keep * want);
    SelectMembers(supplies, want);
    SelectAgrees(Contributors(required, supplies), keep, keep * want);
    CoversPermuted(required, c, Select(supplies, keep * want));
    PlanBeatsEverySelection(required, supplies, keep * want);
  }

  // ---------------------------------------------------------------- re-planning on a chosen set

  function WithIds(supplies: seq<Supply>, ids: set<string>): seq<Supply> {
    if supplies == [] then []
    else
      var init, s := WithIds(supplies[..|supplies|-1], ids), supplies[|supplies|-1];
      if s.warehouseId in ids then init + [s] else init
  }

  function IdSet(ids: seq<string>): set<string> {
    set id | id in ids
  }

  /** The plan on exactly these warehouses, or nothing when one is unknown or they do not cover the order. */
  function Replanned(required: seq<Line>, supplies: seq<Supply>, warehouseIds: seq<string>): Option<Plan> {
    var w := IdSet(warehouseIds);
    var ch := WithIds(supplies, w);
    if |ch| != |w| || !Covers(required, ch) then None
    else Some(FillPlan(required, SortBy(Kilometres(), ch)).(fullyCovered := true))
  }

  method PlanForWarehouses(required: seq<Line>, supplies: seq<Supply>, warehouseIds: seq<string>)
      returns (plan: Option<Plan>)
    requires DistinctKeys(required) && Stocked(supplies)
    ensures plan == Replanned(required, supplies, warehouseIds)
  {
    var w := IdSet(warehouseIds);
    var ch := WithIds(supplies, w);
    if |ch| != |w| { return None; }
    if !Covers(required, ch) { return None; }
    WithIdsMembers(supplies, w);
    SortByMembers(Kilometres(), ch);
    var p := BuildCoveringPlan(required, SortBy(Kilometres(), ch));
    return Some(p);
  }

  lemma {:induction false} WithIdsMembers(supplies: seq<Supply>, ids: set<string>)
    ensures forall s :: s in WithIds(supplies, ids) <==> s in supplies && s.warehouseId in ids
  {
    if supplies != [] {
      WithIdsMembers(supplies[..|supplies|-1], ids);
      assert supplies == supplies[..|supplies|-1] + [supplies[|supplies|-1]];
    }
  }

  lemma {:induction false} WithIdsDistinct(supplies: seq<Supply>, ids: set<string>)
    requires DistinctWarehouses(supplies)
    ensures DistinctWarehouses(WithIds(supplies, ids))
  {
    if supplies != [] {
      WithIdsDistinct(supplies[..|supplies|-1], ids);
      WithIdsMembers(supplies[..|supplies|-1], ids);
    }
  }

  lemma {:induction false} DistinctIdCount(c: seq<Supply>)
    requires DistinctWarehouses(c)
    ensures |IdSet(Ids(c))| == |c|
  {
    if c != [] {
      var init, s := c[..|c|-1], c[|c|-1];
      DistinctIdCount(init);
      assert Ids(c) == Ids(init) + [s.warehouseId];
      assert IdSet(Ids(c)) == IdSet(Ids(init)) + {s.warehouseId};
      assert s.warehouseId !in IdSet(Ids(init));
    }
  }

  lemma SubsetOfSameSize<T>(a: set<T>, b: set<T>)
    requires a <= b
    ensures |a| <= |b|
    ensures |a| == |b| ==> a == b
  {
    assert b == a + (b - a);
    assert |b| == |a| + |b - a|;
  }

  ghost predicate Known(supplies: seq<Supply>, id: string) {
    exists s :: s in supplies && s.warehouseId == id
  }

  /** The count test of the re-plan says exactly that every id is known. */
  lemma AllKnownIffCounted(supplies: seq<Supply>, w: set<string>)
    requires DistinctWarehouses(supplies)
    ensures |WithIds(supplies, w)| == |w| <==> forall id :: id in w ==> Known(supplies, id)
  {
    var ch := WithIds(supplies, w);
    var have := IdSet(Ids(ch));
    WithIdsDistinct(supplies, w);
    DistinctIdCount(ch);
    HaveIffKnown(supplies, w);
    SubsetOfSameSize(have, w);
    if |ch| == |w| {
      assert have == w;
    }
    if forall id :: id in w ==> Known(supplies, id) {
      assert have == w;
    }
  }

  /** The ids that are found are those that are asked for and known. */
  lemma HaveIffKnown(supplies: seq<Supply>, w: set<string>)
    ensures forall id :: id in IdSet(Ids(WithIds(supplies, w))) <==> id in w && Known(supplies, id)
    ensures IdSet(Ids(WithIds(supplies, w))) <= w
  {
    var ch := WithIds(supplies, w);
    WithIdsMembers(supplies, w);
    forall id | id in Ids(ch) ensures id in w && Known(supplies, id) {
      var i :| 0 <= i < |ch| && Ids(ch)[i] == id;
      assert ch[i] in ch;
    }
    forall id | id in w && Known(supplies, id) ensures id in Ids(ch) {
      var s :| s in supplies && s.warehouseId == id;
      assert s in ch;
      var i :| 0 <= i < |ch| && ch[i] == s;
      assert Ids(ch)[i] == id;
    }
  }

  /** The re-plan is refused exactly when an id is unknown or the warehouses do not cover the order. */
  lemma ReplanRefusedIff(required: seq<Line>, supplies: seq<Supply>, warehouseIds: seq<string>)
    requires DistinctWarehouses(supplies)
    ensures Replanned(required, supplies, warehouseIds).None? <==>
      (exists id :: id in warehouseIds && !Known(supplies, id))
          || !Covers(required, WithIds(supplies, IdSet(warehouseIds)))
  {
    AllKnownIffCounted(supplies, IdSet(warehouseIds));
  }

  /** The warehouses of a re-plan, nearest first. */
  function ReplanOrder(supplies: seq<Supply>, warehouseIds: seq<string>): seq<Supply> {
    SortBy(Kilometres(), WithIds(supplies, IdSet(warehouseIds)))
  }

  lemma ReplanIsFill(required: seq<Line>, supplies: seq<Supply>, warehouseIds: seq<string>)
    requires Replanned(required, supplies, warehouseIds).Some?
    ensures Replanned(required, supplies, warehouseIds).value == FillPlan(required, ReplanOrder(supplies, warehouseIds))
  {
    var ch, c := WithIds(supplies, IdSet(warehouseIds)), ReplanOrder(supplies, warehouseIds);
    SortBySorts(Kilometres(), ch);
    CoversPermuted(required, ch, c);
    ShortfallsEmpty(required, c);
  }

  /** An accepted re-plan leaves no shortfall and ships every line in full. */
  lemma ReplanShipsEverything(required: seq<Line>, supplies: seq<Supply>, warehouseIds: seq<string>, n: nat)
    requires DistinctKeys(required) && Stocked(supplies) && n < |required|
    requires Replanned(required, supplies, warehouseIds).Some?
    ensures var plan := Replanned(required, supplies, warehouseIds).value;
      && plan.fullyCovered && plan.shortfalls == []
      && Delivered(plan, required[n].key) == Demanded(required[n].quantity)
  {
    var ch, c := WithIds(supplies, IdSet(warehouseIds)), ReplanOrder(supplies, warehouseIds);
    WithIdsMembers(supplies, IdSet(warehouseIds));
    SortBySorts(Kilometres(), ch);
    StockedPermuted(ch, c);
    CoversPermuted(required, ch, c);
    ReplanIsFill(required, supplies, warehouseIds);
    CoverDelivers(required, c, n);
  }

  lemma CoverDelivers(required: seq<Line>, c: seq<Supply>, n: nat)
    requires DistinctKeys(required) && Stocked(c) && n < |required| && Covers(required, c)
    ensures var plan := FillPlan(required, c);
      && plan.fullyCovered && plan.shortfalls == []
      && Delivered(plan, required[n].key) == Demanded(required[n].quantity)
  {
    ShortfallsEmpty(required, c);
    PartsCarry(required, c, n);
  }

  /** The warehouses with the ids of a selection are that selection. */
  lemma WithIdsOfSelection(supplies: seq<Supply>, c: seq<Supply>)
    requires DistinctWarehouses(supplies) && DistinctWarehouses(c) && forall s :: s in c ==> s in supplies
    ensures multiset(WithIds(supplies, IdSet(Ids(c)))) == multiset(c)
    ensures |WithIds(supplies, IdSet(Ids(c)))| == |IdSet(Ids(c))|
  {
    var w := IdSet(Ids(c));
    var ch := WithIds(supplies, w);
    WithIdsMembers(supplies, w);
    WithIdsDistinct(supplies, w);
    DistinctSupplies(ch);
    DistinctSupplies(c);
    forall s | s in c ensures s in ch {
      var i :| 0 <= i < |c| && c[i] == s;
      assert Ids(c)[i] == s.warehouseId;
    }
    forall s | s in ch ensures s in c {
      var i :| 0 <= i < |c| && Ids(c)[i] == s.warehouseId;
      SameIdSameSupply(supplies, s, c[i]);
    }
    DistinctSameMembers(ch, c);
    PermutedLength(ch, c);
    DistinctIdCount(c);
  }

  lemma SameIdSameSupply(supplies: seq<Supply>, a: Supply, b: Supply)
    requires DistinctWarehouses(supplies) && a in supplies && b in supplies && a.warehouseId == b.warehouseId
    ensures a == b
  {}

  /** Every alternative on offer is accepted by the re-plan, and leaves no shortfall. */
  lemma OfferedIsAccepted(required: seq<Line>, supplies: seq<Supply>, size: int, o: Choice)
    requires DistinctKeys(required) && Stocked(supplies) && DistinctWarehouses(supplies)
    requires o in Offered(required, supplies, size)
    ensures Replanned(required, supplies, o.warehouseIds).Some?
    ensures Replanned(required, supplies, o.warehouseIds).value.shortfalls == []
  {
    var sup := SortBy(Kilometres(), Contributors(required, supplies));
    OfferedAreCovers(required, supplies, size, o);
    var keep :| var c := Selected(required, supplies, keep);
      |c| == size && Covers(required, c) && o == Choice(Ids(c), Distance(c));
    var c := Selected(required, supplies, keep);
    ContributorsInOrder(required, supplies);
    SelectMembers(sup, keep);
    SelectDistinct(sup, keep);
    MembersDistinctWarehouses(sup, c);
    WithIdsOfSelection(supplies, c);
    var ch := WithIds(supplies, IdSet(o.warehouseIds));
    CoversPermuted(required, c, ch);
    SortBySorts(Kilometres(), ch);
    CoversPermuted(required, ch, SortBy(Kilometres(), ch));
    ShortfallsEmpty(required, SortBy(Kilometres(), ch));
  }
}
