/**
 * The migration that leaves one warehouse for each Odoo id: every duplicated id keeps its busiest warehouse, the
 * rows of the others are repointed at it, their stock lines and then they themselves are deleted. Deleting a warehouse
 * clears the truck handovers that name it and deletes the offers, ratings, complaints and distances attached to it.
 * A violated constraint aborts the whole migration.
 */
module WarehouseMerge {

  /** `renamed` says that the code ends in a dash and digits. */
  datatype Warehouse = Warehouse(odooId: int, linked: bool, renamed: bool)

  /** Row id to the warehouse it points at; an unlinked row points nowhere. */
  datatype Link = Nowhere | At(warehouse: nat)

  /** The tables whose rows are deleted with their warehouse. */
  datatype Row = Offer(id: nat) | Rating(id: nat) | Complaint(id: nat) | CachedDistance(id: nat)

  datatype Database = Database(
    warehouses: map<nat, Warehouse>,
    managers: map<nat, Link>, trucks: map<nat, Link>, collectors: map<nat, Link>, tariffs: map<nat, Link>,
    inventory: map<nat, nat>, orderParts: map<nat, nat>,
    handovers: map<nat, Link>, attached: map<Row, nat>)

  // ---------------------------------------------------------------- constraints

  ghost predicate LinksExist(t: map<nat, Link>, ws: map<nat, Warehouse>) {
    forall r :: r in t && t[r].At? ==> t[r].warehouse in ws
  }

  ghost predicate RowsExist(t: map<nat, nat>, ws: map<nat, Warehouse>) {
    forall r :: r in t ==> t[r] in ws
  }

  ghost predicate AttachedExist(t: map<Row, nat>, ws: map<nat, Warehouse>) {
    forall r :: r in t ==> t[r] in ws
  }

  /** The foreign keys hold. */
  ghost predicate Sound(db: Database) {
    && LinksExist(db.managers, db.warehouses) && LinksExist(db.trucks, db.warehouses)
    && LinksExist(db.collectors, db.warehouses) && LinksExist(db.tariffs, db.warehouses)
    && RowsExist(db.inventory, db.warehouses) && RowsExist(db.orderParts, db.warehouses)
    && LinksExist(db.handovers, db.warehouses) && AttachedExist(db.attached, db.warehouses)
  }

  /** At most one manager row a warehouse. */
  predicate OneManagerEach(t: map<nat, Link>) {
    forall r, r' :: r in t && r' in t && t[r].At? && t[r] == t[r'] ==> r == r'
  }

  // ---------------------------------------------------------------- choosing the winner

  function LinkedRows(t: map<nat, Link>, w: nat): set<nat> {
    set r | r in t && t[r] == At(w)
  }

  function Rows(t: map<nat, nat>, w: nat): set<nat> {
    set r | r in t && t[r] == w
  }

  function Dependents(db: Database, w: nat): nat {
    |Rows(db.inventory, w)| + |LinkedRows(db.managers, w)| + |LinkedRows(db.trucks, w)|
      + |LinkedRows(db.collectors, w)| + |LinkedRows(db.tariffs, w)|
  }

  /** The warehouses linked to an Odoo id. */
  function Group(db: Database, odooId: int): set<nat> {
    set w | w in db.warehouses && db.warehouses[w].linked && db.warehouses[w].odooId == odooId
  }

  /** `a` is listed no later than `b`: more dependents, then a code that was never renamed, then the lower id. */
  predicate NoLater(db: Database, a: nat, b: nat)
    requires a in db.warehouses && b in db.warehouses
  {
    var da, db' := Dependents(db, a), Dependents(db, b);
    var ra, rb := db.warehouses[a].renamed, db.warehouses[b].renamed;
    da > db' || (da == db' && ((!ra && rb) || (ra == rb && a <= b)))
  }

  predicate IsFirst(db: Database, group: set<nat>, w: nat) {
    && w in group && (forall c :: c in group ==> c in db.warehouses)
    && forall c :: c in group ==> NoLater(db, w, c)
  }

  lemma NoLaterTransitive(db: Database, a: nat, b: nat, c: nat)
    requires a in db.warehouses && b in db.warehouses && c in db.warehouses
    requires !NoLater(db, b, a) && NoLater(db, b, c)
    ensures NoLater(db, a, c)
  {}

  lemma {:induction false} FirstExists(db: Database, group: set<nat>)
    requires group != {} && forall c :: c in group ==> c in db.warehouses
    ensures exists w :: IsFirst(db, group, w)
    decreases |group|
  {
    var x :| x in group;
    if group == {x} {
      assert IsFirst(db, group, x);
    } else {
      var rest := group - {x};
      assert group == rest + {x};
      FirstExists(db, rest);
      var w :| IsFirst(db, rest, w);
      if NoLater(db, w, x) {
        assert IsFirst(db, group, w);
      } else {
        forall c | c in group ensures NoLater(db, x, c) {
          if c != x { NoLaterTransitive(db, x, w, c); }
        }
        assert IsFirst(db, group, x);
      }
    }
  }

  lemma FirstIsUnique(db: Database, group: set<nat>, a: nat, b: nat)
    requires IsFirst(db, group, a) && IsFirst(db, group, b)
    ensures a == b
  {
    assert NoLater(db, a, b) && NoLater(db, b, a);
  }

  ghost function Winner(db: Database, odooId: int): (w: nat)
    requires Group(db, odooId) != {}
    ensures IsFirst(db, Group(db, odooId), w)
  {
    FirstExists(db, Group(db, odooId));
    var w :| IsFirst(db, Group(db, odooId), w);
    w
  }

  // ---------------------------------------------------------------- a database after some merges

  /** Where a warehouse has gone after the merges in `m`. */
  function Moved(m: map<nat, nat>, w: nat): nat {
    if w in m then m[w] else w
  }

  function MovedLink(m: map<nat, nat>, l: Link): Link {
    match l case Nowhere => Nowhere case At(w) => At(Moved(m, w))
  }

  function MovedLinks(m: map<nat, nat>, t: map<nat, Link>): (r: map<nat, Link>)
    ensures r.Keys == t.Keys && forall x :: x in t ==> r[x] == MovedLink(m, t[x])
  {
    map x | x in t :: MovedLink(m, t[x])
  }

  /** Links to merged warehouses are cleared. */
  function ClearedLinks(m: map<nat, nat>, t: map<nat, Link>): (r: map<nat, Link>)
    ensures r.Keys == t.Keys
    ensures forall x :: x in t ==> r[x] == if t[x].At? && t[x].warehouse in m then Nowhere else t[x]
  {
    map x | x in t :: if t[x].At? && t[x].warehouse in m then Nowhere else t[x]
  }

  function Kept(m: map<nat, nat>, t: map<nat, nat>): (r: map<nat, nat>)
    ensures forall x :: x in r <==> x in t && t[x] !in m
    ensures forall x :: x in r ==> r[x] == t[x]
  {
    map x | x in t && t[x] !in m :: t[x]
  }

  function KeptAttached(m: map<nat, nat>, t: map<Row, nat>): (r: map<Row, nat>)
    ensures forall x :: x in r <==> x in t && t[x] !in m
    ensures forall x :: x in r ==> r[x] == t[x]
  {
    map x | x in t && t[x] !in m :: t[x]
  }

  /** The database after each warehouse in `m` has been merged into the one it maps to. */
  function After(db: Database, m: map<nat, nat>): Database {
    db.(warehouses := db.warehouses - m.Keys,
        managers := MovedLinks(m, db.managers), trucks := MovedLinks(m, db.trucks),
        collectors := MovedLinks(m, db.collectors), tariffs := MovedLinks(m, db.tariffs),
        inventory := Kept(m, db.inventory),
        handovers := ClearedLinks(m, db.handovers), attached := KeptAttached(m, db.attached))
  }

  /** Each merged warehouse goes to the winner of its own group, and winners stay. */
  ghost predicate ToWinners(db: Database, m: map<nat, nat>) {
    forall l :: l in m ==>
      && l in db.warehouses && db.warehouses[l].linked
      && l in Group(db, db.warehouses[l].odooId)
      && m[l] == Winner(db, db.warehouses[l].odooId) && m[l] != l
  }

  /** All the losers of all the groups. */
  ghost function AllMerges(db: Database): map<nat, nat> {
    map l | l in db.warehouses && db.warehouses[l].linked && l in Group(db, db.warehouses[l].odooId)
            && Winner(db, db.warehouses[l].odooId) != l
      :: Winner(db, db.warehouses[l].odooId)
  }

  /** The migration goes through: no two managers meet, and no order refers to a deleted warehouse. */
  ghost predicate CanCommit(db: Database, m: map<nat, nat>) {
    && OneManagerEach(MovedLinks(m, db.managers))
    && forall r :: r in db.orderParts ==> db.orderParts[r] !in m
  }

  lemma WinnersStay(db: Database, m: map<nat, nat>, l: nat)
    requires ToWinners(db, m) && l in m
    ensures m[l] !in m
  {
    var w := m[l];
    assert w in Group(db, db.warehouses[l].odooId);
  }

  // ---------------------------------------------------------------- one more loser

  function Repointed(t: map<nat, Link>, loser: nat, winner: nat): (r: map<nat, Link>)
    ensures r.Keys == t.Keys
    ensures forall x :: x in t ==> r[x] == if t[x] == At(loser) then At(winner) else t[x]
  {
    map x | x in t :: if t[x] == At(loser) then At(winner) else t[x]
  }

  function Unlinked(t: map<nat, Link>, loser: nat): (r: map<nat, Link>)
    ensures r.Keys == t.Keys
    ensures forall x :: x in t ==> r[x] == if t[x] == At(loser) then Nowhere else t[x]
  {
    map x | x in t :: if t[x] == At(loser) then Nowhere else t[x]
  }

  function Without(t: map<nat, nat>, loser: nat): (r: map<nat, nat>)
    ensures forall x :: x in r <==> x in t && t[x] != loser
    ensures forall x :: x in r ==> r[x] == t[x]
  {
    map x | x in t && t[x] != loser :: t[x]
  }

  function AttachedWithout(t: map<Row, nat>, loser: nat): (r: map<Row, nat>)
    ensures forall x :: x in r <==> x in t && t[x] != loser
    ensures forall x :: x in r ==> r[x] == t[x]
  {
    map x | x in t && t[x] != loser :: t[x]
  }

  lemma RepointIsOneMore(t: map<nat, Link>, m: map<nat, nat>, loser: nat, winner: nat)
    requires loser !in m && forall l :: l in m ==> m[l] != loser
    ensures Repointed(MovedLinks(m, t), loser, winner) == MovedLinks(m[loser := winner], t)
  {}

  lemma UnlinkIsOneMore(t: map<nat, Link>, m: map<nat, nat>, loser: nat, winner: nat)
    ensures Unlinked(ClearedLinks(m, t), loser) == ClearedLinks(m[loser := winner], t)
  {}

  lemma WithoutIsOneMore(t: map<nat, nat>, m: map<nat, nat>, loser: nat, winner: nat)
    ensures Without(Kept(m, t), loser) == Kept(m[loser := winner], t)
  {}

  lemma AttachedIsOneMore(t: map<Row, nat>, m: map<nat, nat>, loser: nat, winner: nat)
    ensures AttachedWithout(KeptAttached(m, t), loser) == KeptAttached(m[loser := winner], t)
  {}

  /** Once two managers meet they stay together, so a later merge cannot repair the violation. */
  lemma ClashStays(db: Database, m: map<nat, nat>, full: map<nat, nat>)
    requires ToWinners(db, m) && ToWinners(db, full) && m.Keys <= full.Keys
    requires !OneManagerEach(MovedLinks(m, db.managers))
    ensures !OneManagerEach(MovedLinks(full, db.managers))
  {
    var t, u := MovedLinks(m, db.managers), MovedLinks(full, db.managers);
    var r, r' :| r in t && r' in t && t[r].At? && t[r] == t[r'] && r != r';
    MovedFurther(db, m, full, db.managers[r].warehouse);
    MovedFurther(db, m, full, db.managers[r'].warehouse);
    assert u[r] == u[r'] && u[r].At?;
  }

  lemma MovedFurther(db: Database, m: map<nat, nat>, full: map<nat, nat>, w: nat)
    requires ToWinners(db, m) && ToWinners(db, full) && m.Keys <= full.Keys
    ensures Moved(full, w) == Moved(full, Moved(m, w))
  {
    if w in m {
      WinnersStay(db, full, w);
    }
  }

  /** Merging other groups leaves the standing of this group's warehouses as it was. */
  lemma StandingUnchanged(db: Database, m: map<nat, nat>, odooId: int)
    requires ToWinners(db, m) && forall l :: l in m ==> db.warehouses[l].odooId != odooId
    ensures Group(After(db, m), odooId) == Group(db, odooId)
    ensures forall w :: w in Group(db, odooId) ==> Dependents(After(db, m), w) == Dependents(db, w)
  {
    forall w | w in Group(db, odooId) ensures Dependents(After(db, m), w) == Dependents(db, w) {
      assert forall l :: l in m ==> m[l] != w;
      LinkedRowsSame(db.managers, m, w);
      LinkedRowsSame(db.trucks, m, w);
      LinkedRowsSame(db.collectors, m, w);
      LinkedRowsSame(db.tariffs, m, w);
      RowsSame(db.inventory, m, w);
    }
  }

  lemma LinkedRowsSame(t: map<nat, Link>, m: map<nat, nat>, w: nat)
    requires w !in m && forall l :: l in m ==> m[l] != w
    ensures LinkedRows(MovedLinks(m, t), w) == LinkedRows(t, w)
  {}

  lemma RowsSame(t: map<nat, nat>, m: map<nat, nat>, w: nat)
    requires w !in m
    ensures Rows(Kept(m, t), w) == Rows(t, w)
  {}

  /** The warehouse listed first now is the winner of the original group. */
  lemma FirstIsWinner(db: Database, m: map<nat, nat>, odooId: int, w: nat)
    requires ToWinners(db, m) && forall l :: l in m ==> db.warehouses[l].odooId != odooId
    requires IsFirst(After(db, m), Group(After(db, m), odooId), w)
    ensures Group(db, odooId) != {} && w == Winner(db, odooId)
  {
    var now := After(db, m);
    StandingUnchanged(db, m, odooId);
    forall c | c in Group(db, odooId) ensures NoLater(db, w, c) {
      assert NoLater(now, w, c);
    }
    FirstIsUnique(db, Group(db, odooId), w, Winner(db, odooId));
  }

  lemma TwoInGroup(db: Database, odooId: int, a: nat, b: nat)
    requires a in Group(db, odooId) && b in Group(db, odooId) && a != b
    ensures |Group(db, odooId)| > 1
  {
    var g := Group(db, odooId);
    assert g == (g - {a, b}) + {a, b};
    assert |{a, b}| == 2;
    assert |g| == |g - {a, b}| + |{a, b}|;
  }

  lemma AllMergesToWinners(db: Database)
    ensures ToWinners(db, AllMerges(db))
  {}

  predicate SameOdooId(a: Warehouse, b: Warehouse) {
    a.linked && b.linked && a.odooId == b.odooId
  }

  /** The constraint the migration adds at its end. */
  ghost predicate OnePerOdooId(ws: map<nat, Warehouse>) {
    forall a, b :: a in ws && b in ws && SameOdooId(ws[a], ws[b]) ==> a == b
  }

  lemma WinnerOf(db: Database, w: nat)
    requires w in db.warehouses && db.warehouses[w].linked
    ensures w in Group(db, db.warehouses[w].odooId)
    ensures var winner := Winner(db, db.warehouses[w].odooId);
      winner in db.warehouses && SameOdooId(db.warehouses[winner], db.warehouses[w])
  {
    var group := Group(db, db.warehouses[w].odooId);
    assert w in group;
    assert Winner(db, db.warehouses[w].odooId) in group;
  }

  lemma MergedIff(db: Database, w: nat)
    ensures w in AllMerges(db) <==>
      && w in db.warehouses && db.warehouses[w].linked
      && w in Group(db, db.warehouses[w].odooId) && w != Winner(db, db.warehouses[w].odooId)
  {
    if w in db.warehouses && db.warehouses[w].linked { WinnerOf(db, w); }
  }

  /** The unique index can always be created. */
  lemma UniqueIndexHolds(db: Database)
    ensures OnePerOdooId(After(db, AllMerges(db)).warehouses)
  {
    var ws := After(db, AllMerges(db)).warehouses;
    forall a, b | a in ws && b in ws && SameOdooId(ws[a], ws[b]) ensures a == b {
      MergedIff(db, a);
      MergedIff(db, b);
    }
  }

  /** Part of the merges of one group: the losers done so far. */
  ghost predicate PartOfAll(db: Database, m: map<nat, nat>) {
    ToWinners(db, m) && m.Keys <= AllMerges(db).Keys
  }

  lemma OneMoreLoser(db: Database, m: map<nat, nat>, odooId: int, loser: nat)
    requires PartOfAll(db, m) && loser in Group(db, odooId) && loser != Winner(db, odooId) && loser !in m
    ensures PartOfAll(db, m[loser := Winner(db, odooId)])
    ensures forall l :: l in m ==> m[l] != loser
  {
    forall l | l in m ensures m[l] != loser {
      assert m[l] in Group(db, db.warehouses[l].odooId);
    }
  }

  /** One loser merged: its rows repointed, its stock lines and itself deleted. */
  function Merged(db: Database, loser: nat, winner: nat): Database {
    db.(warehouses := db.warehouses - {loser},
        managers := Repointed(db.managers, loser, winner), trucks := Repointed(db.trucks, loser, winner),
        collectors := Repointed(db.collectors, loser, winner), tariffs := Repointed(db.tariffs, loser, winner),
        inventory := Without(db.inventory, loser),
        handovers := Unlinked(db.handovers, loser), attached := AttachedWithout(db.attached, loser))
  }

  lemma LinksAreOneMore(db: Database, m: map<nat, nat>, loser: nat, winner: nat)
    requires loser !in m && forall l :: l in m ==> m[l] != loser
    ensures var one, more := Merged(After(db, m), loser, winner), After(db, m[loser := winner]);
      && one.managers == more.managers && one.trucks == more.trucks
      && one.collectors == more.collectors && one.tariffs == more.tariffs
  {
    RepointIsOneMore(db.managers, m, loser, winner);
    RepointIsOneMore(db.trucks, m, loser, winner);
    RepointIsOneMore(db.collectors, m, loser, winner);
    RepointIsOneMore(db.tariffs, m, loser, winner);
  }

  lemma RowsAreOneMore(db: Database, m: map<nat, nat>, loser: nat, winner: nat)
    ensures var one, more := Merged(After(db, m), loser, winner), After(db, m[loser := winner]);
      one.inventory == more.inventory && one.handovers == more.handovers && one.attached == more.attached
  {
    WithoutIsOneMore(db.inventory, m, loser, winner);
    UnlinkIsOneMore(db.handovers, m, loser, winner);
    AttachedIsOneMore(db.attached, m, loser, winner);
  }

  lemma WarehousesAreOneMore(ws: map<nat, Warehouse>, m: map<nat, nat>, loser: nat, winner: nat)
    ensures (ws - m.Keys) - {loser} == ws - m[loser := winner].Keys
  {}

  lemma MergedIsOneMore(db: Database, m: map<nat, nat>, loser: nat, winner: nat)
    requires loser !in m && forall l :: l in m ==> m[l] != loser
    ensures Merged(After(db, m), loser, winner) == After(db, m[loser := winner])
  {
    LinksAreOneMore(db, m, loser, winner);
    RowsAreOneMore(db, m, loser, winner);
    WarehousesAreOneMore(db.warehouses, m, loser, winner);
  }

  /** The constraints the merge of one loser can violate. */
  predicate MergeAllowed(db: Database, loser: nat, winner: nat) {
    OneManagerEach(Repointed(db.managers, loser, winner)) && loser !in db.orderParts.Values
  }

  /** The state of a running migration: the merges in `m` have been made and no constraint was violated. */
  ghost predicate Underway(db: Database, m: map<nat, nat>, now: Database) {
    && PartOfAll(db, m) && now == After(db, m) && OneManagerEach(now.managers)
    && forall r :: r in db.orderParts ==> db.orderParts[r] !in m
  }

  lemma MergeStep(db: Database, m: map<nat, nat>, now: Database, odooId: int, loser: nat)
    requires Underway(db, m, now) && loser in Group(db, odooId) && loser != Winner(db, odooId) && loser !in m
    ensures var winner := Winner(db, odooId);
      if MergeAllowed(now, loser, winner) then Underway(db, m[loser := winner], Merged(now, loser, winner))
      else !CanCommit(db, AllMerges(db))
  {
    var winner := Winner(db, odooId);
    OneMoreLoser(db, m, odooId, loser);
    MergedIsOneMore(db, m, loser, winner);
    RepointIsOneMore(db.managers, m, loser, winner);
    if !MergeAllowed(now, loser, winner) { AbortMeansCannotCommit(db, m[loser := winner], loser); }
  }

  /** Losers of one group that are still to be merged. */
  ghost predicate LosersLeft(db: Database, m: map<nat, nat>, odooId: int, left: set<nat>) {
    && Group(db, odooId) != {} && left <= Group(db, odooId) - {Winner(db, odooId)}
    && forall l :: l in left ==> l !in m
  }

  lemma OneLoserLess(db: Database, m: map<nat, nat>, odooId: int, left: set<nat>, loser: nat, winner: nat)
    requires LosersLeft(db, m, odooId, left) && loser in left
    ensures LosersLeft(db, m[loser := winner], odooId, left - {loser})
    ensures m[loser := winner].Keys + (left - {loser}) == m.Keys + left
  {
    assert m[loser := winner].Keys == m.Keys + {loser};
  }

  /** The Odoo ids linked by more than one warehouse. */
  function Duplicated(db: Database): set<int> {
    set w | w in db.warehouses && db.warehouses[w].linked
        && |Group(db, db.warehouses[w].odooId)| > 1 :: db.warehouses[w].odooId
  }

  /** Exactly the losers of the groups that are not in `todo` have been merged. */
  ghost predicate GroupsDone(db: Database, m: map<nat, nat>, todo: set<int>) {
    && (forall l :: l in m ==> l in db.warehouses && db.warehouses[l].odooId !in todo)
    && (forall l :: l in AllMerges(db) && db.warehouses[l].odooId !in todo ==> l in m)
  }

  lemma OneMoreGroup(db: Database, m0: map<nat, nat>, m: map<nat, nat>, todo: set<int>, odooId: int)
    requires GroupsDone(db, m0, todo) && odooId in todo && Group(db, odooId) != {}
    requires m.Keys == m0.Keys + (Group(db, odooId) - {Winner(db, odooId)})
    ensures GroupsDone(db, m, todo - {odooId})
  {
    forall l | l in AllMerges(db) && db.warehouses[l].odooId !in todo - {odooId} ensures l in m {
      if db.warehouses[l].odooId == odooId { assert l in Group(db, odooId) - {Winner(db, odooId)}; }
    }
  }

  lemma NothingMergedYet(db: Database)
    ensures After(db, map[]) == db && PartOfAll(db, map[])
    ensures forall l :: l in AllMerges(db) ==> db.warehouses[l].odooId in Duplicated(db)
  {
    var none: map<nat, nat> := map[];
    forall l | l in AllMerges(db) ensures db.warehouses[l].odooId in Duplicated(db) {
      var o := db.warehouses[l].odooId;
      TwoInGroup(db, o, l, Winner(db, o));
    }
    assert MovedLinks(none, db.managers) == db.managers && MovedLinks(none, db.trucks) == db.trucks;
    assert MovedLinks(none, db.collectors) == db.collectors && MovedLinks(none, db.tariffs) == db.tariffs;
    assert Kept(none, db.inventory) == db.inventory && KeptAttached(none, db.attached) == db.attached;
    assert ClearedLinks(none, db.handovers) == db.handovers;
    assert db.warehouses - none.Keys == db.warehouses;
  }

  lemma AbortMeansCannotCommit(db: Database, m: map<nat, nat>, loser: nat)
    requires PartOfAll(db, m) && loser in m
    requires !OneManagerEach(MovedLinks(m, db.managers)) || loser in db.orderParts.Values
    ensures !CanCommit(db, AllMerges(db))
  {
    AllMergesToWinners(db);
    if !OneManagerEach(MovedLinks(m, db.managers)) {
      ClashStays(db, m, AllMerges(db));
    } else {
      var r :| r in db.orderParts && db.orderParts[r] == loser;
      assert loser in AllMerges(db);
    }
  }

  lemma AllMerged(db: Database, m: map<nat, nat>)
    requires PartOfAll(db, m) && AllMerges(db).Keys <= m.Keys
    ensures m == AllMerges(db)
  {
    AllMergesToWinners(db);
    assert forall l :: l in m ==> m[l] == AllMerges(db)[l];
  }

  /** The tables the migration works on. */
  class Store {
    var warehouses: map<nat, Warehouse>
    var managers: map<nat, Link>
    var trucks: map<nat, Link>
    var collectors: map<nat, Link>
    var tariffs: map<nat, Link>
    var inventory: map<nat, nat>
    var orderParts: map<nat, nat>
    var handovers: map<nat, Link>
    var attached: map<Row, nat>

    function View(): Database
      reads this
    {
      Database(warehouses, managers, trucks, collectors, tariffs, inventory, orderParts, handovers, attached)
    }

    constructor (db: Database)
      ensures View() == db
    {
      warehouses, managers, trucks, collectors := db.warehouses, db.managers, db.trucks, db.collectors;
      tariffs, inventory, orderParts := db.tariffs, db.inventory, db.orderParts;
      handovers, attached := db.handovers, db.attached;
    }

    method RollBack(db: Database)
      modifies this
      ensures View() == db
    {
      warehouses, managers, trucks, collectors := db.warehouses, db.managers, db.trucks, db.collectors;
      tariffs, inventory, orderParts := db.tariffs, db.inventory, db.orderParts;
      handovers, attached := db.handovers, db.attached;
    }

    /**
     * Repoint the loser's rows at the winner, then delete its stock lines and the loser; false on a violated
     * constraint.
     */
    method MergeInto(loser: nat, winner: nat) returns (ok: bool)
      modifies this
      ensures ok <==> MergeAllowed(old(View()), loser, winner)
      ensures ok ==> View() == Merged(old(View()), loser, winner)
    {
      managers := Repointed(managers, loser, winner);
      if !OneManagerEach(managers) { return false; }
      trucks := Repointed(trucks, loser, winner);
      collectors := Repointed(collectors, loser, winner);
      tariffs := Repointed(tariffs, loser, winner);
      inventory := Without(inventory, loser);
      if loser in orderParts.Values { return false; }
      handovers := Unlinked(handovers, loser);
      attached := AttachedWithout(attached, loser);
      warehouses := warehouses - {loser};
      return true;
    }

    /** Merge these losers of one group into its winner. */
    method MergeLosers(losers: set<nat>, winner: nat, odooId: int, ghost db: Database, ghost m0: map<nat, nat>)
      returns (ok: bool, ghost m: map<nat, nat>)
      requires Underway(db, m0, View()) && Group(db, odooId) != {} && winner == Winner(db, odooId)
      requires LosersLeft(db, m0, odooId, losers)
      modifies this
      ensures ok ==> Underway(db, m, View()) && m.Keys == m0.Keys + losers
      ensures !ok ==> !CanCommit(db, AllMerges(db))
    {
      m := m0;
      var left := losers;
      while left != {}
        invariant Underway(db, m, View()) && LosersLeft(db, m, odooId, left) && m.Keys + left == m0.Keys + losers
        decreases left
      {
        var loser :| loser in left;
        ghost var now := View();
        MergeStep(db, m, now, odooId, loser);
        OneLoserLess(db, m, odooId, left, loser, winner);
        ok := MergeInto(loser, winner);
        if !ok { return; }
        m := m[loser := winner];
        left := left - {loser};
      }
      ok := true;
    }

    /** Merge all of one group into its first warehouse. */
    method MergeGroup(odooId: int, ghost db: Database, ghost m0: map<nat, nat>)
        returns (ok: bool, ghost m: map<nat, nat>)
      requires Underway(db, m0, View()) && Group(db, odooId) != {}
      requires forall l :: l in m0 ==> db.warehouses[l].odooId != odooId
      modifies this
      ensures ok ==> Underway(db, m, View()) && m.Keys == m0.Keys + (Group(db, odooId) - {Winner(db, odooId)})
      ensures !ok ==> !CanCommit(db, AllMerges(db))
    {
      StandingUnchanged(db, m0, odooId);
      FirstExists(View(), Group(View(), odooId));
      var group := Group(View(), odooId);
      var winner :| IsFirst(View(), group, winner);
      FirstIsWinner(db, m0, odooId, winner);
      ok, m := MergeLosers(group - {winner}, winner, odooId, db, m0);
    }

    /** The whole migration, in one transaction. */
    method Up() returns (committed: bool)
      requires OneManagerEach(managers)
      modifies this
      ensures committed <==> CanCommit(old(View()), AllMerges(old(View())))
      ensures View() == if committed then After(old(View()), AllMerges(old(View()))) else old(View())
      ensures committed ==> OnePerOdooId(warehouses)
    {
      var before := View();
      ghost var m: map<nat, nat> := map[];
      var todo := Duplicated(before);
      NothingMergedYet(before);
      while todo != {}
        invariant todo <= Duplicated(before)
        invariant Underway(before, m, View())
        invariant GroupsDone(before, m, todo)
        decreases todo
      {
        var odooId :| odooId in todo;
        ghost var m0 := m;
        var ok;
        ok, m := MergeGroup(odooId, before, m);
        if !ok {
          RollBack(before);
          return false;
        }
        OneMoreGroup(before, m0, m, todo, odooId);
        todo := todo - {odooId};
      }
      AllMerged(before, m);
      UniqueIndexHolds(before);
      return true;
    }
  }
}
