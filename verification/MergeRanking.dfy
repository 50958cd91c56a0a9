/**
 * The ranking of a group in stages: the busiest warehouses, of those the ones whose code was never renamed if there is
 * any, and of those the lowest id; and what it counts.
 */
module MergeRanking {
  import opened WarehouseMerge

  /** No warehouse of the group has more dependents. */
  ghost function Busiest(db: Database, group: set<nat>): set<nat> {
    set w | w in group && forall c :: c in group ==> Dependents(db, c) <= Dependents(db, w)
  }

  ghost function NeverRenamed(db: Database, group: set<nat>): set<nat>
    requires group <= db.warehouses.Keys
  {
    set w | w in group && !db.warehouses[w].renamed
  }

  ghost function Preferred(db: Database, group: set<nat>): set<nat>
    requires group <= db.warehouses.Keys
  {
    var busiest := Busiest(db, group);
    if NeverRenamed(db, busiest) != {} then NeverRenamed(db, busiest) else busiest
  }

  lemma FirstIsBusiest(db: Database, group: set<nat>, w: nat)
    requires IsFirst(db, group, w)
    ensures w in Busiest(db, group)
    ensures forall c :: c in Busiest(db, group) ==> Dependents(db, c) == Dependents(db, w)
  {
    forall c | c in group ensures Dependents(db, c) <= Dependents(db, w) {
      assert NoLater(db, w, c);
    }
  }

  lemma FirstIsPreferred(db: Database, group: set<nat>, w: nat)
    requires IsFirst(db, group, w)
    ensures w in Preferred(db, group)
  {
    FirstIsBusiest(db, group, w);
    var best := Busiest(db, group);
    if NeverRenamed(db, best) != {} {
      var c :| c in NeverRenamed(db, best);
      assert NoLater(db, w, c);
    }
  }

  /** The warehouse that is kept is the lowest id of the preferred ones, and only it is. */
  lemma WinnerInStages(db: Database, odooId: int)
    requires Group(db, odooId) != {}
    ensures var w, preferred := Winner(db, odooId), Preferred(db, Group(db, odooId));
      w in preferred && forall c :: c in preferred ==> w <= c
  {
    var group, w := Group(db, odooId), Winner(db, odooId);
    FirstIsPreferred(db, group, w);
    FirstIsBusiest(db, group, w);
    var originals := NeverRenamed(db, Busiest(db, group));
    forall c | c in Preferred(db, group) ensures w <= c {
      assert NoLater(db, w, c);
      assert originals == {} ==> w !in originals && c !in originals;
    }
  }

  // ---------------------------------------------------------------- what is counted

  /** The tables whose rows count. */
  datatype Table = Inventory | Managers | Trucks | Collectors | Tariffs

  /** A new row of a counted table, pointing at warehouse `w`. */
  ghost function WithRow(db: Database, t: Table, row: nat, w: nat): Database {
    match t
    case Inventory => db.(inventory := db.inventory[row := w])
    case Managers => db.(managers := db.managers[row := At(w)])
    case Trucks => db.(trucks := db.trucks[row := At(w)])
    case Collectors => db.(collectors := db.collectors[row := At(w)])
    case Tariffs => db.(tariffs := db.tariffs[row := At(w)])
  }

  ghost predicate IsNew(db: Database, t: Table, row: nat) {
    match t
    case Inventory => row !in db.inventory
    case Managers => row !in db.managers
    case Trucks => row !in db.trucks
    case Collectors => row !in db.collectors
    case Tariffs => row !in db.tariffs
  }

  lemma OneMoreRow(t: map<nat, nat>, row: nat, w: nat, c: nat)
    requires row !in t
    ensures |Rows(t[row := w], c)| == |Rows(t, c)| + if c == w then 1 else 0
  {
    assert Rows(t[row := w], c) == if c == w then Rows(t, c) + {row} else Rows(t, c);
  }

  lemma OneMoreLink(t: map<nat, Link>, row: nat, w: nat, c: nat)
    requires row !in t
    ensures |LinkedRows(t[row := At(w)], c)| == |LinkedRows(t, c)| + if c == w then 1 else 0
  {
    assert LinkedRows(t[row := At(w)], c) == if c == w then LinkedRows(t, c) + {row} else LinkedRows(t, c);
  }

  /** Each new row of the five tables counts once, for the warehouse it points at and no other. */
  lemma EachRowCountsOnce(db: Database, t: Table, row: nat, w: nat, c: nat)
    requires IsNew(db, t, row)
    ensures Dependents(WithRow(db, t, row, w), c) == Dependents(db, c) + if c == w then 1 else 0
  {
    match t
    case Inventory => OneMoreRow(db.inventory, row, w, c);
    case Managers => OneMoreLink(db.managers, row, w, c);
    case Trucks => OneMoreLink(db.trucks, row, w, c);
    case Collectors => OneMoreLink(db.collectors, row, w, c);
    case Tariffs => OneMoreLink(db.tariffs, row, w, c);
  }

  /** A warehouse with no row in these tables has no dependents, however many orders, handovers and offers it has. */
  lemma NothingElseCounts(db: Database, w: nat)
    ensures Dependents(db, w) == 0 <==>
      && (forall r :: r in db.inventory ==> db.inventory[r] != w)
      && (forall r :: r in db.managers ==> db.managers[r] != At(w))
      && (forall r :: r in db.trucks ==> db.trucks[r] != At(w))
      && (forall r :: r in db.collectors ==> db.collectors[r] != At(w))
      && (forall r :: r in db.tariffs ==> db.tariffs[r] != At(w))
  {
    NoLinks(db.managers, w);
    NoLinks(db.trucks, w);
    NoLinks(db.collectors, w);
    NoLinks(db.tariffs, w);
    if r :| r in db.inventory && db.inventory[r] == w { assert r in Rows(db.inventory, w); }
  }

  lemma NoLinks(t: map<nat, Link>, w: nat)
    ensures |LinkedRows(t, w)| == 0 <==> forall r :: r in t ==> t[r] != At(w)
  {
    if r :| r in t && t[r] == At(w) { assert r in LinkedRows(t, w); }
  }
}
