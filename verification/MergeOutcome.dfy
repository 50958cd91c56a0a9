/** What a warehouse merge leaves behind, and exactly when the database lets it through. */
module MergeOutcome {
  import opened WarehouseMerge

  ghost function Merge(db: Database): Database {
    After(db, AllMerges(db))
  }

  /** A warehouse survives exactly when it has no Odoo id or is first of its group, and survives unchanged. */
  lemma SurvivesIff(db: Database, w: nat)
    requires w in db.warehouses
    ensures w in Merge(db).warehouses <==>
      !db.warehouses[w].linked || IsFirst(db, Group(db, db.warehouses[w].odooId), w)
    ensures w in Merge(db).warehouses ==> Merge(db).warehouses[w] == db.warehouses[w]
  {
    MergedIff(db, w);
    var group := Group(db, db.warehouses[w].odooId);
    if db.warehouses[w].linked && IsFirst(db, group, w) {
      FirstIsUnique(db, group, w, Winner(db, db.warehouses[w].odooId));
    }
  }

  /** Every Odoo id keeps exactly one of its warehouses: the one listed first. */
  lemma OneSurvivorEach(db: Database, odooId: int)
    requires Group(db, odooId) != {}
    ensures Group(Merge(db), odooId) == {Winner(db, odooId)}
  {
    forall w ensures w in Group(Merge(db), odooId) <==> w == Winner(db, odooId) {
      MergedIff(db, w);
      if w == Winner(db, odooId) { assert w in Group(db, odooId); }
    }
  }

  /** No row of a repointed table is lost: each still points at a warehouse that exists and has the same Odoo id. */
  ghost predicate FollowsItsWarehouse(before: map<nat, Link>, after: map<nat, Link>,
    was: map<nat, Warehouse>, now: map<nat, Warehouse>)
  {
    && after.Keys == before.Keys
    && forall r :: r in before ==>
      match before[r]
      case Nowhere => after[r] == Nowhere
      case At(w) =>
        && w in was && after[r].At? && after[r].warehouse in now
        && if was[w].linked then SameOdooId(was[w], now[after[r].warehouse]) else after[r] == before[r]
  }

  lemma RowsFollow(db: Database, t: map<nat, Link>)
    requires LinksExist(t, db.warehouses)
    ensures FollowsItsWarehouse(t, MovedLinks(AllMerges(db), t), db.warehouses, Merge(db).warehouses)
  {
    var m := AllMerges(db);
    forall r | r in t && t[r].At?
      ensures Moved(m, t[r].warehouse) in Merge(db).warehouses
      ensures db.warehouses[t[r].warehouse].linked ==>
        SameOdooId(db.warehouses[t[r].warehouse], Merge(db).warehouses[Moved(m, t[r].warehouse)])
      ensures !db.warehouses[t[r].warehouse].linked ==> Moved(m, t[r].warehouse) == t[r].warehouse
    {
      var w := t[r].warehouse;
      MergedIff(db, w);
      AllMergesToWinners(db);
      if w in m {
        WinnersStay(db, m, w);
        WinnerOf(db, w);
      }
    }
  }

  /** All four repointed tables keep every row, and stock lines go exactly when their warehouse does. */
  lemma NoRowIsLostOrDangles(db: Database)
    requires Sound(db)
    ensures var now := Merge(db);
      && FollowsItsWarehouse(db.managers, now.managers, db.warehouses, now.warehouses)
      && FollowsItsWarehouse(db.trucks, now.trucks, db.warehouses, now.warehouses)
      && FollowsItsWarehouse(db.collectors, now.collectors, db.warehouses, now.warehouses)
      && FollowsItsWarehouse(db.tariffs, now.tariffs, db.warehouses, now.warehouses)
    ensures forall r :: r in db.inventory ==> (r in Merge(db).inventory <==> db.inventory[r] in Merge(db).warehouses)
  {
    RowsFollow(db, db.managers);
    RowsFollow(db, db.trucks);
    RowsFollow(db, db.collectors);
    RowsFollow(db, db.tariffs);
  }

  /** A warehouse that the merge deletes. */
  ghost predicate Loses(db: Database, w: nat) {
    && w in db.warehouses && db.warehouses[w].linked
    && !IsFirst(db, Group(db, db.warehouses[w].odooId), w)
  }

  lemma LosesIff(db: Database, w: nat)
    ensures Loses(db, w) <==> w in AllMerges(db)
  {
    MergedIff(db, w);
    if w in db.warehouses { SurvivesIff(db, w); }
  }

  /**
   * What goes with a loser: a handover is cleared, and an offer, rating, complaint or distance is deleted, exactly when
   * its warehouse loses. Every other such row stays as it was.
   */
  lemma GoesWithALoserIff(db: Database)
    ensures Merge(db).handovers.Keys == db.handovers.Keys
    ensures forall r :: r in db.handovers ==>
      Merge(db).handovers[r] == if db.handovers[r].At? && Loses(db, db.handovers[r].warehouse) then Nowhere
                                else db.handovers[r]
    ensures forall k :: k in Merge(db).attached <==> k in db.attached && !Loses(db, db.attached[k])
    ensures forall k :: k in Merge(db).attached ==> Merge(db).attached[k] == db.attached[k]
  {
    forall r | r in db.handovers && db.handovers[r].At?
      ensures Loses(db, db.handovers[r].warehouse) <==> db.handovers[r].warehouse in AllMerges(db)
    {
      LosesIff(db, db.handovers[r].warehouse);
    }
    forall k | k in db.attached ensures Loses(db, db.attached[k]) <==> db.attached[k] in AllMerges(db) {
      LosesIff(db, db.attached[k]);
    }
  }

  /** No row is orphaned or lost with a loser. */
  ghost predicate NothingOrphaned(db: Database) {
    Merge(db).handovers == db.handovers && Merge(db).attached == db.attached
  }

  /** Nothing that refers to a loser is orphaned exactly when no handover and no attached row refers to one. */
  lemma NothingOrphanedIff(db: Database)
    ensures NothingOrphaned(db) <==>
      && (forall r :: r in db.handovers && db.handovers[r].At? ==> !Loses(db, db.handovers[r].warehouse))
      && (forall k :: k in db.attached ==> !Loses(db, db.attached[k]))
  {
    GoesWithALoserIff(db);
    if NothingOrphaned(db) {
      forall r | r in db.handovers && db.handovers[r].At? ensures !Loses(db, db.handovers[r].warehouse) {
        assert Merge(db).handovers[r] == db.handovers[r];
      }
      forall k | k in db.attached ensures !Loses(db, db.attached[k]) {
        assert k in Merge(db).attached;
      }
    }
  }

  /** A survivor gathers exactly the rows that pointed anywhere in its group. */
  lemma WinnerGathersItsGroup(db: Database, t: map<nat, Link>, odooId: int)
    requires Group(db, odooId) != {}
    ensures LinkedRows(MovedLinks(AllMerges(db), t), Winner(db, odooId))
         == set r | r in t && t[r].At? && t[r].warehouse in Group(db, odooId)
  {
    var m, winner := AllMerges(db), Winner(db, odooId);
    forall r | r in t && t[r].At?
      ensures Moved(m, t[r].warehouse) == winner <==> t[r].warehouse in Group(db, odooId)
    {
      var w := t[r].warehouse;
      MergedIff(db, w);
      MergedIff(db, winner);
      assert winner in Group(db, odooId);
      if w in m { WinnerOf(db, w); }
    }
  }

  // ---------------------------------------------------------------- when the migration goes through

  /** Two managers work for warehouses of one Odoo id. */
  ghost predicate ManagersShareAnOdooId(db: Database)
    requires LinksExist(db.managers, db.warehouses)
  {
    exists r, r' ::
      && r in db.managers && r' in db.managers && r != r' && db.managers[r].At? && db.managers[r'].At?
      && SameOdooId(db.warehouses[db.managers[r].warehouse], db.warehouses[db.managers[r'].warehouse])
  }

  lemma MoveTogetherIff(db: Database, a: nat, b: nat)
    requires a in db.warehouses && b in db.warehouses
    ensures Moved(AllMerges(db), a) == Moved(AllMerges(db), b) <==>
      a == b || SameOdooId(db.warehouses[a], db.warehouses[b])
  {
    MergedIff(db, a);
    MergedIff(db, b);
    if db.warehouses[a].linked { WinnerOf(db, a); }
    if db.warehouses[b].linked { WinnerOf(db, b); }
  }

  lemma ManagersMeetIff(db: Database)
    requires LinksExist(db.managers, db.warehouses) && OneManagerEach(db.managers)
    ensures OneManagerEach(Merge(db).managers) <==> !ManagersShareAnOdooId(db)
  {
    var t, u := db.managers, Merge(db).managers;
    if ManagersShareAnOdooId(db) {
      var r, r' :| && r in t && r' in t && r != r' && t[r].At? && t[r'].At?
                   && SameOdooId(db.warehouses[t[r].warehouse], db.warehouses[t[r'].warehouse]);
      MoveTogetherIff(db, t[r].warehouse, t[r'].warehouse);
      assert u[r] == u[r'] && u[r].At?;
    } else {
      forall r, r' | r in u && r' in u && u[r].At? && u[r] == u[r'] ensures r == r' {
        MoveTogetherIff(db, t[r].warehouse, t[r'].warehouse);
      }
    }
  }

  /**
   * The migration commits exactly when no Odoo id has two managers and no order part was cut from a warehouse
   * that is not first of its group. Orders are not counted among the dependents, so the busiest by orders can lose.
   */
  lemma CommitsIff(db: Database)
    requires Sound(db) && OneManagerEach(db.managers)
    ensures CanCommit(db, AllMerges(db)) <==>
      && !ManagersShareAnOdooId(db)
      && forall r :: r in db.orderParts && db.warehouses[db.orderParts[r]].linked ==>
           IsFirst(db, Group(db, db.warehouses[db.orderParts[r]].odooId), db.orderParts[r])
  {
    ManagersMeetIff(db);
    forall r | r in db.orderParts ensures db.orderParts[r] in AllMerges(db) <==>
      && db.warehouses[db.orderParts[r]].linked
      && !IsFirst(db, Group(db, db.warehouses[db.orderParts[r]].odooId), db.orderParts[r])
    {
      SurvivesIff(db, db.orderParts[r]);
    }
  }

  /** A committed merge leaves every reference intact. */
  lemma CommittedIsSound(db: Database)
    requires Sound(db) && CanCommit(db, AllMerges(db))
    ensures Sound(Merge(db))
  {
    NoRowIsLostOrDangles(db);
    var now := Merge(db);
    FollowersExist(db.managers, now.managers, db.warehouses, now.warehouses);
    FollowersExist(db.trucks, now.trucks, db.warehouses, now.warehouses);
    FollowersExist(db.collectors, now.collectors, db.warehouses, now.warehouses);
    FollowersExist(db.tariffs, now.tariffs, db.warehouses, now.warehouses);
    RestExists(db);
  }

  /** What did not go with a loser refers to a survivor. */
  lemma RestExists(db: Database)
    requires LinksExist(db.handovers, db.warehouses) && AttachedExist(db.attached, db.warehouses)
    ensures LinksExist(Merge(db).handovers, Merge(db).warehouses)
    ensures AttachedExist(Merge(db).attached, Merge(db).warehouses)
  {}

  lemma FollowersExist(before: map<nat, Link>, after: map<nat, Link>, was: map<nat, Warehouse>, now: map<nat,
      Warehouse>)
    requires FollowsItsWarehouse(before, after, was, now)
    ensures LinksExist(after, now)
  {}

  /** Run a second time, it finds nothing to do. */
  lemma SecondRunChangesNothing(db: Database)
    ensures Duplicated(Merge(db)) == {} && Merge(Merge(db)) == Merge(db)
  {
    var now := Merge(db);
    forall odooId | Group(now, odooId) != {} ensures |Group(now, odooId)| == 1 {
      assert Group(now, odooId) <= Group(db, odooId);
      OneSurvivorEach(db, odooId);
    }
    forall w | w in now.warehouses && now.warehouses[w].linked ensures |Group(now, now.warehouses[w].odooId)| == 1 {
      assert w in Group(now, now.warehouses[w].odooId);
    }
    NothingMergedYet(now);
    assert AllMerges(now) == map[];
  }

  // ---------------------------------------------------------------- a merge that aborts

  /** Two warehouses of one Odoo id: the first has one truck, the second any number of order parts. */
  function OrdersAgainstATruck(first: nat, second: nat, orders: set<nat>): Database {
    Database(
      map[first := Warehouse(1, true, false), second := Warehouse(1, true, false)],
      map[], map[0 := At(first)], map[], map[], map[], map part | part in orders :: second, map[], map[])
  }

  /** The warehouse that all orders were cut from loses to the one truck, and with any order the migration aborts. */
  lemma WarehouseWithOrdersCanLose(first: nat, second: nat, orders: set<nat>)
    requires first != second && orders != {}
    ensures var db := OrdersAgainstATruck(first, second, orders);
      && Sound(db) && OneManagerEach(db.managers)
      && Group(db, 1) == {first, second} && IsFirst(db, Group(db, 1), first)
      && !CanCommit(db, AllMerges(db))
  {
    var db := OrdersAgainstATruck(first, second, orders);
    TruckWins(db, first, second);
    var part :| part in orders;
    assert db.orderParts[part] == second;
    CommitsIff(db);
  }

  lemma NoRows(w: nat)
    ensures Rows(map[], w) == {} && LinkedRows(map[], w) == {}
  {}

  // ---------------------------------------------------------------- a merge that orphans

  /** Two warehouses of one Odoo id: the first has one truck, the second a handover and an offer. */
  function HandoverAgainstATruck(first: nat, second: nat): Database {
    Database(
      map[first := Warehouse(1, true, false), second := Warehouse(1, true, false)],
      map[], map[0 := At(first)], map[], map[], map[], map[], map[0 := At(second)], map[Offer(0) := second])
  }

  lemma HandoverCommits(first: nat, second: nat)
    requires first != second
    ensures var db := HandoverAgainstATruck(first, second);
      Sound(db) && OneManagerEach(db.managers) && CanCommit(db, AllMerges(db))
  {
    CommitsIff(HandoverAgainstATruck(first, second));
  }

  /** The migration commits; the handover no longer names a warehouse and the offer is gone. */
  lemma HandoverIsOrphaned(first: nat, second: nat)
    requires first != second
    ensures var db := HandoverAgainstATruck(first, second);
      && Sound(db) && OneManagerEach(db.managers) && CanCommit(db, AllMerges(db))
      && 0 in Merge(db).handovers && Merge(db).handovers[0] == Nowhere && Offer(0) !in Merge(db).attached
  {
    HandoverCommits(first, second);
    RowsOfALoser(HandoverAgainstATruck(first, second), first, second);
  }

  lemma RowsOfALoser(db: Database, first: nat, second: nat)
    requires first != second && db == HandoverAgainstATruck(first, second)
    ensures 0 in Merge(db).handovers && Merge(db).handovers[0] == Nowhere && Offer(0) !in Merge(db).attached
  {
    TruckWins(db, first, second);
    LosesIff(db, second);
    assert db.handovers[0] == At(second) && db.attached[Offer(0)] == second;
  }

  /** Of two warehouses with one Odoo id, the one with the only dependent is first. */
  lemma TruckWins(db: Database, first: nat, second: nat)
    requires first != second && db.warehouses.Keys == {first, second}
    requires forall w :: w in db.warehouses ==> db.warehouses[w] == Warehouse(1, true, false)
    requires db.trucks == map[0 := At(first)] && db.inventory == map[]
    requires db.managers == map[] && db.collectors == map[] && db.tariffs == map[]
    ensures Group(db, 1) == {first, second} && IsFirst(db, Group(db, 1), first) && Loses(db, second)
  {
    var group := Group(db, 1);
    assert group == {first, second};
    assert LinkedRows(db.trucks, first) == {0} && LinkedRows(db.trucks, second) == {};
    NoRows(first);
    NoRows(second);
    assert Dependents(db, first) == 1 && Dependents(db, second) == 0;
    assert IsFirst(db, group, first);
    if IsFirst(db, group, second) { FirstIsUnique(db, group, first, second); }
  }
}
