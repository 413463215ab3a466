/** Starting, stopping and rewriting a Driver keep the invariant of the control loop.

    All three put a new document in the place of a Driver's, bring the affected
    partitions up to date, refresh the owners and schedule the rows that changed. A
    start also moves the deliveries that are still expected to the new generation. */
module Replacements {
  import opened Wrappers
  import opened Resources
  import opened Partitions
  import opened Queue
  import opened Control
  import opened Invariants
  import opened Bookkeeping
  import opened Steps

  /** The new document of a Driver: it selects the same as before unless its revision moved,
      its generation does not fall, and no Manifest gets a second manager. */
  ghost predicate Supersedes(drivers: map<string, Driver>, driver: Driver) {
    && driver.path in drivers
    && DriversOk(drivers[driver.path := driver])
    && var before := drivers[driver.path];
    (&& before.generation <= driver.generation
     && (driver.revision == before.revision ==> driver.spec == before.spec && driver.state == before.state))
  }

  // ---- Rows ----

  lemma RepartitionedRow(s: StoreState, driver: Driver, p: string)
    requires TablesAt(s, p) && driver.path in s.drivers
    ensures RowOk(s.registry, s.drivers[driver.path := driver], Repartitioned(s, driver), p)
  {
    hide Affected, UpdateRow, Observed;
    if p in s.rows {
      var row := Repartitioned(s, driver)[p];
      var updated := map[p := row];
      IncrementalEqualsFullScan(map[p := s.rows[p]], s.registry, s.drivers, driver.path, Some(driver), updated);
      assert updated[p] == row && p in updated;
      OnlyObservationsChange(driver.path, Some(driver), s.rows[p]);
    }
  }

  lemma OwnerOutstanding(owners: map<string, string>, drivers: map<string, Driver>, owners': map<string, string>,
                         drivers': map<string, Driver>,
                         resource: Resource, e: string)
    requires OwnersOk(owners, drivers) && OwnersOk(owners', drivers')
    requires e in resource.desired.observed ==>
               e in drivers && e in drivers' && drivers[e].spec == drivers'[e].spec && drivers[e].state == drivers'[e].state
    ensures Outstanding(owners, resource, e) <==> Outstanding(owners', resource, e)
  {
  }

  /** A row that keeps its observations is selected by the same Drivers, in the same
      revision, so its owner is the same. */
  lemma UnchangedRowSamePath(s: StoreState, driver: Driver, owners: map<string, string>, p: string)
    requires TablesAt(s, p) && Supersedes(s.drivers, driver)
    requires OwnersOk(owners, s.drivers[driver.path := driver])
    requires RowOk(s.registry, s.drivers[driver.path := driver], Repartitioned(s, driver), p)
    requires p !in Changed(s.rows, Repartitioned(s, driver))
    ensures SamePath(s.rows, Repartitioned(s, driver), s.queue.owners, owners, p)
  {
    hide Affected, UpdateRow, OwnersOk, DriversOk, Outstanding, Owns, Watches;
    var drivers' := s.drivers[driver.path := driver];
    var rows := Repartitioned(s, driver);
    if p in s.rows {
      assert rows[p] == s.rows[p];
      assert Observed(s.drivers, s.rows[p]) && Observed(drivers', s.rows[p]);
      forall e ensures Outstanding(s.queue.owners, s.rows[p], e) <==> Outstanding(owners, s.rows[p], e) {
        OwnerOutstanding(s.queue.owners, s.drivers, owners, drivers', s.rows[p], e);
      }
    }
  }

  // ---- Tables and work ----

  lemma ReplaceTables(s: StoreState, driver: Driver, deliveries': map<nat, Delivery>, owners: map<string, string>,
                      order: seq<string>, p: string)
    requires TablesAt(s, p) && WorkAt(s, p) && Keyed(s.rows) && Supersedes(s.drivers, driver)
    requires LegalReplacement(s, driver, owners, order)
    requires p !in order ==> SameHands(s.rows, s.deliveries, deliveries', p)
    ensures var s' := ReplaceDriver(s.(deliveries := deliveries'), driver, owners, order);
            TablesAt(s', p) && WorkAt(s', p)
  {
    hide Observed, PathSettled, WellFormed, SchedulePaths, SameHands, SamePath, OwnersOk, DriversOk, Repartitioned, Keyed;
    var rows := Repartitioned(s, driver);
    assert Repartitioned(s.(deliveries := deliveries'), driver) == rows by {
      RepartitionedFrame(s, s.(deliveries := deliveries'), driver);
    }
    RepartitionedRow(s, driver, p);
    RepartitionedKeyed(s, driver);
    if p !in order {
      UnchangedRowSamePath(s, driver, owners, p);
    }
    Settles(s, rows, owners, deliveries', order, p);
  }

  lemma RepartitionedFrame(s: StoreState, s': StoreState, driver: Driver)
    requires driver.path in s.drivers && s'.drivers == s.drivers && s'.rows == s.rows && s'.registry == s.registry
    ensures Repartitioned(s', driver) == Repartitioned(s, driver)
  {
  }

  // ---- The three operations ----

  lemma StartKeeps(s: StoreState, d: string, now: int, owners: map<string, string>, order: seq<string>, p: string)
    requires InvAt(s, p)
    requires d in s.drivers ==> LegalReplacement(s, StartedDriver(s.drivers[d]), owners, order)
    ensures InvAt(StartDriver(s, d, now, owners, order).0, p)
  {
    StartBooks(s, d, now, owners, order);
    RowsAreKeyed(s);
    hide TablesAt, WorkAt, BooksOk, LegalReplacement, DriversOk, SchedulePaths, Repartitioned, SameHands, Keeps, Keyed;
    var s' := StartDriver(s, d, now, owners, order).0;
    if s' != s {
      var driver := StartedDriver(s.drivers[d]);
      var rows := Repartitioned(s, driver);
      SameSpecSupersedes(s, driver, p);
      var deliveries' := Restamped(rows, s.deliveries, d, driver.generation, now);
      if p !in order {
        RestampedSameHands(s, driver, now, owners, order, p);
      }
      ReplaceTables(s, driver, deliveries', owners, order, p);
      RepartitionedFrame(s, s.(deliveries := deliveries'), driver);
      RepartitionedFrame(s, s.(deliveries := deliveries', results := s'.results), driver);
      TablesAndWorkFrame(ReplaceDriver(s.(deliveries := deliveries'), driver, owners, order), s', p);
    }
  }

  lemma SameSpecDriversOk(drivers: map<string, Driver>, driver: Driver)
    requires DriversOk(drivers) && driver.path in drivers && driver.spec == drivers[driver.path].spec
    ensures DriversOk(drivers[driver.path := driver])
  {
  }

  lemma SameSpecSupersedes(s: StoreState, driver: Driver, p: string)
    requires TablesAt(s, p) && driver.path in s.drivers
    requires s.drivers[driver.path].generation <= driver.generation && driver.spec == s.drivers[driver.path].spec
    requires driver.revision == s.drivers[driver.path].revision ==> driver.state == s.drivers[driver.path].state
    ensures Supersedes(s.drivers, driver)
  {
  }

  /** What a restart drops is not expected any more, or its row changed and is scheduled. */
  lemma RestampedSameHands(s: StoreState, driver: Driver, now: int, owners: map<string, string>, order: seq<string>,
                           p: string)
    requires driver.path in s.drivers && LegalReplacement(s, driver, owners, order) && p !in order
    ensures SameHands(s.rows, s.deliveries, Restamped(Repartitioned(s, driver), s.deliveries, driver.path, driver.generation, now), p)
  {
    hide Affected, UpdateRow, OwnersOk;
    var rows := Repartitioned(s, driver);
    var deliveries' := Restamped(rows, s.deliveries, driver.path, driver.generation, now);
    if p in s.rows {
      assert p !in Changed(s.rows, rows);
      assert rows[p] == s.rows[p];
      forall e | e in s.rows[p].desired.observed && InHand(s.deliveries, e, p, s.rows[p].desired.observed[e])
        ensures InHand(deliveries', e, p, s.rows[p].desired.observed[e])
      {
        var id :| id in s.deliveries && Carries(s.deliveries[id], e, p, s.rows[p].desired.observed[e]);
        assert id in deliveries' && Carries(deliveries'[id], e, p, s.rows[p].desired.observed[e]);
      }
    }
  }

  /** A replacement that leaves the deliveries alone. */
  lemma ReplaceKeeps(s: StoreState, driver: Driver, owners: map<string, string>, order: seq<string>, p: string)
    requires InvAt(s, p) && Supersedes(s.drivers, driver) && LegalReplacement(s, driver, owners, order)
    requires driver.generation == s.drivers[driver.path].generation
    ensures InvAt(ReplaceDriver(s, driver, owners, order), p)
  {
    ReplaceBooks(s, driver, owners, order);
    RowsAreKeyed(s);
    hide TablesAt, WorkAt, BooksOk, DriversOk, LegalReplacement, SchedulePaths, Repartitioned, SameHands, Keyed;
    assert s.(deliveries := s.deliveries) == s;
    SameHandsReflexive(s.rows, s.deliveries, p);
    ReplaceTables(s, driver, s.deliveries, owners, order, p);
  }

  lemma StopKeeps(s: StoreState, d: string, owners: map<string, string>, order: seq<string>, p: string)
    requires InvAt(s, p)
    requires d in s.drivers ==> LegalReplacement(s, StoppedDriver(s.drivers[d]), owners, order)
    ensures InvAt(StopDriver(s, d, owners, order).0, p)
  {
    hide TablesAt, WorkAt, BooksOk, Supersedes, LegalReplacement, ReplaceDriver;
    if d in s.drivers && s.drivers[d].path == d {
      SameSpecSupersedes(s, StoppedDriver(s.drivers[d]), p);
      ReplaceKeeps(s, StoppedDriver(s.drivers[d]), owners, order, p);
    }
  }

  lemma ProjectedDriversOk(registry: seq<string>, drivers: map<string, Driver>, d: string, state: string,
                           spec: DriverSpec)
    requires DriversOk(drivers) && d in drivers && Projects(registry, drivers, d, spec)
    ensures DriversOk(drivers[d := UpdatedDriver(drivers[d], state, spec)])
  {
  }

  lemma ProjectedSupersedes(s: StoreState, d: string, state: string, spec: DriverSpec, p: string)
    requires TablesAt(s, p) && d in s.drivers && Projects(s.registry, s.drivers, d, spec)
    ensures Supersedes(s.drivers, UpdatedDriver(s.drivers[d], state, spec))
  {
  }

  lemma UpdateKeeps(s: StoreState, d: string, expectedRevision: nat, state: string, spec: DriverSpec,
                    owners: map<string, string>, order: seq<string>, p: string)
    requires InvAt(s, p)
    requires d in s.drivers ==> LegalReplacement(s, UpdatedDriver(s.drivers[d], state, spec), owners, order)
    ensures InvAt(UpdateDriver(s, d, expectedRevision, state, spec, owners, order).0, p)
  {
    hide TablesAt, WorkAt, BooksOk, LegalReplacement, DriversOk, ReplaceDriver, Supersedes, Projects;
    var s' := UpdateDriver(s, d, expectedRevision, state, spec, owners, order).0;
    if s' != s {
      ProjectedSupersedes(s, d, state, spec, p);
      ReplaceKeeps(s, UpdatedDriver(s.drivers[d], state, spec), owners, order, p);
    }
  }
}
