/** When a deletion tells everybody who has to know.

    A Resource with an owner is deleted in two phases, the row going only when it was
    observed by all. A Resource without one is not: the code saves the row as it was
    before the observations were recomputed. */
module Deletion {
  import opened Wrappers
  import opened Matching
  import opened Resources
  import opened Partitions
  import opened Queue
  import opened Control
  import opened Invariants
  import opened Bookkeeping
  import opened Steps
  import opened Recovery
  import opened Safety

  /** A deletion that goes through keeps the invariant of its path exactly when the Resource
      has an owner, or nobody had anything left to observe on it. Otherwise the row goes on
      asking for the revision before the deletion. Other paths are not concerned. */
  lemma DeleteKeepsExactly(s: StoreState, path: string)
    requires InvAt(s, path) && path in s.rows && !s.rows[path].desired.metadata.isProtected
    ensures var s' := Delete(s, path, s.rows[path].Revision()).0;
            && (InvAt(s', path) <==> SafeDelete(s.drivers, s.rows[path]))
            && (forall p | p != path && InvAt(s, p) :: InvAt(s', p))
            && (!SafeDelete(s.drivers, s.rows[path]) ==>
                  path in s'.rows && s'.rows[path].Revision() == s.rows[path].Revision() + 1
                  && s'.rows[path].desired.observed == s.rows[path].desired.observed != Expected(s.drivers, s'.rows[path]))
  {
    hide WorkAt, DeliveriesOk, CachesOk, HistoryOk, DriversOk, OwnersOk, SchedulePaths, Owned, Owns, Watches;
    var resource := s.rows[path];
    var s' := Delete(s, path, resource.Revision()).0;
    OtherPathsKept(s, path);
    if SafeDelete(s.drivers, resource) {
      DeleteKeeps(s, path, resource.Revision(), path);
    } else {
      assert Observed(s.drivers, resource);
      var d :| d in resource.desired.observed && !Has(resource.status.observed, d, resource.desired.observed[d]);
      var row := StatusAsDesired(MarkedDeleted(resource));
      assert !AllObserved(row);
      assert s'.rows[path] == row;
      assert row.desired.observed[d].resourceRevision != row.Revision();
      assert !Observed(s.drivers, s'.rows[path]);
    }
  }

  lemma OtherPathsKept(s: StoreState, path: string)
    requires path in s.rows
    ensures forall p | p != path && InvAt(s, p) :: InvAt(Delete(s, path, s.rows[path].Revision()).0, p)
  {
    hide InvAt, Delete;
    forall p | p != path && InvAt(s, p) ensures InvAt(Delete(s, path, s.rows[path].Revision()).0, p) {
      DeleteKeeps(s, path, s.rows[path].Revision(), p);
    }
  }

  /** The same for the row alone, whoever asks for the deletion. */
  lemma DeletedRowOkExactly(registry: seq<string>, drivers: map<string, Driver>, t: Tables, path: string)
    requires RowOk(registry, drivers, t.rows, path) && path in t.rows && t.rows[path].path == path
    ensures RowOk(registry, drivers, Deleted(t, drivers, t.rows[path]).rows, path) <==> SafeDelete(drivers, t.rows[path])
  {
    hide Owned, Expected;
    var resource := t.rows[path];
    assert resource.path == path && Observed(drivers, resource);
    if SafeDelete(drivers, resource) {
      DeletedKeeps(registry, drivers, t, resource, path);
    } else {
      var d :| d in resource.desired.observed && !Has(resource.status.observed, d, resource.desired.observed[d]);
      var row := StatusAsDesired(MarkedDeleted(resource));
      assert !AllObserved(row);
      var rows := Deleted(t, drivers, resource).rows;
      assert rows[path] == row;
      ExpectedRevision(drivers, resource, d);
      ExpectedRevision(drivers, row, d);
      assert !Observed(drivers, rows[path]);
    }
  }

  lemma ExpectedRevision(drivers: map<string, Driver>, resource: Resource, d: string)
    ensures d in Expected(drivers, resource) ==> Expected(drivers, resource)[d].resourceRevision == resource.Revision()
  {
  }

  /** What the documentation promises of a deletion: the row goes only when every Driver
      concerned has seen the new revision, and until then it asks each of them to. */
  ghost predicate EverybodyToldOf(s: StoreState, s': StoreState, path: string)
    requires path in s.rows
  {
    if path in s'.rows then Observed(s.drivers, s'.rows[path]) else Expected(s.drivers, s.rows[path]) == map[]
  }

  /** The code keeps that promise exactly for Resources that have an owner, or that no
      running Driver selects. A Resource that is only watched is removed at once when its
      watchers were up to date, and otherwise kept without telling them. */
  lemma DeletionIsAsDocumented(s: StoreState, path: string)
    requires InvAt(s, path) && path in s.rows && !s.rows[path].desired.metadata.isProtected
    ensures EverybodyToldOf(s, Delete(s, path, s.rows[path].Revision()).0, path)
       <==> Owned(s.drivers, s.rows[path].Manifest()) || Expected(s.drivers, s.rows[path]) == map[]
  {
    hide WorkAt, DeliveriesOk, CachesOk, HistoryOk, DriversOk, OwnersOk, SchedulePaths, Owned, Owns, Watches, Expected;
    var resource := s.rows[path];
    assert Observed(s.drivers, resource);
    DeleteKeepsExactly(s, path);
    if Owned(s.drivers, resource.Manifest()) {
      ReobservedRow(s.drivers, MarkedDeleted(resource));
    } else if AllObserved(resource) {
      assert AllObserved(StatusAsDesired(MarkedDeleted(resource)));
      assert path !in Delete(s, path, resource.Revision()).0.rows;
    }
  }

  /** Whatever became of the observations of a row, an accepted write puts them right and
      its work in order. What holds without them holds of any path, say of one without a row. */
  lemma WriteRepairs(s: StoreState, path: string, state: Option<string>, spec: Json, unused: string)
    requires InvAt(s, unused) && path in s.rows && s.rows[path].Manifest() in s.registry
    ensures var (s', reply) := Write(s, path, s.rows[path].Revision(), state, spec);
            reply == Done ==> InvAt(s', path)
  {
    WriteBooks(s, path, s.rows[path].Revision(), state, spec);
    hide WellFormed, PathSettled, DeliveriesOk, CachesOk, HistoryOk, Observed, Reobserve, SchedulePath, DriversOk, OwnersOk;
    var row := Reobserve(s.drivers, Revised(s.rows[path], state, spec));
    ReobservedRow(s.drivers, Revised(s.rows[path], state, spec));
    var rows := s.rows[path := row];
    assert [path][..0] == [];
    assert SchedulePaths(rows, s.queue, [path]) == SchedulePath(rows, s.queue, path);
    SchedulePathSettles(rows, s.queue, path, s.deliveries);
  }

  // ---- What goes wrong otherwise ----

  /** Filling hands out Resources as they are, so nothing in a new delivery of this row
      carries an observation of another revision. */
  lemma {:induction false} FillHandsOutNow(s: StoreState, d: string, g: nat, limit: nat, now: int, path: string,
                                           expected: Observation)
    requires path in s.rows && s.rows[path].Revision() != expected.resourceRevision && Keyed(s.rows)
    requires !InHand(s.deliveries, d, path, expected)
    ensures !InHand(Fill(s, d, g, limit, now).deliveries, d, path, expected)
    decreases |s.queue.latest|
  {
    hide Popped, IsPending, LiveIds;
    if |LiveIds(s.deliveries, d, g)| < limit {
      var excluded := ActiveResources(s.deliveries, d, g);
      var (q, item) := Popped(s.queue, d, excluded);
      var s' := s.(queue := q);
      if item.Some? {
        PopShrinks(s.queue, d, excluded);
        if item.value.resource !in s.rows || !IsPending(q.owners, s.rows[item.value.resource], d, item.value.observation) {
          FillHandsOutNow(s', d, g, limit, now, path, expected);
        } else {
          var work := Reconcile(item.value.observation.driverRevision, s.rows[item.value.resource]);
          FillHandsOutNow(Deliver(s', d, g, work, now), d, g, limit, now, path, expected);
        }
      }
    }
  }

  lemma {:induction false} FillQueuesNothing(s: StoreState, d: string, g: nat, limit: nat, now: int, pair: Pair)
    requires WellFormed(s.queue) && pair !in s.queue.latest
    ensures pair !in Fill(s, d, g, limit, now).queue.latest
    decreases |s.queue.latest|
  {
    hide Popped, IsPending, LiveIds, WellFormed;
    if |LiveIds(s.deliveries, d, g)| < limit {
      var excluded := ActiveResources(s.deliveries, d, g);
      var (q, item) := Popped(s.queue, d, excluded);
      var s' := s.(queue := q);
      PoppedExactly(s.queue, d, excluded);
      if item.Some? {
        PopShrinks(s.queue, d, excluded);
        if item.value.resource !in s.rows || !IsPending(q.owners, s.rows[item.value.resource], d, item.value.observation) {
          FillQueuesNothing(s', d, g, limit, now, pair);
        } else {
          var work := Reconcile(item.value.observation.driverRevision, s.rows[item.value.resource]);
          FillQueuesNothing(Deliver(s', d, g, work, now), d, g, limit, now, pair);
        }
      }
    }
  }

  /** As long as there is room, filling takes everything that is not excluded. */
  lemma {:induction false} FillDrains(s: StoreState, d: string, g: nat, limit: nat, now: int, path: string)
    requires WellFormed(s.queue) && Keyed(s.rows) && path !in ActiveResources(s.deliveries, d, g)
    requires forall id | id in s.deliveries :: id < s.nextId
    ensures var s' := Fill(s, d, g, limit, now);
            |LiveIds(s'.deliveries, d, g)| < limit ==> (d, path) !in s'.queue.latest
    decreases |s.queue.latest|
  {
    hide Popped, IsPending, WellFormed;
    if |LiveIds(s.deliveries, d, g)| < limit {
      var excluded := ActiveResources(s.deliveries, d, g);
      var (q, item) := Popped(s.queue, d, excluded);
      var s' := s.(queue := q);
      PoppedExactly(s.queue, d, excluded);
      if item.Some? {
        PopShrinks(s.queue, d, excluded);
        if item.value.resource !in s.rows || !IsPending(q.owners, s.rows[item.value.resource], d, item.value.observation) {
          FillDrains(s', d, g, limit, now, path);
        } else {
          var work := Reconcile(item.value.observation.driverRevision, s.rows[item.value.resource]);
          var next := Deliver(s', d, g, work, now);
          if item.value.resource == path {
            FillQueuesNothing(next, d, g, limit, now, (d, path));
          } else {
            assert forall id | id in LiveIds(next.deliveries, d, g) && id != s.nextId :: id in LiveIds(s.deliveries, d, g);
            FillDrains(next, d, g, limit, now, path);
          }
        }
      }
    }
  }

  /** After any deletion that is not safe, the next claim of a running watcher that still
      has to observe the Resource, and is not at work on it, leaves its pair outstanding
      and carried by no delivery in the version expected; and if the claim did not run
      out of room, no longer queued either. The pair is lost. */
  lemma UnsafeDeletionStrands(s: StoreState, path: string, d: string, limit: nat, now: int, renewed: set<nat>,
                              run: Option<string>)
    requires InvAt(s, path) && path in s.rows && !s.rows[path].desired.metadata.isProtected && !SafeDelete(s.drivers, s.rows[path])
    requires d in s.drivers && s.drivers[d].status == Running && 0 < limit <= MAX_IN_FLIGHT
    requires Outstanding(s.queue.owners, s.rows[path], d) && path !in ActiveResources(s.deliveries, d, s.drivers[d].generation)
    ensures var deleted := Delete(s, path, s.rows[path].Revision()).0;
            var g := s.drivers[d].generation;
            var s' := Claim(deleted, d, g, limit, now, renewed, run).0;
            && path in s'.rows && d in s'.rows[path].desired.observed
            && Outstanding(s'.queue.owners, s'.rows[path], d) && !InHand(s'.deliveries, d, path, s'.rows[path].desired.observed[d])
            && (|LiveIds(s'.deliveries, d, g)| < limit ==> (d, path) !in s'.queue.latest)
  {
    hide InvAt, Fill, Delete, SafeDelete, LiveIds, ActiveResources, HasActiveRun, Outstanding;
    var g := s.drivers[d].generation;
    var deleted := Delete(s, path, s.rows[path].Revision()).0;
    AfterUnsafeDelete(s, path, d);
    assert BooksOk(s) by { BooksAt(s, path); }
    NotInHand(s, d, path, deleted.rows[path].desired.observed[d]);
    RenewedIsSame(deleted.deliveries, renewed, now, d, g);
    var s1 := deleted.(deliveries := Renewed(deleted.deliveries, renewed, now));
    ClaimedFromQueue(s1, d, g, limit, now, run, path, deleted.rows[path].desired.observed[d]);
    ClaimDrivers(deleted, d, g, limit, now, renewed, run);
    ClaimKeepsOwners(deleted, d, g, limit, now, renewed, run);
  }

  lemma AfterUnsafeDelete(s: StoreState, path: string, d: string)
    requires InvAt(s, path) && path in s.rows && !s.rows[path].desired.metadata.isProtected && !SafeDelete(s.drivers, s.rows[path])
    requires Outstanding(s.queue.owners, s.rows[path], d)
    ensures var s' := Delete(s, path, s.rows[path].Revision()).0;
            && path in s'.rows && d in s'.rows[path].desired.observed && Outstanding(s'.queue.owners, s'.rows[path], d)
            && s'.rows[path].Revision() != s'.rows[path].desired.observed[d].resourceRevision
            && s'.deliveries == s.deliveries && s'.drivers == s.drivers && s'.nextId == s.nextId
            && Keyed(s'.rows) && WellFormed(s'.queue) && forall id | id in s.deliveries :: id < s.nextId
  {
    hide DeliveriesOk, CachesOk, HistoryOk, PathSettled, WellFormed, DriversOk, OwnersOk, SchedulePaths, Owned, Expected;
    var resource := s.rows[path];
    var s' := Delete(s, path, resource.Revision()).0;
    assert Observed(s.drivers, resource) && resource.path == path;
    ExpectedRevision(s.drivers, resource, d);
    var e :| e in resource.desired.observed && !Has(resource.status.observed, e, resource.desired.observed[e]);
    var row := StatusAsDesired(MarkedDeleted(resource));
    assert !AllObserved(row);
    assert s'.rows == s.rows[path := row];
    SchedulePathsSettles(s'.rows, s.queue, [path], s.deliveries);
    StillOutstanding(s.queue.owners, s.drivers, resource, d);
    forall id | id in s.deliveries ensures id < s.nextId {
      BooksBound(s, id);
    }
  }

  /** The owner of an owned Resource is no watcher; a Resource without an owner is
      outstanding for whoever has not observed it. */
  lemma StillOutstanding(owners: map<string, string>, drivers: map<string, Driver>, resource: Resource, d: string)
    requires OwnersOk(owners, drivers) && !Owned(drivers, resource.Manifest()) && Outstanding(owners, resource, d)
    ensures Outstanding(owners, StatusAsDesired(MarkedDeleted(resource)), d)
  {
    var manifest := resource.Manifest();
    assert manifest !in owners by {
      if manifest in owners {
        assert Has(owners, manifest, owners[manifest]);
      }
    }
  }

  lemma BooksAt(s: StoreState, p: string)
    requires InvAt(s, p)
    ensures BooksOk(s)
  {
  }

  lemma NotInHand(s: StoreState, d: string, path: string, expected: Observation)
    requires BooksOk(s) && d in s.drivers && path !in ActiveResources(s.deliveries, d, s.drivers[d].generation)
    ensures !InHand(s.deliveries, d, path, expected)
  {
    forall id | id in s.deliveries ensures !Carries(s.deliveries[id], d, path, expected) {
      assert DeliveryOk(s, id);
      assert s.deliveries[id].driver == d ==> id in LiveIds(s.deliveries, d, s.drivers[d].generation);
    }
  }

  lemma ClaimedFromQueue(s: StoreState, d: string, g: nat, limit: nat, now: int, run: Option<string>, path: string,
                         expected: Observation)
    requires Keyed(s.rows) && WellFormed(s.queue) && path in s.rows && s.rows[path].Revision() != expected.resourceRevision
    requires forall id | id in s.deliveries :: id < s.nextId
    requires path !in ActiveResources(s.deliveries, d, g) && !InHand(s.deliveries, d, path, expected)
    ensures var s' := Fill(WithRun(s, d, g, limit, now, run), d, g, limit, now);
            && !InHand(s'.deliveries, d, path, expected)
            && (|LiveIds(s'.deliveries, d, g)| < limit ==> (d, path) !in s'.queue.latest)
  {
    hide Fill, WellFormed;
    var s1 := WithRun(s, d, g, limit, now, run);
    assert forall id | id in LiveIds(s1.deliveries, d, g) && s1.deliveries[id].work.Reconcile? :: id in LiveIds(s.deliveries, d, g);
    FillHandsOutNow(s1, d, g, limit, now, path, expected);
    FillDrains(s1, d, g, limit, now, path);
  }

  lemma {:induction false} FillOwners(s: StoreState, d: string, g: nat, limit: nat, now: int)
    ensures Fill(s, d, g, limit, now).queue.owners == s.queue.owners
    decreases |s.queue.latest|
  {
    hide IsPending, LiveIds;
    if |LiveIds(s.deliveries, d, g)| < limit {
      var excluded := ActiveResources(s.deliveries, d, g);
      var (q, item) := Popped(s.queue, d, excluded);
      var s' := s.(queue := q);
      if item.Some? {
        PopShrinks(s.queue, d, excluded);
        if item.value.resource !in s.rows || !IsPending(q.owners, s.rows[item.value.resource], d, item.value.observation) {
          FillOwners(s', d, g, limit, now);
        } else {
          var work := Reconcile(item.value.observation.driverRevision, s.rows[item.value.resource]);
          FillOwners(Deliver(s', d, g, work, now), d, g, limit, now);
        }
      }
    }
  }

  lemma ClaimKeepsOwners(s: StoreState, d: string, g: nat, limit: nat, now: int, renewed: set<nat>, run: Option<string>)
    ensures Claim(s, d, g, limit, now, renewed, run).0.queue.owners == s.queue.owners
  {
    hide Fill, LiveIds, HasActiveRun;
    if limit > 0 && Current(s.drivers, d, g) {
      var s1 := s.(deliveries := Renewed(s.deliveries, renewed, now));
      var s2 := WithRun(s1, d, g, limit, now, run);
      FillOwners(s2, d, g, limit, now);
    }
  }

  // ---- A run in which it does ----

  const WATCHED := "/m"
  const MANAGED := "/x"
  const PATH := "/r"
  const WATCHER := "/w"

  const SPEC := DriverSpec("/a", [MANAGED], [DriverWatch(One(WATCHED), [])])
  const DRIVER := Driver(WATCHER, false, 1, RUNNING, Some(SPEC), 1, Running)
  const ROW := Inserted(Planned(PATH, WATCHED, "r", "", "", 0, "active", Json("{}"), "active", Json("{}")))
  const OWNERS: map<string, string> := map[MANAGED := WATCHER]

  /** One watched Resource without an owner, and its watcher, which has not looked yet. */
  const DISK := StoreState([WATCHED, MANAGED], map[PATH := ROW], map[], map[WATCHER := DRIVER], EMPTY, map[], map[], {}, [], 0, {})

  /** The Resource is deleted, the watcher takes the work, fails, and is started again. */
  const EVENTS := [Deletes(PATH, 0), Says(WATCHER, 1, Claims(1, 0, {}, None)), Says(WATCHER, 1, HasFailed), Starts(WATCHER, 0, OWNERS, [])]

  ghost function Opened(): StoreState {
    Reopened(DISK, [DRIVER], [PATH])
  }

  lemma WatcherExpects(driver: Driver, resource: Resource)
    requires driver.state == RUNNING && driver.spec == Some(SPEC) && driver.path == WATCHER && resource.Manifest() == WATCHED
    ensures Expected(map[WATCHER := driver], resource) == map[WATCHER := Observation(driver.revision, resource.Revision())]
  {
    hide ResourcePathMatches;
    var drivers := map[WATCHER := driver];
    ExactSelector(WATCHED, WATCHED);
    assert SPEC.watches[0] in SPEC.watches;
    assert WatchMatches(SPEC.watches[0], resource);
    ExpectedIsMatching(drivers, resource);
  }

  lemma OnlyManager(driver: Driver)
    requires driver.path == WATCHER && driver.spec == Some(SPEC)
    ensures DriversOk(map[WATCHER := driver]) && !Owned(map[WATCHER := driver], WATCHED)
    ensures driver.state == RUNNING ==> OwnersOk(OWNERS, map[WATCHER := driver])
  {
  }

  lemma OpenedState()
    ensures var s := Opened();
            && DiskOk(DISK) && Listings(DISK, [DRIVER], [PATH]) && Inv(s) && s.drivers == DISK.drivers && s.rows.Keys == {PATH}
            && s.deliveries == map[] && s.runs == map[] && s.nextId == 0
            && s.rows[PATH].path == PATH && s.rows[PATH].desired.metadata == ROW.desired.metadata
            && s.rows[PATH].desired.observed == map[WATCHER := Observation(1, 0)] && s.rows[PATH].status.observed == map[]
  {
    hide Inv, OwnersOf, ScheduledAll, DriversOk, Watches, Owns;
    OnlyManager(DRIVER);
    WatcherExpects(DRIVER, ROW);
    assert [PATH][0] == PATH && [DRIVER][0] == DRIVER;
    ReopenRestores(DISK, [DRIVER], [PATH]);
    assert Opened().rows[PATH].desired.observed == map[WATCHER := Observation(1, 0)];
  }

  ghost function Gone(): StoreState {
    Delete(Opened(), PATH, 0).0
  }

  ghost function Taken(): StoreState {
    Claim(Gone(), WATCHER, 1, 1, 0, {}, None).0
  }

  /** The row as the deletion leaves it: revision 1, but to be observed in revision 0. */
  ghost predicate Stale(row: Resource) {
    && row.path == PATH && row.Manifest() == WATCHED && row.Revision() == 1
    && row.desired.observed == map[WATCHER := Observation(1, 0)] && row.status.observed == map[]
  }

  lemma AfterDelete()
    ensures var s := Gone();
            && s.drivers == DISK.drivers && s.rows.Keys == {PATH} && Stale(s.rows[PATH])
            && s.deliveries == map[] && s.runs == map[] && s.nextId == 0 && WellFormed(s.queue)
            && (forall pair: Pair :: pair in s.queue.latest <==> pair == (WATCHER, PATH))
            && s.queue.latest[(WATCHER, PATH)] == Key(WATCHER, PATH, Observation(1, 0))
  {
    hide Inv, Scheduled, WellFormed, Opened, Reobserve, DiskOk, Listings, DriversOk, OwnersOk;
    OpenedState();
    OnlyManager(DRIVER);
    var s0 := Opened();
    var row := StatusAsDesired(MarkedDeleted(s0.rows[PATH]));
    assert WATCHER in row.desired.observed && !AllObserved(row);
    QueueOk(s0);
    ScheduledExactly(s0.queue, row);
    var s := Gone();
    assert SchedulePaths(s.rows, s0.queue, []) == s0.queue;
    assert [PATH][..0] == [];
    assert s.queue == Scheduled(s0.queue, row);
    assert forall pair: Pair | pair in s.queue.latest :: pair == (pair.0, PATH);
  }

  lemma QueueOk(s: StoreState)
    requires Inv(s)
    ensures WellFormed(s.queue) && forall pair: Pair | pair in s.queue.latest :: pair.1 in s.rows
  {
  }

  lemma AfterClaim()
    ensures var s := Taken();
            && s.drivers == DISK.drivers && s.rows.Keys == {PATH} && Stale(s.rows[PATH])
            && s.deliveries == map[0 := Delivery(WATCHER, 1, Reconcile(1, s.rows[PATH]), Pending, LEASE_SECONDS)]
            && (WATCHER, PATH) !in s.queue.latest
  {
    hide Gone, Popped, WellFormed;
    AfterDelete();
    var s := Gone();
    assert Renewed(s.deliveries, {}, 0) == s.deliveries;
    assert LiveIds(s.deliveries, WATCHER, 1) == {} && ActiveResources(s.deliveries, WATCHER, 1) == {};
    PoppedExactly(s.queue, WATCHER, {});
    var (q, item) := Popped(s.queue, WATCHER, {});
    assert (WATCHER, PATH) in s.queue.latest;
    assert item.Some?;
    assert (WATCHER, item.value.resource) == (WATCHER, PATH);
    var s' := Deliver(s.(queue := q), WATCHER, 1, Reconcile(1, s.rows[PATH]), 0);
    assert LiveIds(s'.deliveries, WATCHER, 1) == {0};
    assert Fill(s', WATCHER, 1, 1, 0) == s';
  }

  /** The restart keeps only deliveries of what is expected, and reschedules only rows
      whose observations change: neither applies. */
  lemma AfterRestart(s: StoreState)
    requires s.drivers == map[WATCHER := DRIVER.(status := Failed)] && s.rows.Keys == {PATH} && Stale(s.rows[PATH])
    requires s.deliveries == map[0 := Delivery(WATCHER, 1, Reconcile(1, s.rows[PATH]), Pending, LEASE_SECONDS)]
    requires (WATCHER, PATH) !in s.queue.latest
    ensures Legal(s, EVENTS[3], PATH)
    ensures var s' := Step(s, EVENTS[3]).0;
            && s'.rows == s.rows && s'.deliveries == map[] && s'.queue.latest == s.queue.latest
            && PATH in s'.rows && Outstanding(s'.queue.owners, s'.rows[PATH], WATCHER)
  {
    var driver := StartedDriver(s.drivers[WATCHER]);
    SameSnapshot(s, driver);
    OnlyManager(driver);
    assert s.drivers[WATCHER := driver] == map[WATCHER := driver];
    var s' := Step(s, EVENTS[3]).0;
    assert s'.rows == s.rows;
    assert !Keeps(s.rows, s.deliveries[0]);
    assert s'.deliveries == map[];
  }

  lemma SameSnapshot(s: StoreState, driver: Driver)
    requires driver.path in s.drivers && SnapshotOf(Some(s.drivers[driver.path])) == SnapshotOf(Some(driver))
    ensures Repartitioned(s, driver) == s.rows && Changed(s.rows, Repartitioned(s, driver)) == {}
  {
  }

  lemma {:induction false} AfterEvents()
    ensures After(Opened(), EVENTS[..1]) == Gone()
    ensures After(Opened(), EVENTS[..2]) == Hear(Gone(), WATCHER, 1, EVENTS[1].message).0 == Taken()
    ensures After(Opened(), EVENTS[..3]) == Hear(Taken(), WATCHER, 1, HasFailed).0
    ensures After(Opened(), EVENTS) == Step(After(Opened(), EVENTS[..3]), EVENTS[3]).0
  {
    hide Opened, Delete, Claim, MarkFailed, StartDriver;
    assert EVENTS[..1][..0] == [];
    assert EVENTS[..2][..1] == EVENTS[..1];
    assert EVENTS[..3][..2] == EVENTS[..2];
    assert EVENTS[..4] == EVENTS;
  }

  /** Work is lost: after these events the watcher runs in a new generation, still has
      the Resource to observe, and neither the queue nor any delivery says so. Every
      event but the deletion is one the invariant survives. */
  lemma UnsafeDeleteLosesWork()
    ensures var s := After(Opened(), EVENTS);
            && DiskOk(DISK) && Listings(DISK, [DRIVER], [PATH])
            && PATH in s.rows && Outstanding(s.queue.owners, s.rows[PATH], WATCHER)
            && (WATCHER, PATH) !in s.queue.latest && s.deliveries == map[]
    ensures !Legal(Opened(), EVENTS[0], PATH)
    ensures Legal(After(Opened(), EVENTS[..1]), EVENTS[1], PATH)
    ensures Legal(After(Opened(), EVENTS[..2]), EVENTS[2], PATH)
    ensures Legal(After(Opened(), EVENTS[..3]), EVENTS[3], PATH)
  {
    hide Opened, Step, Legal, IsPending, After, DiskOk, Listings, Hear, Gone, Taken;
    OpenedState();
    DeletionIsUnsafe();
    AfterEvents();
    AfterFailure();
    AfterRestart(Hear(Taken(), WATCHER, 1, HasFailed).0);
    TheClaimIsLegal();
    assert Legal(Taken(), Says(WATCHER, 1, HasFailed), PATH) by { FailureIsLegal(Taken()); }
  }

  lemma FailureIsLegal(s: StoreState)
    ensures Legal(s, Says(WATCHER, 1, HasFailed), PATH)
  {
  }

  lemma DeletionIsUnsafe()
    ensures !Legal(Opened(), EVENTS[0], PATH)
  {
    hide Opened, Inv, Owned, DiskOk, Listings;
    OpenedState();
    OnlyManager(DRIVER);
    assert WATCHER in Opened().rows[PATH].desired.observed;
  }

  lemma AfterFailure()
    ensures var s := Hear(Taken(), WATCHER, 1, HasFailed).0;
            && s.drivers == map[WATCHER := DRIVER.(status := Failed)] && s.rows.Keys == {PATH} && Stale(s.rows[PATH])
            && s.deliveries == map[0 := Delivery(WATCHER, 1, Reconcile(1, s.rows[PATH]), Pending, LEASE_SECONDS)]
            && (WATCHER, PATH) !in s.queue.latest
  {
    hide Taken, Stale;
    AfterClaim();
  }

  lemma TheClaimIsLegal()
    ensures Legal(Gone(), EVENTS[1], PATH)
  {
    hide Gone, Stale, WellFormed;
    AfterDelete();
    assert Expired(Gone().deliveries, WATCHER, 1, 0) == {};
  }
}
