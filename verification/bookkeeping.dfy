/** What every step of the store keeps, whatever it deletes: deliveries, windows, caches
    and the history of commits do not depend on what is observed. */
module Bookkeeping {
  import opened Wrappers
  import opened Resources
  import opened Partitions
  import opened Queue
  import opened Control
  import opened Invariants

  // ---- The choices of the code ----

  /** The owners are refreshed from the new table, and the changed rows are scheduled
      in some order. */
  ghost predicate LegalReplacement(s: StoreState, driver: Driver, owners: map<string, string>, order: seq<string>) {
    driver.path in s.drivers ==>
      && OwnersOk(owners, s.drivers[driver.path := driver])
      && (forall p :: p in order <==> p in Changed(s.rows, Repartitioned(s, driver)))
  }

  /** The choices a step leaves open are made as the code may make them: owners from a
      listing of the table, changed rows in some order, expired leases up to the limit.
      No step of the code is excluded. */
  ghost predicate Admissible(s: StoreState, e: Event) {
    match e
    case UpdatesDriver(d, _, control, spec, owners, order) =>
      d in s.drivers ==> LegalReplacement(s, UpdatedDriver(s.drivers[d], control, spec), owners, order)
    case Starts(d, _, owners, order) => d in s.drivers ==> LegalReplacement(s, StartedDriver(s.drivers[d]), owners, order)
    case Stops(d, owners, order) => d in s.drivers ==> LegalReplacement(s, StoppedDriver(s.drivers[d]), owners, order)
    case Says(d, g, Claims(limit, now, renewed, candidate)) => LegalClaim(s, d, g, limit, now, renewed, candidate)
    case _ => true
  }

  // ---- New tables ----

  ghost predicate RunsWithin(runs: map<string, Run>, runs': map<string, Run>) {
    forall r | r in runs' :: r in runs && runs[r] == runs'[r]
  }

  /** New rows and fewer Runs do not disturb deliveries, caches or history. */
  lemma TablesChange(s: StoreState, s': StoreState)
    requires BooksOk(s) && Keyed(s'.rows)
    requires RunsWithin(s.runs, s'.runs)
    requires s' == s.(rows := s'.rows, runs := s'.runs, queue := s'.queue)
    ensures BooksOk(s')
  {
  }

  lemma TransactionTables(t: Tables, drivers: map<string, Driver>, row: Resource)
    ensures var t' := PutOrFinish(t, row); (Keyed(t.rows) ==> Keyed(t'.rows)) && RunsWithin(t.runs, t'.runs)
    ensures var t' := Deleted(t, drivers, row); (Keyed(t.rows) ==> Keyed(t'.rows)) && RunsWithin(t.runs, t'.runs)
    ensures Keyed(t.rows) ==> Keyed(t.rows[row.path := Reobserve(drivers, row)])
  {
    hide Finished, Owned, Expected;
  }

  /** Mutations keep the rows keyed by their paths, and never change a Run; they can only
      remove it with its target. */
  lemma {:induction false} MutationsKeepRuns(t: Tables, registry: seq<string>, drivers: map<string, Driver>,
                                             d: string, g: nat, ms: seq<Mutation>)
    ensures match ApplyMutations(t, registry, drivers, d, g, ms)
            case Rejected(_) => true
            case Committed(t', _) => (Keyed(t.rows) ==> Keyed(t'.rows)) && RunsWithin(t.runs, t'.runs)
  {
    hide Deleted, PutOrFinish, Reobserve, Keyed;
    if ms != [] {
      var last := ms[|ms| - 1];
      MutationsKeepRuns(t, registry, drivers, d, g, ms[..|ms| - 1]);
      var first := ApplyMutations(t, registry, drivers, d, g, ms[..|ms| - 1]);
      if first.Committed? {
        MutationKeepsRuns(first.tables, registry, drivers, d, g, last);
      }
    }
  }

  lemma MutationKeepsRuns(t: Tables, registry: seq<string>, drivers: map<string, Driver>, d: string, g: nat,
                          m: Mutation)
    ensures match ApplyMutation(t, registry, drivers, d, g, m)
            case Rejected(_) => true
            case Committed(t', _) => (Keyed(t.rows) ==> Keyed(t'.rows)) && RunsWithin(t.runs, t'.runs)
  {
    hide Deleted, PutOrFinish, Reobserve;
    match m
    case CreateResource(planned) => TransactionTables(t, drivers, Inserted(planned));
    case UpdateResource(path, _, state, spec) => if path in t.rows { TransactionTables(t, drivers, Revised(t.rows[path], state, spec)); }
    case DeleteResource(path, _) => if path in t.rows { TransactionTables(t, drivers, t.rows[path]); }
    case UpdateResourceStatus(path, _, state, spec) =>
      if path in t.rows { TransactionTables(t, drivers, SubmittedStatus(t.rows[path], state, spec)); }
  }

  // ---- Writes of users ----

  lemma CreateBooks(s: StoreState, planned: Planned)
    requires BooksOk(s)
    ensures BooksOk(Create(s, planned).0)
  {
    hide BooksOk, Reobserve, Keyed, SchedulePaths;
    RowsAreKeyed(s);
    TransactionTables(TablesOf(s), s.drivers, Inserted(planned));
    TablesChange(s, Create(s, planned).0);
  }

  lemma RowsAreKeyed(s: StoreState)
    requires BooksOk(s)
    ensures Keyed(s.rows)
  {
  }

  lemma WriteBooks(s: StoreState, path: string, expectedRevision: nat, state: Option<string>, spec: Json)
    requires BooksOk(s)
    ensures BooksOk(Write(s, path, expectedRevision, state, spec).0)
  {
    hide DeliveriesOk, CachesOk, HistoryOk, Reobserve, SchedulePaths;
    if path in s.rows {
      TransactionTables(TablesOf(s), s.drivers, Revised(s.rows[path], state, spec));
      TablesChange(s, Write(s, path, expectedRevision, state, spec).0);
    }
  }

  /** Also a deletion that leaves its watchers in the dark. */
  lemma DeleteBooks(s: StoreState, path: string, expectedRevision: nat)
    requires BooksOk(s)
    ensures BooksOk(Delete(s, path, expectedRevision).0)
  {
    hide BooksOk, Deleted, Keyed, SchedulePaths;
    RowsAreKeyed(s);
    if path in s.rows {
      TransactionTables(TablesOf(s), s.drivers, s.rows[path]);
      TablesChange(s, Delete(s, path, expectedRevision).0);
    }
  }

  // ---- Deliveries that only change their status or lease ----

  ghost predicate SameWorks(deliveries: map<nat, Delivery>, deliveries': map<nat, Delivery>) {
    && deliveries.Keys == deliveries'.Keys
    && forall id | id in deliveries ::
         deliveries'[id].(status := Pending, leaseExpires := 0) == deliveries[id].(status := Pending, leaseExpires := 0)
  }

  lemma SameWorksBooks(s: StoreState, deliveries': map<nat, Delivery>)
    requires BooksOk(s) && SameWorks(s.deliveries, deliveries')
    ensures BooksOk(s.(deliveries := deliveries'))
  {
    var s' := s.(deliveries := deliveries');
    forall id | id in s'.deliveries ensures DeliveryOk(s', id) {
      assert DeliveryOk(s, id);
    }
    forall d ensures |DeliveriesOf(s'.deliveries, d)| <= MAX_IN_FLIGHT {
      assert DeliveriesOf(s'.deliveries, d) == DeliveriesOf(s.deliveries, d);
    }
    forall id, other | id in s'.deliveries && other in s'.deliveries && SameWork(s'.deliveries[id], s'.deliveries[other])
      ensures id == other
    {
      assert SameWork(s.deliveries[id], s.deliveries[other]);
    }
    forall id, request, generation | (id, request, generation) in s'.commits ensures CommitOk(s', id, request, generation) {
      assert CommitOk(s, id, request, generation);
    }
  }

  lemma {:induction false} RenewLeasesSameWorks(s: StoreState, d: string, g: nat, ids: seq<nat>, now: int)
    ensures var s' := RenewLeases(s, d, g, ids, now).0;
            SameWorks(s.deliveries, s'.deliveries) && s' == s.(deliveries := s'.deliveries)
  {
    if ids != [] {
      RenewLeasesSameWorks(s, d, g, ids[..|ids| - 1], now);
    }
  }

  // ---- Removing a delivery ----

  lemma {:induction false} EvictKeeps(completed: set<nat>, order: seq<nat>)
    requires forall id :: id in completed <==> id in order
    requires forall i, j | 0 <= i < j < |order| :: order[i] != order[j]
    ensures var (completed', order') := Evict(completed, order);
            && (forall id :: id in completed' <==> id in order')
            && (forall i, j | 0 <= i < j < |order'| :: order'[i] != order'[j])
            && |order'| <= COMPLETED_CACHE_SIZE && completed' <= completed
            && (|order| > 0 ==> |order'| > 0 && order'[|order'| - 1] == order[|order| - 1])
    decreases |order|
  {
    if |order| > COMPLETED_CACHE_SIZE {
      assert forall id :: id in order[1..] <==> id in order && id != order[0];
      EvictKeeps(completed - {order[0]}, order[1..]);
    }
  }

  /** The cache lists what it holds, without repetition and within its bound; the
      delivery just completed is in it. */
  lemma RememberKeeps(completed: set<nat>, order: seq<nat>, id: nat)
    requires forall i :: i in completed <==> i in order
    requires forall i, j | 0 <= i < j < |order| :: order[i] != order[j]
    requires |order| <= COMPLETED_CACHE_SIZE
    ensures var (completed', order') := Remember(completed, order, id);
            && (forall i :: i in completed' <==> i in order')
            && (forall i, j | 0 <= i < j < |order'| :: order'[i] != order'[j])
            && |order'| <= COMPLETED_CACHE_SIZE && completed' <= completed + {id} && id in completed'
  {
    if id in completed {
      EvictKeeps(completed, order);
    } else {
      EvictKeeps(completed + {id}, order + [id]);
      assert (order + [id])[|order|] == id;
    }
  }

  ghost predicate Without(s: StoreState, s': StoreState, id: nat) {
    s'.deliveries == s.deliveries - {id} && s'.results == ResultsWithout(s.results, {id}) && s'.nextId == s.nextId
    && s'.drivers == s.drivers && (forall r | r in s'.runs :: r in s.runs)
  }

  /** The Runs of the deliveries that remain are as before. */
  ghost predicate RunsKept(s: StoreState, s': StoreState) {
    forall id | id in s'.deliveries && s'.deliveries[id].work.Execute? ::
      var run := s'.deliveries[id].work.run;
      run in s'.runs && Executes(s'.runs[run], s'.deliveries[id]) ==> run in s.runs && s'.runs[run] == s.runs[run]
  }

  lemma WithoutKeeps(s: StoreState, s': StoreState, id: nat)
    requires DeliveriesOk(s) && HistoryOk(s) && Without(s, s', id) && RunsKept(s, s')
    requires s'.commits == s.commits || exists request, g :: s'.commits == s.commits + {(id, request, g)} && id in s.deliveries
    ensures DeliveriesOk(s') && HistoryOk(s')
  {
    forall other | other in s'.deliveries ensures DeliveryOk(s', other) {
      assert DeliveryOk(s, other);
    }
    forall d ensures |DeliveriesOf(s'.deliveries, d)| <= MAX_IN_FLIGHT {
      assert DeliveriesOf(s'.deliveries, d) == DeliveriesOf(s.deliveries, d) - {id};
    }
    forall other, request, g | (other, request, g) in s'.commits ensures CommitOk(s', other, request, g) {
      if (other, request, g) in s.commits {
        assert CommitOk(s, other, request, g);
      } else {
        assert DeliveryOk(s, id);
      }
    }
  }

  lemma ForgetKeepsCaches(s: StoreState, id: nat)
    requires CachesOk(s) && id in s.deliveries && id < s.nextId
    ensures CachesOk(Forget(s, id))
  {
    RememberKeeps(s.completed, s.completedOrder, id);
  }

  lemma CachesFrame(s: StoreState, s': StoreState)
    requires CachesOk(s)
    requires s'.completed == s.completed && s'.completedOrder == s.completedOrder && s'.nextId == s.nextId
    requires s'.deliveries == s.deliveries && s'.results == s.results
    ensures CachesOk(s')
  {
  }

  lemma DeliveryBound(s: StoreState, id: nat)
    requires DeliveriesOk(s) && id in s.deliveries
    ensures id < s.nextId
  {
  }

  lemma SameRunsKept(s: StoreState, s': StoreState)
    requires RunsWithin(s.runs, s'.runs)
    ensures RunsKept(s, s')
  {
  }

  lemma CompleteBooks(s: StoreState, id: nat, d: string, g: nat)
    requires BooksOk(s)
    ensures BooksOk(Complete(s, id, d, g).0)
  {
    hide DeliveriesOk, CachesOk, HistoryOk, Keyed, SchedulePaths, PutOrFinish, Remember, CompletedRow, RunsKept, RunsWithin;
    var (s', reply) := Complete(s, id, d, g);
    if reply == Done {
      var path := s.deliveries[id].work.resource.path;
      if path in s.rows {
        TransactionTables(TablesOf(s), s.drivers, CompletedRow(s.drivers, s.rows[path], d, ObservationOf(s.deliveries[id].work)));
      } else {
        SameRuns(s.runs);
      }
      DeliveryBound(s, id);
      ForgetKeepsCaches(s, id);
      CachesFrame(Forget(s, id), s');
      SameRunsKept(s, s');
      RunsAreWithin(s, s');
      WithoutKeeps(s, s', id);
    }
  }

  lemma SameRuns(runs: map<string, Run>)
    ensures RunsWithin(runs, runs)
  {
  }

  lemma RunsAreWithin(s: StoreState, s': StoreState)
    requires RunsWithin(s.runs, s'.runs)
    ensures forall r | r in s'.runs :: r in s.runs
  {
  }

  lemma AbandonBooks(s: StoreState, id: nat, d: string, g: nat)
    requires BooksOk(s)
    ensures BooksOk(Abandon(s, id, d, g).0)
  {
    hide DeliveriesOk, HistoryOk, Keyed, SchedulePaths;
    var (s', reply) := Abandon(s, id, d, g);
    if reply == Done {
      WithoutKeeps(s, s', id);
    }
  }

  // ---- Mutations ----

  lemma RecordCommit(s: StoreState, id: nat, request: nat, g: nat, results: seq<Resource>)
    requires BooksOk(s) && id in s.deliveries && s.deliveries[id].generation == g && s.deliveries[id].work.Reconcile?
    ensures BooksOk(s.(results := s.results[(id, request) := results], commits := s.commits + {(id, request, g)}))
  {
    var s' := s.(results := s.results[(id, request) := results], commits := s.commits + {(id, request, g)});
    assert DeliveryOk(s, id);
    forall other | other in s'.deliveries ensures DeliveryOk(s', other) {
      assert DeliveryOk(s, other);
    }
    forall other, r, h | (other, r, h) in s'.commits ensures CommitOk(s', other, r, h) {
      if (other, r, h) in s.commits {
        assert CommitOk(s, other, r, h);
      }
    }
  }

  lemma ApplyBooks(s: StoreState, id: nat, request: nat, d: string, g: nat, ms: seq<Mutation>)
    requires BooksOk(s)
    ensures BooksOk(Apply(s, id, request, d, g, ms).0)
  {
    hide BooksOk, Keyed, RunsWithin, SchedulePaths, ApplyMutations;
    RowsAreKeyed(s);
    if Apply(s, id, request, d, g, ms).0 != s {
      MutationsKeepRuns(TablesOf(s), s.registry, s.drivers, d, g, ms);
      match ApplyMutations(TablesOf(s), s.registry, s.drivers, d, g, ms)
      case Rejected(_) =>
      case Committed(t, results) =>
        var settled := Settle(s, t, PathsOf(results));
        TablesChange(s, settled);
        RecordCommit(settled, id, request, g, results);
    }
  }

  lemma FinishRunsKept(s: StoreState, s': StoreState, id: nat)
    requires DeliveriesOk(s) && id in s.deliveries && s.deliveries[id].work.Execute?
    requires s'.deliveries == s.deliveries - {id}
    requires forall r | r in s'.runs && r != s.deliveries[id].work.run :: r in s.runs && s'.runs[r] == s.runs[r]
    requires s.deliveries[id].work.run in s'.runs ==>
               s.deliveries[id].work.run in s.runs && s'.runs[s.deliveries[id].work.run].driver == s.deliveries[id].driver
    ensures RunsKept(s, s')
  {
  }

  lemma FinishRunBooks(s: StoreState, id: nat, d: string, g: nat, ms: seq<Mutation>, succeeded: bool)
    requires BooksOk(s)
    ensures BooksOk(FinishRun(s, id, d, g, ms, succeeded).0)
  {
    hide DeliveriesOk, CachesOk, HistoryOk, Keyed, RunsKept, SchedulePaths, ApplyMutations, Remember;
    var s' := FinishRun(s, id, d, g, ms, succeeded).0;
    if s' != s {
      MutationsKeepRuns(TablesOf(s), s.registry, s.drivers, d, g, ms);
      DeliveryBound(s, id);
      ForgetKeepsCaches(s, id);
      CachesFrame(Forget(s, id), s');
      FinishRunsKept(s, s', id);
      assert s'.commits == s.commits + {(id, id, g)};
      WithoutKeeps(s, s', id);
    }
  }

  // ---- Runs and the runtime state of Drivers ----

  lemma EnqueueRunBooks(s: StoreState, run: string, target: string, d: string)
    requires BooksOk(s)
    ensures BooksOk(EnqueueRun(s, run, target, d).0)
  {
    var s' := EnqueueRun(s, run, target, d).0;
    forall id | id in s'.deliveries ensures DeliveryOk(s', id) {
      assert DeliveryOk(s, id);
    }
    forall id, request, generation | (id, request, generation) in s'.commits ensures CommitOk(s', id, request, generation) {
      assert CommitOk(s, id, request, generation);
    }
  }

  lemma SetStatusBooks(s: StoreState, d: string, status: DriverState)
    requires BooksOk(s) && d in s.drivers
    ensures BooksOk(SetStatus(s, d, status))
  {
    var s' := SetStatus(s, d, status);
    forall id | id in s'.deliveries ensures DeliveryOk(s', id) {
      assert DeliveryOk(s, id);
    }
    forall id, request, generation | (id, request, generation) in s'.commits ensures CommitOk(s', id, request, generation) {
      assert CommitOk(s, id, request, generation);
    }
  }

  // ---- Replaced Drivers ----

  /** Deliveries that may be fewer; those of the Driver move to its new generation. */
  ghost predicate Regenerated(deliveries: map<nat, Delivery>, deliveries': map<nat, Delivery>, driver: Driver) {
    forall id | id in deliveries' ::
      && id in deliveries && deliveries'[id].driver == deliveries[id].driver && deliveries'[id].work == deliveries[id].work
      && deliveries'[id].generation == (if deliveries[id].driver == driver.path then driver.generation else deliveries[id].generation)
      && (deliveries[id].driver == driver.path && deliveries[id].generation != driver.generation ==> deliveries[id].work.Reconcile?)
  }

  lemma RegeneratedKeeps(s: StoreState, s': StoreState, driver: Driver)
    requires DeliveriesOk(s) && CachesOk(s) && HistoryOk(s)
    requires driver.path in s.drivers && s.drivers[driver.path].generation <= driver.generation
    requires Regenerated(s.deliveries, s'.deliveries, driver)
    requires s'.drivers == s.drivers[driver.path := driver] && s'.runs == s.runs && s'.nextId == s.nextId && s'.commits == s.commits
    requires s'.completed == s.completed && s'.completedOrder == s.completedOrder
    requires forall pair: (nat, nat) | pair in s'.results :: pair in s.results && pair.0 in s'.deliveries
    requires forall pair: (nat, nat) | pair in s.results && pair !in s'.results ::
               pair.0 in s'.deliveries ==> s.deliveries[pair.0].generation < s'.deliveries[pair.0].generation
    ensures DeliveriesOk(s') && CachesOk(s') && HistoryOk(s')
  {
    forall id | id in s'.deliveries ensures DeliveryOk(s', id) {
      assert DeliveryOk(s, id);
    }
    forall id, other | id in s'.deliveries && other in s'.deliveries && SameWork(s'.deliveries[id], s'.deliveries[other])
      ensures id == other
    {
      assert SameWork(s.deliveries[id], s.deliveries[other]);
    }
    forall d ensures |DeliveriesOf(s'.deliveries, d)| <= MAX_IN_FLIGHT {
      SubsetSize(DeliveriesOf(s'.deliveries, d), DeliveriesOf(s.deliveries, d));
    }
    forall id, request, g | (id, request, g) in s'.commits ensures CommitOk(s', id, request, g) {
      assert CommitOk(s, id, request, g);
      if id in s'.deliveries {
        assert DeliveryOk(s, id);
      }
    }
  }

  lemma StartRegenerates(s: StoreState, d: string, now: int, rows: map<string, Resource>)
    requires DeliveriesOk(s) && CachesOk(s) && d in s.drivers && s.drivers[d].path == d
    ensures var driver := StartedDriver(s.drivers[d]);
            var deliveries' := Restamped(rows, s.deliveries, d, driver.generation, now);
            var results' := ResultsWithout(s.results, DeliveriesOf(s.deliveries, d));
            && Regenerated(s.deliveries, deliveries', driver)
            && (forall pair: (nat, nat) | pair in results' :: pair in s.results && pair.0 in deliveries')
            && (forall pair: (nat, nat) | pair in s.results && pair !in results' ::
                  pair.0 in deliveries' ==> s.deliveries[pair.0].generation < deliveries'[pair.0].generation)
  {
  }

  /** Generation fencing on the side of the store. */
  lemma DeliveryCurrent(s: StoreState, id: nat)
    requires DeliveriesOk(s) && id in s.deliveries
    ensures s.deliveries[id].driver in s.drivers && s.deliveries[id].generation == s.drivers[s.deliveries[id].driver].generation
  {
  }

  lemma RepartitionedKeyed(s: StoreState, driver: Driver)
    requires Keyed(s.rows) && driver.path in s.drivers
    ensures Keyed(Repartitioned(s, driver))
  {
    hide Affected, UpdateRow;
    forall p | p in s.rows ensures Repartitioned(s, driver)[p].path == p {
      OnlyObservationsChange(driver.path, Some(driver), s.rows[p]);
    }
  }

  /** The rows as they were, but for what is to be observed. */
  ghost predicate SameDocuments(rows: map<string, Resource>, rows': map<string, Resource>) {
    && rows'.Keys == rows.Keys
    && forall p | p in rows ::
         && rows'[p].path == rows[p].path
         && rows'[p].desired.metadata == rows[p].desired.metadata && rows'[p].desired.spec == rows[p].desired.spec
         && rows'[p].status.metadata == rows[p].status.metadata && rows'[p].status.spec == rows[p].status.spec
  }

  lemma RepartitionedDocuments(s: StoreState, driver: Driver)
    requires driver.path in s.drivers
    ensures SameDocuments(s.rows, Repartitioned(s, driver))
  {
    hide Affected, UpdateRow;
    var rows := Repartitioned(s, driver);
    forall p | p in s.rows
      ensures rows[p].path == s.rows[p].path
      ensures rows[p].desired.(observed := map[]) == s.rows[p].desired.(observed := map[])
      ensures rows[p].status.(observed := map[]) == s.rows[p].status.(observed := map[])
    {
      OnlyObservationsChange(driver.path, Some(driver), s.rows[p]);
    }
    assert forall p | p in s.rows :: rows[p].desired.metadata == rows[p].desired.(observed := map[]).metadata
                                     && rows[p].desired.spec == rows[p].desired.(observed := map[]).spec
                                     && rows[p].status.metadata == rows[p].status.(observed := map[]).metadata
                                     && rows[p].status.spec == rows[p].status.(observed := map[]).spec;
  }

  lemma SameDocumentsReflexive(rows: map<string, Resource>)
    ensures SameDocuments(rows, rows)
  {
  }

  lemma DriverPaths(s: StoreState, e: Event)
    requires e.UpdatesDriver? || e.Starts? || e.Stops?
    ensures e.d in s.drivers ==> StartedDriver(s.drivers[e.d]).path == StoppedDriver(s.drivers[e.d]).path == s.drivers[e.d].path
    ensures e.UpdatesDriver? && e.d in s.drivers ==> UpdatedDriver(s.drivers[e.d], e.control, e.driverSpec).path == s.drivers[e.d].path
  {
  }

  lemma ReplacementDocuments(s: StoreState, e: Event)
    requires e.UpdatesDriver? || e.Starts? || e.Stops?
    ensures var s' := Step(s, e).0; s'.registry == s.registry && SameDocuments(s.rows, s'.rows)
  {
    hide SchedulePaths, Repartitioned, Restamped, Projects, SameDocuments, StartedDriver, StoppedDriver, UpdatedDriver;
    SameDocumentsReflexive(s.rows);
    DriverPaths(s, e);
    match e
    case UpdatesDriver(d, _, control, spec, _, _) =>
      if d in s.drivers && s.drivers[d].path == d { RepartitionedDocuments(s, UpdatedDriver(s.drivers[d], control, spec)); }
    case Starts(d, now, _, _) =>
      if d in s.drivers && s.drivers[d].path == d {
        var driver := StartedDriver(s.drivers[d]);
        RepartitionedDocuments(s.(deliveries := Restamped(Repartitioned(s, driver), s.deliveries, d, driver.generation, now),
                               results := ResultsWithout(s.results, DeliveriesOf(s.deliveries, d))), driver);
      }
    case Stops(d, _, _) => if d in s.drivers && s.drivers[d].path == d { RepartitionedDocuments(s, StoppedDriver(s.drivers[d])); }
  }

  lemma StartBooks(s: StoreState, d: string, now: int, owners: map<string, string>, order: seq<string>)
    requires BooksOk(s)
    ensures BooksOk(StartDriver(s, d, now, owners, order).0)
  {
    hide DeliveriesOk, CachesOk, HistoryOk, Keyed, SchedulePaths, Repartitioned, Restamped;
    var s' := StartDriver(s, d, now, owners, order).0;
    if s' != s {
      var driver := StartedDriver(s.drivers[d]);
      var rows := Repartitioned(s, driver);
      var middle := s.(deliveries := Restamped(rows, s.deliveries, d, driver.generation, now), results := s'.results);
      RepartitionedKeyed(middle, driver);
      StartRegenerates(s, d, now, rows);
      RegeneratedKeeps(s, s', driver);
    }
  }

  lemma ReplaceBooks(s: StoreState, driver: Driver, owners: map<string, string>, order: seq<string>)
    requires BooksOk(s) && driver.path in s.drivers && driver.generation == s.drivers[driver.path].generation
    ensures BooksOk(ReplaceDriver(s, driver, owners, order))
  {
    hide DeliveriesOk, HistoryOk, Keyed, SchedulePaths, Repartitioned;
    RepartitionedKeyed(s, driver);
    forall id | id in s.deliveries ensures s.deliveries[id].driver == driver.path ==> s.deliveries[id].generation == driver.generation {
      DeliveryCurrent(s, id);
    }
    RegeneratedKeeps(s, ReplaceDriver(s, driver, owners, order), driver);
  }

  // ---- Claims ----

  /** The live deliveries of a Driver are those of its current generation. */
  lemma LiveIsAll(s: StoreState, d: string, g: nat)
    requires DeliveriesOk(s) && d in s.drivers && s.drivers[d].generation == g
    ensures LiveIds(s.deliveries, d, g) == DeliveriesOf(s.deliveries, d)
  {
  }

  /** The parts of the invariant a new delivery adds to. */
  lemma DeliverKeeps(s: StoreState, d: string, g: nat, work: Work, now: int)
    requires DeliveriesOk(s) && CachesOk(s) && HistoryOk(s)
    requires d in s.drivers && s.drivers[d].generation == g
    requires |LiveIds(s.deliveries, d, g)| < MAX_IN_FLIGHT
    requires work.Execute? ==> !HasActiveRun(s.deliveries, d, g)
    requires work.Reconcile? ==> work.resource.path !in ActiveResources(s.deliveries, d, g)
    requires work.Execute? && work.run in s.runs ==> s.runs[work.run].state == RunRunning
    ensures var s' := Deliver(s, d, g, work, now); DeliveriesOk(s') && CachesOk(s') && HistoryOk(s')
  {
    var s' := Deliver(s, d, g, work, now);
    LiveIsAll(s, d, g);
    forall id | id in s'.deliveries ensures DeliveryOk(s', id) {
      if id != s.nextId {
        assert DeliveryOk(s, id);
      }
    }
    forall id, other | id in s'.deliveries && other in s'.deliveries && SameWork(s'.deliveries[id], s'.deliveries[other])
      ensures id == other
    {
      NewWorkDiffers(s, d, g, work, id);
      NewWorkDiffers(s, d, g, work, other);
    }
    forall e ensures |DeliveriesOf(s'.deliveries, e)| <= MAX_IN_FLIGHT {
      if e == d {
        assert DeliveriesOf(s'.deliveries, d) == DeliveriesOf(s.deliveries, d) + {s.nextId};
      } else {
        assert DeliveriesOf(s'.deliveries, e) <= DeliveriesOf(s.deliveries, e);
        WindowAt(s, e);
        SubsetSize(DeliveriesOf(s'.deliveries, e), DeliveriesOf(s.deliveries, e));
      }
    }
    forall id, request, h | (id, request, h) in s'.commits ensures CommitOk(s', id, request, h) {
      assert CommitOk(s, id, request, h);
    }
  }

  lemma WindowAt(s: StoreState, d: string)
    requires Windowed(s.deliveries)
    ensures |DeliveriesOf(s.deliveries, d)| <= MAX_IN_FLIGHT
  {
  }

  lemma NewWorkDiffers(s: StoreState, d: string, g: nat, work: Work, id: nat)
    requires DeliveriesOk(s) && d in s.drivers && s.drivers[d].generation == g
    requires work.Execute? ==> !HasActiveRun(s.deliveries, d, g)
    requires work.Reconcile? ==> work.resource.path !in ActiveResources(s.deliveries, d, g)
    ensures id in s.deliveries ==> !SameWork(s.deliveries[id], Delivery(d, g, work, Pending, 0)) && id < s.nextId
  {
  }

  lemma ClaimRunDrivers(s: StoreState, d: string, g: nat, run: string, now: int)
    requires Runnable(s, d, run)
    ensures ClaimRun(s, d, g, run, now).drivers == s.drivers
  {
  }

  lemma RenewedIsSame(deliveries: map<nat, Delivery>, renewed: set<nat>, now: int, d: string, g: nat)
    ensures LiveIds(Renewed(deliveries, renewed, now), d, g) == LiveIds(deliveries, d, g)
    ensures ActiveResources(Renewed(deliveries, renewed, now), d, g) == ActiveResources(deliveries, d, g)
    ensures HasActiveRun(Renewed(deliveries, renewed, now), d, g) == HasActiveRun(deliveries, d, g)
  {
  }

  lemma BooksBound(s: StoreState, id: nat)
    requires BooksOk(s) && id in s.deliveries
    ensures id < s.nextId
  {
  }

  lemma ClaimRunBooks(s: StoreState, d: string, g: nat, run: string, now: int)
    requires BooksOk(s) && Runnable(s, d, run)
    requires d in s.drivers && s.drivers[d].generation == g
    requires |LiveIds(s.deliveries, d, g)| < MAX_IN_FLIGHT && !HasActiveRun(s.deliveries, d, g)
    ensures BooksOk(ClaimRun(s, d, g, run, now))
  {
    hide CachesOk;
    var s1 := s.(runs := s.runs[run := s.runs[run].(generation := Some(g), state := RunRunning)]);
    CachesFrame(s, s1);
    forall id | id in s1.deliveries ensures DeliveryOk(s1, id) {
      assert DeliveryOk(s, id);
      NewWorkDiffers(s, d, g, Execute(run), id);
    }
    forall id, request, h | (id, request, h) in s1.commits ensures CommitOk(s1, id, request, h) {
      assert CommitOk(s, id, request, h);
    }
    hide DeliveriesOk, HistoryOk;
    DeliverKeeps(s1, d, g, Execute(run), now);
  }

  lemma QueueBooks(s: StoreState, q: QueueState)
    requires BooksOk(s)
    ensures BooksOk(s.(queue := q))
  {
  }

  /** Filling from any queue: the window and the rule of one delivery each hold even for
      items the check turns away. */
  lemma {:induction false} FillBooks(s: StoreState, d: string, g: nat, limit: nat, now: int)
    requires BooksOk(s) && d in s.drivers && s.drivers[d].generation == g && limit <= MAX_IN_FLIGHT
    ensures BooksOk(Fill(s, d, g, limit, now))
    decreases |s.queue.latest|
  {
    hide DeliveriesOk, CachesOk, HistoryOk, IsPending, Popped;
    if |LiveIds(s.deliveries, d, g)| < limit {
      var excluded := ActiveResources(s.deliveries, d, g);
      var (q, item) := Popped(s.queue, d, excluded);
      var s' := s.(queue := q);
      QueueBooks(s, q);
      if item.Some? {
        PopShrinks(s.queue, d, excluded);
        PopAvoids(s.queue, d, excluded);
        if item.value.resource !in s.rows || !IsPending(q.owners, s.rows[item.value.resource], d, item.value.observation) {
          FillBooks(s', d, g, limit, now);
        } else {
          var work := Reconcile(item.value.observation.driverRevision, s.rows[item.value.resource]);
          DeliverKeeps(s', d, g, work, now);
          FillBooks(Deliver(s', d, g, work, now), d, g, limit, now);
        }
      }
    }
  }

  lemma PopAvoids(q: QueueState, d: string, excluded: set<string>)
    ensures Popped(q, d, excluded).1.Some? ==> Popped(q, d, excluded).1.value.resource !in excluded
  {
  }

  lemma ClaimBooks(s: StoreState, d: string, g: nat, limit: nat, now: int, renewed: set<nat>, run: Option<string>)
    requires BooksOk(s) && limit <= MAX_IN_FLIGHT
    ensures BooksOk(Claim(s, d, g, limit, now, renewed, run).0)
  {
    hide BooksOk, LiveIds, HasActiveRun, Fill, ClaimRun;
    if limit > 0 && Current(s.drivers, d, g) {
      SameWorksBooks(s, Renewed(s.deliveries, renewed, now));
      var s1 := s.(deliveries := Renewed(s.deliveries, renewed, now));
      if TakesRun(s1, d, g, limit, run) {
        ClaimRunBooks(s1, d, g, run.value, now);
        ClaimRunDrivers(s1, d, g, run.value, now);
        FillBooks(ClaimRun(s1, d, g, run.value, now), d, g, limit, now);
      } else {
        FillBooks(s1, d, g, limit, now);
      }
    }
  }

  // ---- Every step ----

  lemma ReopenBooks(s: StoreState, drivers: seq<Driver>, paths: seq<string>)
    requires Keyed(s.rows) && Listings(s, drivers, paths)
    requires forall id, request, g | (id, request, g) in s.commits :: id < s.nextId
    ensures BooksOk(Reopened(s, drivers, paths))
  {
    hide Expected, ScheduledAll;
    var s' := Reopened(s, drivers, paths);
    assert forall d :: DeliveriesOf(s'.deliveries, d) == {};
  }

  lemma CommitsBound(s: StoreState)
    requires BooksOk(s)
    ensures forall id, request, g | (id, request, g) in s.commits :: id < s.nextId
  {
    forall id, request, g | (id, request, g) in s.commits ensures id < s.nextId {
      assert CommitOk(s, id, request, g);
    }
  }

  lemma HearBooks(s: StoreState, d: string, g: nat, message: Message)
    requires BooksOk(s) && Admissible(s, Says(d, g, message))
    ensures BooksOk(Hear(s, d, g, message).0)
  {
    hide BooksOk, SetStatus, Claim, Apply, FinishRun, Complete, Abandon;
    match message
    case Ready => if d in s.drivers { SetStatusBooks(s, d, Running); }
    case HasFailed => if d in s.drivers { SetStatusBooks(s, d, Failed); }
    case HasStopped => if d in s.drivers { SetStatusBooks(s, d, Stopped); }
    case Claims(limit, now, renewed, candidate) => ClaimBooks(s, d, g, limit, now, renewed, candidate);
    case ResetsLeases(now) => SameWorksBooks(s, ResetLeases(s, d, g, now).0.deliveries);
    case RenewsLeases(ids, now) =>
      RenewLeasesSameWorks(s, d, g, ids, now);
      SameWorksBooks(s, RenewLeases(s, d, g, ids, now).0.deliveries);
    case Acks(id, now) => SameWorksBooks(s, Acknowledge(s, id, d, g, now).0.deliveries);
    case Mutates(id, request, ms) => ApplyBooks(s, id, request, d, g, ms);
    case FinishesRun(id, ms, succeeded) => FinishRunBooks(s, id, d, g, ms, succeeded);
    case Completes(id) => CompleteBooks(s, id, d, g);
    case Abandons(id) => AbandonBooks(s, id, d, g);
  }

  /** No hypothesis on what is deleted. */
  lemma StepBooks(s: StoreState, e: Event)
    requires BooksOk(s) && Admissible(s, e)
    ensures BooksOk(Step(s, e).0)
  {
    hide BooksOk, Create, Write, Delete, StartDriver, ReplaceDriver, EnqueueRun, Reopened, Hear, LegalReplacement, Projects;
    match e
    case Creates(planned) => CreateBooks(s, planned);
    case Writes(path, expectedRevision, state, spec) => WriteBooks(s, path, expectedRevision, state, spec);
    case Deletes(path, expectedRevision) => DeleteBooks(s, path, expectedRevision);
    case UpdatesDriver(d, _, control, spec, owners, order) =>
      if d in s.drivers && s.drivers[d].path == d { ReplaceBooks(s, UpdatedDriver(s.drivers[d], control, spec), owners, order); }
    case Starts(d, now, owners, order) => StartBooks(s, d, now, owners, order);
    case Stops(d, owners, order) =>
      if d in s.drivers && s.drivers[d].path == d { ReplaceBooks(s, StoppedDriver(s.drivers[d]), owners, order); }
    case EnqueuesRun(run, target, d) => EnqueueRunBooks(s, run, target, d);
    case Reopens(listing, paths) =>
      if Listings(s, listing, paths) {
        RowsAreKeyed(s);
        CommitsBound(s);
        ReopenBooks(s, listing, paths);
      }
    case Says(d, g, message) => HearBooks(s, d, g, message);
  }
}
