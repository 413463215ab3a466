/** Every step of the control loop keeps the invariant. */
module Steps {
  import opened Wrappers
  import opened Resources
  import opened Partitions
  import opened Queue
  import opened Control
  import opened Invariants
  import opened Bookkeeping

  // ---- Which steps are considered ----

  /** Deleting is safe when an owner has to confirm it, or when nobody has anything
      left to observe. The branch for unowned Resources does not tell watchers. */
  predicate SafeDelete(drivers: map<string, Driver>, resource: Resource) {
    Owned(drivers, resource.Manifest()) || AllObserved(resource)
  }

  /** The mutation does not delete this path unsafely. */
  predicate DeletesSafely(t: Tables, drivers: map<string, Driver>, m: Mutation, p: string) {
    m.DeleteResource? && m.path == p && p in t.rows && t.rows[p].Revision() == m.expectedRevision ==> SafeDelete(drivers, t.rows[p])
  }

  predicate AllDeleteSafely(t: Tables, registry: seq<string>, drivers: map<string, Driver>, d: string,
                            generation: nat, ms: seq<Mutation>, p: string) {
    ms == [] ||
    (var last := |ms| - 1;
     && AllDeleteSafely(t, registry, drivers, d, generation, ms[..last], p)
     && match ApplyMutations(t, registry, drivers, d, generation, ms[..last])
        case Committed(t', _) => DeletesSafely(t', drivers, ms[last], p)
        case Rejected(_) => true)
  }

  /** A user's deletion on this revision goes through. */
  predicate Deletable(s: StoreState, path: string, expectedRevision: nat) {
    path in s.rows && s.rows[path].Revision() == expectedRevision && !s.rows[path].desired.metadata.isProtected
  }

  /** If the step deletes this path, it deletes it safely. */
  predicate DeletesOnlySafely(s: StoreState, e: Event, p: string) {
    match e
    case Deletes(path, expectedRevision) => path == p && Deletable(s, p, expectedRevision) ==> SafeDelete(s.drivers, s.rows[p])
    case Says(d, g, Mutates(_, _, ms)) => AllDeleteSafely(TablesOf(s), s.registry, s.drivers, d, g, ms, p)
    case Says(d, g, FinishesRun(_, ms, _)) => AllDeleteSafely(TablesOf(s), s.registry, s.drivers, d, g, ms, p)
    case _ => true
  }

  /** The steps that keep track of the observations of this path. */
  ghost predicate Legal(s: StoreState, e: Event, p: string) {
    Admissible(s, e) && DeletesOnlySafely(s, e, p)
  }

  // ---- New tables ----

  ghost predicate SameRow(rows: map<string, Resource>, rows': map<string, Resource>, p: string) {
    (p in rows <==> p in rows') && (p in rows ==> rows[p] == rows'[p])
  }

  lemma SettledTables(s: StoreState, t: Tables, deliveries': map<nat, Delivery>, paths: seq<string>, p: string)
    requires TablesAt(s, p) && WorkAt(s, p) && Keyed(s.rows) && Keyed(t.rows)
    requires RowOk(s.registry, s.drivers, t.rows, p)
    requires p !in paths ==> SameRow(s.rows, t.rows, p) && SameHands(s.rows, s.deliveries, deliveries', p)
    ensures var s' := Settle(s.(deliveries := deliveries'), t, paths);
            TablesAt(s', p) && WorkAt(s', p)
  {
    hide Observed, WellFormed, PathSettled, SchedulePaths, SameHands, Outstanding;
    assert s.queue.(owners := s.queue.owners) == s.queue;
    Settles(s, t.rows, s.queue.owners, deliveries', paths, p);
  }

  lemma SameHandsReflexive(rows: map<string, Resource>, deliveries: map<nat, Delivery>, p: string)
    ensures SameHands(rows, deliveries, deliveries, p)
  {
  }

  lemma SettleKeeps(s: StoreState, t: Tables, paths: seq<string>, p: string)
    requires TablesAt(s, p) && WorkAt(s, p) && Keyed(s.rows) && Keyed(t.rows)
    requires RowOk(s.registry, s.drivers, t.rows, p) && (p !in paths ==> SameRow(s.rows, t.rows, p))
    ensures var s' := Settle(s, t, paths); TablesAt(s', p) && WorkAt(s', p)
  {
    hide TablesAt, WorkAt, RowOk, SameRow, SameHands, SchedulePaths, Keyed;
    assert s.(deliveries := s.deliveries) == s;
    SameHandsReflexive(s.rows, s.deliveries, p);
    SettledTables(s, t, s.deliveries, paths, p);
  }

  // ---- Rows written one at a time ----

  lemma PutRow(registry: seq<string>, drivers: map<string, Driver>, rows: map<string, Resource>, row: Resource, p: string)
    requires RowOk(registry, drivers, rows, p)
    requires p == row.path ==> Observed(drivers, row) && row.Manifest() in registry
    ensures RowOk(registry, drivers, rows[row.path := row], p)
    ensures p != row.path ==> SameRow(rows, rows[row.path := row], p)
  {
  }

  lemma ReobservedRow(drivers: map<string, Driver>, resource: Resource)
    ensures var row := Reobserve(drivers, resource);
            Observed(drivers, row) && row.path == resource.path && row.Manifest() == resource.Manifest()
  {
  }

  lemma PutOrFinishKeeps(registry: seq<string>, drivers: map<string, Driver>, t: Tables, row: Resource, p: string)
    requires RowOk(registry, drivers, t.rows, p)
    requires p == row.path ==> (Finished(row) || Observed(drivers, row)) && row.Manifest() in registry
    ensures var t' := PutOrFinish(t, row);
            RowOk(registry, drivers, t'.rows, p) && (p != row.path ==> SameRow(t.rows, t'.rows, p))
  {
  }

  lemma DeletedKeeps(registry: seq<string>, drivers: map<string, Driver>, t: Tables, resource: Resource, p: string)
    requires RowOk(registry, drivers, t.rows, p) && resource.path in t.rows && t.rows[resource.path] == resource
    requires p == resource.path ==> SafeDelete(drivers, resource)
    ensures var t' := Deleted(t, drivers, resource);
            RowOk(registry, drivers, t'.rows, p) && (p != resource.path ==> SameRow(t.rows, t'.rows, p))
  {
    hide Observed;
    var marked := MarkedDeleted(resource);
    if Owned(drivers, resource.Manifest()) {
      ReobservedRow(drivers, marked);
      PutRow(registry, drivers, t.rows, Reobserve(drivers, marked), p);
    } else {
      assert p == resource.path ==> Finished(StatusAsDesired(marked));
      PutOrFinishKeeps(registry, drivers, t, StatusAsDesired(marked), p);
    }
  }

  /** A submitted status changes no observation. */
  lemma SubmittedObserved(drivers: map<string, Driver>, resource: Resource, state: string, spec: Json)
    requires Observed(drivers, resource)
    ensures Observed(drivers, SubmittedStatus(resource, state, spec))
  {
  }

  lemma MutationKeeps(t: Tables, registry: seq<string>, drivers: map<string, Driver>, d: string, g: nat, m: Mutation, p: string)
    requires Keyed(t.rows) && RowOk(registry, drivers, t.rows, p) && DeletesSafely(t, drivers, m, p)
    ensures match ApplyMutation(t, registry, drivers, d, g, m)
            case Rejected(_) => true
            case Committed(t', results) =>
              RowOk(registry, drivers, t'.rows, p) && (p !in PathsOf(results) ==> SameRow(t.rows, t'.rows, p))
  {
    hide Observed, SafeDelete, Reobserve, SameRow, Deleted, PutOrFinish;
    if ApplyMutation(t, registry, drivers, d, g, m).Committed? {
      match m
      case CreateResource(planned) =>
        ReobservedRow(drivers, Inserted(planned));
        PutRow(registry, drivers, t.rows, Reobserve(drivers, Inserted(planned)), p);
        assert PathsOf([Inserted(planned)]) == [planned.path];
      case UpdateResource(path, _, state, spec) =>
        var row := Revised(t.rows[path], state, spec);
        ReobservedRow(drivers, row);
        PutRow(registry, drivers, t.rows, Reobserve(drivers, row), p);
        assert PathsOf([row]) == [path];
      case DeleteResource(path, _) =>
        DeletedKeeps(registry, drivers, t, t.rows[path], p);
        assert PathsOf(ApplyMutation(t, registry, drivers, d, g, m).results) == [path];
      case UpdateResourceStatus(path, _, state, spec) =>
        if path == p {
          SubmittedObserved(drivers, t.rows[path], state, spec);
        }
        PutOrFinishKeeps(registry, drivers, t, SubmittedStatus(t.rows[path], state, spec), p);
        assert PathsOf([SubmittedStatus(t.rows[path], state, spec)]) == [path];
    }
  }

  /** A batch keeps the row under a path up to date as long as it does not delete it
      unsafely, and reports the path if it touches it. */
  lemma {:induction false} MutationsKeep(t: Tables, registry: seq<string>, drivers: map<string, Driver>, d: string,
                                         g: nat, ms: seq<Mutation>, p: string)
    requires Keyed(t.rows) && RowOk(registry, drivers, t.rows, p) && AllDeleteSafely(t, registry, drivers, d, g, ms, p)
    ensures match ApplyMutations(t, registry, drivers, d, g, ms)
            case Rejected(_) => true
            case Committed(t', results) =>
              RowOk(registry, drivers, t'.rows, p) && (p !in PathsOf(results) ==> SameRow(t.rows, t'.rows, p))
  {
    hide RowOk, Keyed, ApplyMutation, DeletesSafely;
    if ms != [] {
      var last := |ms| - 1;
      MutationsKeep(t, registry, drivers, d, g, ms[..last], p);
      MutationsKeepRuns(t, registry, drivers, d, g, ms[..last]);
      var first := ApplyMutations(t, registry, drivers, d, g, ms[..last]);
      if first.Committed? {
        MutationKeeps(first.tables, registry, drivers, d, g, ms[last], p);
        var second := ApplyMutation(first.tables, registry, drivers, d, g, ms[last]);
        if second.Committed? {
          PathsAppend(first.results, second.results);
        }
      }
    }
  }

  lemma PathsAppend(a: seq<Resource>, b: seq<Resource>)
    ensures PathsOf(a + b) == PathsOf(a) + PathsOf(b)
  {
  }

  // ---- The writes of users ----

  lemma CreateKeeps(s: StoreState, planned: Planned, p: string)
    requires InvAt(s, p)
    ensures InvAt(Create(s, planned).0, p)
  {
    CreateBooks(s, planned);
    RowsAreKeyed(s);
    hide WorkAt, BooksOk, Settle, Reobserve, Observed, SameRow, Keyed;
    if planned.manifest in s.registry && planned.path !in s.rows {
      var row := Reobserve(s.drivers, Inserted(planned));
      ReobservedRow(s.drivers, Inserted(planned));
      TransactionTables(TablesOf(s), s.drivers, Inserted(planned));
      PutRow(s.registry, s.drivers, s.rows, row, p);
      SettleKeeps(s, TablesOf(s).(rows := s.rows[planned.path := row]), [planned.path], p);
    }
  }

  lemma WriteKeeps(s: StoreState, path: string, expectedRevision: nat, state: Option<string>, spec: Json, p: string)
    requires InvAt(s, p)
    ensures InvAt(Write(s, path, expectedRevision, state, spec).0, p)
  {
    WriteBooks(s, path, expectedRevision, state, spec);
    hide WorkAt, DeliveriesOk, CachesOk, HistoryOk, Settle, Reobserve, Observed, SameRow;
    if path in s.rows {
      var row := Reobserve(s.drivers, Revised(s.rows[path], state, spec));
      ReobservedRow(s.drivers, Revised(s.rows[path], state, spec));
      PutRow(s.registry, s.drivers, s.rows, row, p);
      SettleKeeps(s, TablesOf(s).(rows := s.rows[path := row]), [path], p);
    }
  }

  lemma DeleteKeeps(s: StoreState, path: string, expectedRevision: nat, p: string)
    requires InvAt(s, p)
    requires path == p && Deletable(s, p, expectedRevision) ==> SafeDelete(s.drivers, s.rows[p])
    ensures InvAt(Delete(s, path, expectedRevision).0, p)
  {
    DeleteBooks(s, path, expectedRevision);
    hide WorkAt, DeliveriesOk, CachesOk, HistoryOk, Settle, Observed, SameRow, Deleted, SafeDelete;
    if Deletable(s, path, expectedRevision) {
      TransactionTables(TablesOf(s), s.drivers, s.rows[path]);
      DeletedKeeps(s.registry, s.drivers, TablesOf(s), s.rows[path], p);
      SettleKeeps(s, Deleted(TablesOf(s), s.drivers, s.rows[path]), [path], p);
    }
  }

  // ---- Deliveries that only change their status or lease ----

  lemma SameWorksKeep(s: StoreState, deliveries': map<nat, Delivery>, p: string)
    requires InvAt(s, p) && SameWorks(s.deliveries, deliveries')
    ensures InvAt(s.(deliveries := deliveries'), p)
  {
    SameWorksBooks(s, deliveries');
    SameWorksInHand(s, deliveries', p);
  }

  lemma SameWorksInHand(s: StoreState, deliveries': map<nat, Delivery>, p: string)
    requires TablesAt(s, p) && WorkAt(s, p) && SameWorks(s.deliveries, deliveries')
    ensures TablesAt(s.(deliveries := deliveries'), p) && WorkAt(s.(deliveries := deliveries'), p)
  {
  }

  lemma AcknowledgeKeeps(s: StoreState, id: nat, d: string, g: nat, now: int, p: string)
    requires InvAt(s, p)
    ensures InvAt(Acknowledge(s, id, d, g, now).0, p)
  {
    hide InvAt;
    SameWorksKeep(s, Acknowledge(s, id, d, g, now).0.deliveries, p);
  }

  lemma ResetLeasesKeeps(s: StoreState, d: string, g: nat, now: int, p: string)
    requires InvAt(s, p)
    ensures InvAt(ResetLeases(s, d, g, now).0, p)
  {
    hide InvAt;
    SameWorksKeep(s, ResetLeases(s, d, g, now).0.deliveries, p);
  }

  lemma RenewLeasesKeeps(s: StoreState, d: string, g: nat, ids: seq<nat>, now: int, p: string)
    requires InvAt(s, p)
    ensures InvAt(RenewLeases(s, d, g, ids, now).0, p)
  {
    hide InvAt;
    RenewLeasesSameWorks(s, d, g, ids, now);
    SameWorksKeep(s, RenewLeases(s, d, g, ids, now).0.deliveries, p);
  }

  // ---- Removing a delivery ----

  /** Only what the delivery carried can get out of hand when it goes. */
  lemma RemovalSameHands(s: StoreState, id: nat, p: string)
    requires id in s.deliveries
    requires s.deliveries[id].work.Reconcile? ==> p != s.deliveries[id].work.resource.path
    ensures SameHands(s.rows, s.deliveries, s.deliveries - {id}, p)
  {
    if p in s.rows {
      forall d | d in s.rows[p].desired.observed && InHand(s.deliveries, d, p, s.rows[p].desired.observed[d])
        ensures InHand(s.deliveries - {id}, d, p, s.rows[p].desired.observed[d])
      {
        var other :| other in s.deliveries && Carries(s.deliveries[other], d, p, s.rows[p].desired.observed[d]);
        assert other in s.deliveries - {id};
      }
    }
  }

  lemma CompletedRowObserved(drivers: map<string, Driver>, resource: Resource, d: string, observation: Observation)
    ensures var row := CompletedRow(drivers, resource, d, observation);
            Observed(drivers, row) && row.path == resource.path && row.Manifest() == resource.Manifest()
  {
  }

  /** Tables and work, when one delivery for a path went and the path is scheduled. */
  lemma RemovalKeeps(s: StoreState, s': StoreState, t: Tables, id: nat, path: string, p: string)
    requires TablesAt(s, p) && WorkAt(s, p) && Keyed(s.rows) && Keyed(t.rows)
    requires id in s.deliveries && s.deliveries[id].work.Reconcile? && path == s.deliveries[id].work.resource.path
    requires RowOk(s.registry, s.drivers, t.rows, p) && (p != path ==> SameRow(s.rows, t.rows, p))
    requires var settled := Settle(s.(deliveries := s.deliveries - {id}), t, [path]);
             s'.registry == s.registry && s'.drivers == s.drivers && s'.rows == settled.rows && s'.queue == settled.queue
             && s'.deliveries == settled.deliveries
    ensures TablesAt(s', p) && WorkAt(s', p)
  {
    hide TablesAt, WorkAt, RowOk, SameRow, SameHands, SchedulePaths, Keyed;
    if p != path {
      RemovalSameHands(s, id, p);
    }
    SettledTables(s, t, s.deliveries - {id}, [path], p);
    TablesAndWorkFrame(Settle(s.(deliveries := s.deliveries - {id}), t, [path]), s', p);
  }

  lemma TablesAndWorkFrame(s: StoreState, s': StoreState, p: string)
    requires TablesAt(s, p) && WorkAt(s, p)
    requires s'.registry == s.registry && s'.drivers == s.drivers && s'.rows == s.rows && s'.queue == s.queue
    requires s'.deliveries == s.deliveries
    ensures TablesAt(s', p) && WorkAt(s', p)
  {
  }

  lemma CompleteKeeps(s: StoreState, id: nat, d: string, g: nat, p: string)
    requires InvAt(s, p)
    ensures InvAt(Complete(s, id, d, g).0, p)
  {
    CompleteBooks(s, id, d, g);
    RowsAreKeyed(s);
    hide WorkAt, BooksOk, SchedulePaths, Observed, SameRow, PutOrFinish, Remember, CompletedRow, Keyed;
    var s' := Complete(s, id, d, g).0;
    if s' != s {
      var path := s.deliveries[id].work.resource.path;
      var t := TablesOf(s);
      if path in s.rows {
        var row := CompletedRow(s.drivers, s.rows[path], d, ObservationOf(s.deliveries[id].work));
        CompletedRowObserved(s.drivers, s.rows[path], d, ObservationOf(s.deliveries[id].work));
        RowPath(s, path);
        TransactionTables(t, s.drivers, row);
        PutOrFinishKeeps(s.registry, s.drivers, t, row, p);
        t := PutOrFinish(t, row);
      } else {
        SameRowReflexive(s.rows, p);
      }
      RemovalKeeps(s, s', t, id, path, p);
    }
  }

  lemma RowPath(s: StoreState, path: string)
    requires BooksOk(s) && path in s.rows
    ensures s.rows[path].path == path
  {
  }

  lemma SameRowReflexive(rows: map<string, Resource>, p: string)
    ensures SameRow(rows, rows, p)
  {
  }

  lemma AbandonKeeps(s: StoreState, id: nat, d: string, g: nat, p: string)
    requires InvAt(s, p)
    ensures InvAt(Abandon(s, id, d, g).0, p)
  {
    AbandonBooks(s, id, d, g);
    RowsAreKeyed(s);
    hide WorkAt, BooksOk, SchedulePaths, Observed, SameRow, Keyed;
    var s' := Abandon(s, id, d, g).0;
    if s' != s {
      var path := s.deliveries[id].work.resource.path;
      SameRowReflexive(s.rows, p);
      RemovalKeeps(s, s', TablesOf(s), id, path, p);
    }
  }

  // ---- Mutations ----

  lemma ApplyKeeps(s: StoreState, id: nat, request: nat, d: string, g: nat, ms: seq<Mutation>, p: string)
    requires InvAt(s, p) && AllDeleteSafely(TablesOf(s), s.registry, s.drivers, d, g, ms, p)
    ensures InvAt(Apply(s, id, request, d, g, ms).0, p)
  {
    ApplyBooks(s, id, request, d, g, ms);
    RowAt(s, p);
    hide TablesAt, WorkAt, BooksOk, RowOk, SameRow, SchedulePaths, AllDeleteSafely, ApplyMutations, Keyed;
    var s' := Apply(s, id, request, d, g, ms).0;
    if s' != s {
      MutationsKeep(TablesOf(s), s.registry, s.drivers, d, g, ms, p);
      MutationsKeepRuns(TablesOf(s), s.registry, s.drivers, d, g, ms);
      match ApplyMutations(TablesOf(s), s.registry, s.drivers, d, g, ms)
      case Rejected(_) =>
      case Committed(t, results) =>
        SettleKeeps(s, t, PathsOf(results), p);
        TablesAndWorkFrame(Settle(s, t, PathsOf(results)), s', p);
    }
  }

  lemma RowAt(s: StoreState, p: string)
    requires InvAt(s, p)
    ensures RowOk(s.registry, s.drivers, s.rows, p) && Keyed(s.rows)
  {
  }

  // ---- The end of a Run ----

  lemma FinishRunKeeps(s: StoreState, id: nat, d: string, g: nat, ms: seq<Mutation>, succeeded: bool, p: string)
    requires InvAt(s, p) && AllDeleteSafely(TablesOf(s), s.registry, s.drivers, d, g, ms, p)
    ensures InvAt(FinishRun(s, id, d, g, ms, succeeded).0, p)
  {
    FinishRunBooks(s, id, d, g, ms, succeeded);
    RowAt(s, p);
    hide TablesAt, WorkAt, BooksOk, RowOk, SameRow, SameHands, SchedulePaths, AllDeleteSafely, ApplyMutations, Remember, Keyed;
    var s' := FinishRun(s, id, d, g, ms, succeeded).0;
    if s' != s {
      MutationsKeep(TablesOf(s), s.registry, s.drivers, d, g, ms, p);
      MutationsKeepRuns(TablesOf(s), s.registry, s.drivers, d, g, ms);
      var outcome := ApplyMutations(TablesOf(s), s.registry, s.drivers, d, g, ms);
      var paths, t := PathsOf(outcome.results), Tables(outcome.tables.rows, s'.runs);
      RemovalSameHands(s, id, p);
      SettledTables(s, t, s.deliveries - {id}, paths, p);
      TablesAndWorkFrame(Settle(s.(deliveries := s.deliveries - {id}), t, paths), s', p);
    }
  }

  // ---- Steps that only touch Runs or the runtime state of a Driver ----

  lemma EnqueueRunKeeps(s: StoreState, run: string, target: string, d: string, p: string)
    requires InvAt(s, p)
    ensures InvAt(EnqueueRun(s, run, target, d).0, p)
  {
    EnqueueRunBooks(s, run, target, d);
    hide TablesAt, WorkAt, BooksOk;
    TablesAndWorkFrame(s, EnqueueRun(s, run, target, d).0, p);
  }

  lemma StatusIsNotObserved(drivers: map<string, Driver>, d: string, status: DriverState)
    requires d in drivers
    ensures var drivers' := drivers[d := drivers[d].(status := status)];
            && (DriversOk(drivers) ==> DriversOk(drivers'))
            && (forall owners :: OwnersOk(owners, drivers) ==> OwnersOk(owners, drivers'))
            && (forall resource :: Expected(drivers', resource) == Expected(drivers, resource))
  {
    var drivers' := drivers[d := drivers[d].(status := status)];
    assert forall e, manifest :: Owns(drivers, e, manifest) <==> Owns(drivers', e, manifest);
    forall resource ensures Expected(drivers', resource) == Expected(drivers, resource) {
    }
  }

  /** What is expected of a Driver does not depend on whether its process is alive. */
  lemma SetStatusKeeps(s: StoreState, d: string, status: DriverState, p: string)
    requires InvAt(s, p) && d in s.drivers
    ensures InvAt(SetStatus(s, d, status), p)
  {
    SetStatusBooks(s, d, status);
    hide WorkAt, BooksOk, DriversOk, OwnersOk;
    var s' := SetStatus(s, d, status);
    StatusIsNotObserved(s.drivers, d, status);
    assert OwnersOk(s.queue.owners, s'.drivers);
    WorkFrame(s, s', p);
  }

  lemma WorkFrame(s: StoreState, s': StoreState, p: string)
    requires WorkAt(s, p)
    requires s'.rows == s.rows && s'.queue == s.queue && s'.deliveries == s.deliveries
    ensures WorkAt(s', p)
  {
  }
}
