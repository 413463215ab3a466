/** What holds over every run of the control loop. */
module Safety {
  import opened Wrappers
  import opened Resources
  import opened Partitions
  import opened Queue
  import opened Control
  import opened Invariants
  import opened Bookkeeping
  import opened Steps
  import opened Replacements
  import opened Claims
  import opened Recovery

  // ---- Every step keeps the invariant ----

  lemma HearKeeps(s: StoreState, d: string, g: nat, message: Message, p: string)
    requires InvAt(s, p) && Legal(s, Says(d, g, message), p)
    ensures InvAt(Hear(s, d, g, message).0, p)
  {
    hide InvAt, SetStatus, Claim, ResetLeases, RenewLeases, Acknowledge, Apply, FinishRun, Complete, Abandon, AllDeleteSafely;
    match message
    case Ready => if d in s.drivers { SetStatusKeeps(s, d, Running, p); }
    case HasFailed => if d in s.drivers { SetStatusKeeps(s, d, Failed, p); }
    case HasStopped => if d in s.drivers { SetStatusKeeps(s, d, Stopped, p); }
    case Claims(limit, now, renewed, candidate) => ClaimKeeps(s, d, g, limit, now, renewed, candidate, p);
    case ResetsLeases(now) => ResetLeasesKeeps(s, d, g, now, p);
    case RenewsLeases(ids, now) => RenewLeasesKeeps(s, d, g, ids, now, p);
    case Acks(id, now) => AcknowledgeKeeps(s, id, d, g, now, p);
    case Mutates(id, request, ms) => ApplyKeeps(s, id, request, d, g, ms, p);
    case FinishesRun(id, ms, succeeded) => FinishRunKeeps(s, id, d, g, ms, succeeded, p);
    case Completes(id) => CompleteKeeps(s, id, d, g, p);
    case Abandons(id) => AbandonKeeps(s, id, d, g, p);
  }

  lemma DiskStaysOk(s: StoreState, p: string)
    requires InvAt(s, p)
    ensures DriversOk(s.drivers) && Keyed(s.rows) && (p in s.rows ==> s.rows[p].Manifest() in s.registry)
    ensures forall id, request, g | (id, request, g) in s.commits :: id < s.nextId
  {
    CommitsBound(s);
  }

  /** A step keeps the invariant of a path, whatever it does to other paths. */
  lemma StepKeeps(s: StoreState, e: Event, p: string)
    requires InvAt(s, p) && Legal(s, e, p)
    ensures InvAt(Step(s, e).0, p)
  {
    hide InvAt, Create, Write, Delete, UpdateDriver, StartDriver, StopDriver, EnqueueRun, Reopened, Hear, SafeDelete, LegalReplacement,
      AllDeleteSafely;
    match e
    case Creates(planned) => CreateKeeps(s, planned, p);
    case Writes(path, expectedRevision, state, spec) => WriteKeeps(s, path, expectedRevision, state, spec, p);
    case Deletes(path, expectedRevision) => DeleteKeeps(s, path, expectedRevision, p);
    case UpdatesDriver(d, expectedRevision, control, spec, owners, order) =>
      UpdateKeeps(s, d, expectedRevision, control, spec, owners, order, p);
    case Starts(d, now, owners, order) => StartKeeps(s, d, now, owners, order, p);
    case Stops(d, owners, order) => StopKeeps(s, d, owners, order, p);
    case EnqueuesRun(run, target, d) => EnqueueRunKeeps(s, run, target, d, p);
    case Reopens(listing, paths) =>
      if Listings(s, listing, paths) {
        DiskStaysOk(s, p);
        ReopenRestoresRow(s, listing, paths, p);
      }
    case Says(d, g, message) => HearKeeps(s, d, g, message, p);
  }

  // ---- Runs ----

  ghost function After(s: StoreState, es: seq<Event>): StoreState {
    if es == [] then s else Step(After(s, es[..|es| - 1]), es[|es| - 1]).0
  }

  ghost predicate AllLegal(s: StoreState, es: seq<Event>, p: string) {
    es != [] ==> AllLegal(s, es[..|es| - 1], p) && Legal(After(s, es[..|es| - 1]), es[|es| - 1], p)
  }

  lemma {:induction false} RunKeeps(s: StoreState, es: seq<Event>, p: string)
    requires InvAt(s, p) && AllLegal(s, es, p)
    ensures InvAt(After(s, es), p)
  {
    hide InvAt, Step, Legal;
    if es != [] {
      RunKeeps(s, es[..|es| - 1], p);
      StepKeeps(After(s, es[..|es| - 1]), es[|es| - 1], p);
    }
  }

  ghost predicate AllAdmissible(s: StoreState, es: seq<Event>) {
    es != [] ==> AllAdmissible(s, es[..|es| - 1]) && Admissible(After(s, es[..|es| - 1]), es[|es| - 1])
  }

  /** The books hold over every run of the store, whatever is deleted in it. */
  lemma {:induction false} BooksOverRuns(s: StoreState, es: seq<Event>)
    requires BooksOk(s) && AllAdmissible(s, es)
    ensures BooksOk(After(s, es))
  {
    hide BooksOk, Step, Admissible;
    if es != [] {
      BooksOverRuns(s, es[..|es| - 1]);
      StepBooks(After(s, es[..|es| - 1]), es[|es| - 1]);
    }
  }

  /** What a running Driver that selects the row still owes it: to observe it in its own
      revision and that of the row; and if it manages the row, to see to it that the status
      document agrees with what is desired. */
  ghost predicate Owes(drivers: map<string, Driver>, row: Resource, d: string) {
    && d in drivers && DriverMatches(drivers[d], row)
    && (|| d !in row.status.observed
        || row.status.observed[d] != Observation(drivers[d].revision, row.desired.metadata.revision)
        || (&& Manages(drivers[d], row.desired.metadata.manifest)
            && (row.status.metadata != row.desired.metadata || row.status.spec != row.desired.spec)))
  }

  /** The queue's notion of work, in terms of the tables. */
  lemma WorkInDocuments(s: StoreState, p: string, d: string)
    requires InvAt(s, p) && p in s.rows
    ensures var row := s.rows[p];
            Outstanding(s.queue.owners, row, d) <==> Owes(s.drivers, row, d)
    ensures d in s.rows[p].desired.observed ==>
              d in s.drivers && s.rows[p].desired.observed[d] == Observation(s.drivers[d].revision, s.rows[p].desired.metadata.revision)
  {
    hide WorkAt, BooksOk, Watches, DriversOk;
    ExpectedIsMatching(s.drivers, s.rows[p]);
    OutstandingExactly(s.queue.owners, s.rows[p], d);
  }

  /** No work is lost. Open a store on any tables and let anything happen, in any order:
      writes, claims, completions, failures, restarts. As long as this Resource is not deleted
      unsafely, whatever is done to others: whatever a Driver owes it is queued, under exactly
      the current revisions, or a live delivery of the Driver's current generation carries it. */
  lemma NoWorkIsLost(disk: StoreState, listing: seq<Driver>, paths: seq<string>, es: seq<Event>, p: string, d: string)
    requires DiskOk(disk) && Listings(disk, listing, paths)
    requires AllLegal(Reopened(disk, listing, paths), es, p)
    requires var s := After(Reopened(disk, listing, paths), es); p in s.rows && Owes(s.drivers, s.rows[p], d)
    ensures var s := After(Reopened(disk, listing, paths), es);
            var current := Observation(s.drivers[d].revision, s.rows[p].desired.metadata.revision);
            || Has(s.queue.latest, (d, p), Key(d, p, current))
            || exists id :: id in s.deliveries && Carries(s.deliveries[id], d, p, current)
                            && s.deliveries[id].generation == s.drivers[d].generation
  {
    hide Reopened, After, AllLegal, Outstanding, DiskOk, OwnersOk, DriversOk, WellFormed, CachesOk, HistoryOk, Windowed, OneEach,
      Inv, Observed, Owes;
    var s := After(Reopened(disk, listing, paths), es);
    ReopenRestores(disk, listing, paths);
    InvIsEveryPath(Reopened(disk, listing, paths));
    RunKeeps(Reopened(disk, listing, paths), es, p);
    WorkInDocuments(s, p, d);
    OutstandingObserves(s.queue.owners, s.rows[p], d);
    assert NotLost(s.queue.latest, s.deliveries, s.rows[p], d);
    if (d, p) !in s.queue.latest {
      var id :| id in s.deliveries && Carries(s.deliveries[id], d, p, s.rows[p].desired.observed[d]);
      assert DeliveryOk(s, id);
    }
  }

  /** And nothing else is queued. */
  lemma NoIdleWork(disk: StoreState, listing: seq<Driver>, paths: seq<string>, es: seq<Event>, p: string, d: string)
    requires DiskOk(disk) && Listings(disk, listing, paths)
    requires AllLegal(Reopened(disk, listing, paths), es, p)
    requires (d, p) in After(Reopened(disk, listing, paths), es).queue.latest
    ensures var s := After(Reopened(disk, listing, paths), es);
            p in s.rows && Owes(s.drivers, s.rows[p], d)
  {
    hide Reopened, After, AllLegal, Outstanding, DiskOk, TablesAt, WellFormed, BooksOk, Inv, Owes;
    ReopenRestores(disk, listing, paths);
    InvIsEveryPath(Reopened(disk, listing, paths));
    RunKeeps(Reopened(disk, listing, paths), es, p);
    WorkInDocuments(After(Reopened(disk, listing, paths), es), p, d);
  }

  // ---- At rest ----

  /** What everybody wants: every running Driver that selects the Resource has observed it as
      it is, nobody else is recorded, and if a running Driver manages it, its status is as
      desired. */
  ghost predicate AsDesired(drivers: map<string, Driver>, row: Resource) {
    && (forall d :: d in row.status.observed <==> d in drivers && DriverMatches(drivers[d], row))
    && (forall d | d in row.status.observed && d in drivers ::
          row.status.observed[d] == Observation(drivers[d].revision, row.desired.metadata.revision))
    && ((exists d :: d in drivers && drivers[d].state == "running" && Manages(drivers[d], row.desired.metadata.manifest)) ==>
          row.status.metadata == row.desired.metadata && row.status.spec == row.desired.spec)
  }

  lemma QuietIsAsDesired(s: StoreState, p: string)
    requires InvAt(s, p) && p in s.rows
    ensures AsDesired(s.drivers, s.rows[p]) <==> forall d :: !Outstanding(s.queue.owners, s.rows[p], d)
  {
    hide Outstanding, DriverMatches, Manages, WorkAt, BooksOk, DriversOk, OwnersOk;
    var row := s.rows[p];
    assert Observed(s.drivers, row);
    ExpectedIsMatching(s.drivers, row);
    forall d { WorkInDocuments(s, p, d); }
    forall d | d in s.drivers
      ensures s.drivers[d].state == "running" && Manages(s.drivers[d], row.desired.metadata.manifest) ==> DriverMatches(s.drivers[d], row)
      ensures DriverMatches(s.drivers[d], row) ==> s.drivers[d].state == "running"
    {
      ManagerMatches(s.drivers, row, d);
    }
    hide Observed;
    if AsDesired(s.drivers, row) {
      assert forall d :: !Owes(s.drivers, row, d);
    } else if d :| Owes(s.drivers, row, d) {
      assert Outstanding(s.queue.owners, row, d);
    }
  }

  lemma ManagerMatches(drivers: map<string, Driver>, row: Resource, d: string)
    requires d in drivers
    ensures drivers[d].state == "running" && Manages(drivers[d], row.desired.metadata.manifest) ==> DriverMatches(drivers[d], row)
    ensures DriverMatches(drivers[d], row) ==> drivers[d].state == "running"
  {
  }

  /** At rest, over every run from an opened store: when nothing is queued for a Resource and
      nothing is in hand, it is as desired; and when it is as desired nothing is queued. */
  lemma AtRestIsAsDesired(disk: StoreState, listing: seq<Driver>, paths: seq<string>, es: seq<Event>, p: string)
    requires DiskOk(disk) && Listings(disk, listing, paths)
    requires AllLegal(Reopened(disk, listing, paths), es, p) && p in After(Reopened(disk, listing, paths), es).rows
    ensures var s := After(Reopened(disk, listing, paths), es);
            && ((forall d :: (d, p) !in s.queue.latest)
                && (forall id | id in s.deliveries && s.deliveries[id].work.Reconcile? :: s.deliveries[id].work.resource.path != p)
                ==> AsDesired(s.drivers, s.rows[p]))
            && (AsDesired(s.drivers, s.rows[p]) ==> forall d :: (d, p) !in s.queue.latest)
  {
    hide Reopened, After, AllLegal, Outstanding, DiskOk, TablesAt, WellFormed, Inv, AsDesired, DeliveriesOk, CachesOk, HistoryOk;
    var s := After(Reopened(disk, listing, paths), es);
    ReopenRestores(disk, listing, paths);
    InvIsEveryPath(Reopened(disk, listing, paths));
    RunKeeps(Reopened(disk, listing, paths), es, p);
    QuietIsAsDesired(s, p);
    RowPath(s, p);
    forall d | Outstanding(s.queue.owners, s.rows[p], d) ensures d in s.rows[p].desired.observed {
      OutstandingObserves(s.queue.owners, s.rows[p], d);
    }
    assert PathSettled(s.queue.owners, s.rows, s.queue.latest, s.deliveries, p);
    assert forall d | Outstanding(s.queue.owners, s.rows[p], d) :: NotLost(s.queue.latest, s.deliveries, s.rows[p], d);
  }

  // ---- Generation fencing ----

  lemma NothingHeld(s: StoreState, d: string, g: nat)
    requires DeliveriesOk(s) && !(d in s.drivers && s.drivers[d].generation == g)
    ensures forall id :: !Holds(s, id, d, g)
  {
  }

  lemma {:induction false} StaleRenewal(s: StoreState, d: string, g: nat, ids: seq<nat>, now: int)
    requires forall id :: !Holds(s, id, d, g)
    ensures RenewLeases(s, d, g, ids, now).0 == s
  {
    if ids != [] {
      StaleRenewal(s, d, g, ids[..|ids| - 1], now);
    }
  }

  /** A message of any other generation than the current one changes nothing at all. */
  lemma StaleMessagesDoNothing(s: StoreState, d: string, g: nat, message: Message)
    requires BooksOk(s)
    requires !(d in s.drivers && s.drivers[d].generation == g)
    ensures Hear(s, d, g, message).0 == s
  {
    hide CachesOk, HistoryOk, DeliveriesOk, ApplyMutations, Settle, Forget, CompletedRow, PutOrFinish, Fill, Renewed, ClaimRun;
    NothingHeld(s, d, g);
    match message
    case RenewsLeases(ids, now) => StaleRenewal(s, d, g, ids, now);
    case _ =>
  }

  lemma DriversUnchanged(s: StoreState, d: string, g: nat, message: Message, e: string)
    requires e in s.drivers
    ensures var after := Hear(s, d, g, message).0;
            e in after.drivers && after.drivers[e].generation == s.drivers[e].generation
  {
    hide ApplyMutations, Remember, SchedulePaths, CompletedRow, PutOrFinish;
    match message
    case Claims(limit, now, renewed, candidate) =>
      ClaimDrivers(s, d, g, limit, now, renewed, candidate);
    case RenewsLeases(ids, now) => RenewDrivers(s, d, g, ids, now);
    case _ =>
  }

  lemma {:induction false} RenewDrivers(s: StoreState, d: string, g: nat, ids: seq<nat>, now: int)
    ensures RenewLeases(s, d, g, ids, now).0.drivers == s.drivers
  {
    if ids != [] {
      RenewDrivers(s, d, g, ids[..|ids| - 1], now);
    }
  }

  lemma ClaimDrivers(s: StoreState, d: string, g: nat, limit: nat, now: int, renewed: set<nat>, run: Option<string>)
    ensures var s' := Claim(s, d, g, limit, now, renewed, run).0;
            s'.drivers == s.drivers && s'.rows == s.rows && s'.commits == s.commits && s'.results == s.results && s'.registry == s.registry
  {
    if limit > 0 && Current(s.drivers, d, g) {
      var s1 := s.(deliveries := Renewed(s.deliveries, renewed, now));
      var s2 := WithRun(s1, d, g, limit, now, run);
      FillFrame(s2, d, g, limit, now);
    }
  }

  lemma {:induction false} FillFrame(s: StoreState, d: string, g: nat, limit: nat, now: int)
    ensures var s' := Fill(s, d, g, limit, now);
            && s'.drivers == s.drivers && s'.rows == s.rows && s'.commits == s.commits && s'.runs == s.runs
            && s'.results == s.results && s'.registry == s.registry
    decreases |s.queue.latest|
  {
    hide Popped, IsPending;
    if |LiveIds(s.deliveries, d, g)| < limit {
      var excluded := ActiveResources(s.deliveries, d, g);
      var (q, item) := Popped(s.queue, d, excluded);
      var s' := s.(queue := q);
      if item.Some? {
        PopShrinks(s.queue, d, excluded);
        if item.value.resource !in s.rows || !IsPending(q.owners, s.rows[item.value.resource], d, item.value.observation) {
          FillFrame(s', d, g, limit, now);
        } else {
          FillFrame(Deliver(s', d, g, Reconcile(item.value.observation.driverRevision, s.rows[item.value.resource]), now), d, g, limit, now);
        }
      }
    }
  }

  /** Generations only grow, and a Driver's document never disappears. */
  lemma GenerationsGrow(s: StoreState, e: Event, d: string)
    requires d in s.drivers
    ensures var after := Step(s, e).0; d in after.drivers && s.drivers[d].generation <= after.drivers[d].generation
  {
    hide Hear, Deleted, Reobserve, Repartitioned, SchedulePaths, Restamped, ScheduledAll;
    match e
    case Says(d', g, message) => DriversUnchanged(s, d', g, message, d);
    case _ =>
  }

  lemma {:induction false} GenerationsGrowOverRuns(s: StoreState, es: seq<Event>, d: string)
    requires d in s.drivers
    ensures d in After(s, es).drivers && s.drivers[d].generation <= After(s, es).drivers[d].generation
  {
    hide Step;
    if es != [] {
      GenerationsGrowOverRuns(s, es[..|es| - 1], d);
      GenerationsGrow(After(s, es[..|es| - 1]), es[|es| - 1], d);
    }
  }

  /** Once a Driver has been started again, no message of an earlier generation changes
      anything, whatever happened in between. */
  lemma RestartFencesOff(s: StoreState, d: string, now: int, owners: map<string, string>, order: seq<string>,
                         es: seq<Event>, g: nat, message: Message)
    requires BooksOk(s) && StartDriver(s, d, now, owners, order).1 == Done
    requires g <= s.drivers[d].generation
    requires AllAdmissible(StartDriver(s, d, now, owners, order).0, es)
    ensures var later := After(StartDriver(s, d, now, owners, order).0, es);
            Hear(later, d, g, message).0 == later
  {
    hide BooksOk, After, AllAdmissible, Hear, Repartitioned, Restamped, SchedulePaths;
    var started := StartDriver(s, d, now, owners, order).0;
    StartBooks(s, d, now, owners, order);
    BooksOverRuns(started, es);
    GenerationsGrowOverRuns(started, es, d);
    StaleMessagesDoNothing(After(started, es), d, g, message);
  }

  /** Over every run: a Driver never has more than sixteen live deliveries, nor two for one
      Resource, nor two Runs; and each carries the Driver's current generation. */
  lemma DeliveryWindow(s: StoreState, es: seq<Event>, a: nat, b: nat)
    requires BooksOk(s) && AllAdmissible(s, es)
    requires a in After(s, es).deliveries && b in After(s, es).deliveries && a != b
    ensures var s' := After(s, es);
            var x, y := s'.deliveries[a], s'.deliveries[b];
            && |DeliveriesOf(s'.deliveries, x.driver)| <= MAX_IN_FLIGHT
            && x.driver in s'.drivers && x.generation == s'.drivers[x.driver].generation
            && (x.driver == y.driver ==>
                  && !(x.work.Execute? && y.work.Execute?)
                  && (x.work.Reconcile? && y.work.Reconcile? ==> x.work.resource.path != y.work.resource.path))
  {
    hide After, AllAdmissible, CachesOk, HistoryOk;
    BooksOverRuns(s, es);
    var s' := After(s, es);
    assert DeliveryOk(s', a);
    assert !SameWork(s'.deliveries[a], s'.deliveries[b]);
  }
}
