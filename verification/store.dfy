/** The store as it runs: fields that its calls update in place, and the queue it owns.
    Every call does exactly what the step of the same name does (`Control`). */
module Stores {
  import opened Wrappers
  import opened Paths
  import opened Resources
  import opened Partitions
  import opened Queue
  import opened Control
  import opened Invariants
  import opened Bookkeeping
  import opened Steps
  import opened Replacements
  import opened Claims
  import opened Recovery

  class Store {
    const registry: seq<string>
    const queue: ReconcileQueue
    var rows: map<string, Resource>
    var runs: map<string, Run>
    var drivers: map<string, Driver>
    var deliveries: map<nat, Delivery>
    var results: Results
    var completed: set<nat>
    var completedOrder: seq<nat>
    var nextId: nat
    ghost var commits: set<(nat, nat, nat)>

    ghost function State(): StoreState
      reads this, queue
    {
      StoreState(registry, rows, runs, drivers, queue.State(), deliveries, results, completed, completedOrder, nextId, commits)
    }

    /** What the database guarantees of the tables, and that delivery ids are new. */
    ghost predicate Valid()
      reads this
    {
      DriversOk(drivers) && Keyed(rows) && forall id | id in deliveries :: id < nextId
    }

    /** Open what is on disk: resynchronise every row and rebuild the queue. */
    constructor (registry: seq<string>, rows: map<string, Resource>, runs: map<string, Run>,
                 drivers: map<string, Driver>,
                 nextId: nat, ghost commits: set<(nat, nat, nat)>, listing: seq<Driver>, paths: seq<string>)
      requires DriversOk(drivers) && Keyed(rows)
      requires Lists(drivers, listing) && forall p :: p in paths <==> p in rows
      ensures Valid() && fresh(queue)
      ensures State() == Reopened(StoreState(registry, rows, runs, drivers, EMPTY, map[], map[], {}, [], nextId, commits), listing, paths)
    {
      var queue := new ReconcileQueue();
      this.registry, this.queue, this.runs, this.drivers, this.nextId, this.commits := registry, queue, runs, drivers, nextId, commits;
      deliveries, results, completed, completedOrder := map[], map[], {}, [];
      var observed := map p | p in rows :: Reobserve(drivers, rows[p]);
      this.rows := observed;
      new;
      queue.Rebuild(listing, seq(|paths|, k requires 0 <= k < |paths| => observed[paths[k]]));
    }

    // ---- Scheduling ----

    /** `schedule_reconcile_path`. */
    method SchedulePath(path: string)
      modifies queue
      ensures queue.State() == Control.SchedulePath(rows, old(queue.State()), path)
    {
      if path in rows {
        var notified := queue.Schedule(rows[path]);
      } else {
        queue.RemoveResource(path);
      }
    }

    method SchedulePaths(paths: seq<string>)
      modifies queue
      ensures queue.State() == Control.SchedulePaths(rows, old(queue.State()), paths)
    {
      for k := 0 to |paths|
        invariant queue.State() == Control.SchedulePaths(rows, old(queue.State()), paths[..k])
      {
        assert paths[..k + 1][..k] == paths[..k];
        SchedulePath(paths[k]);
      }
      assert paths[..|paths|] == paths;
    }

    // ---- Writes of users ----

    method CreateResource(planned: Planned) returns (reply: Reply)
      requires Valid()
      modifies this`rows, queue
      ensures Valid() && (State(), reply) == Create(old(State()), planned)
    {
      if planned.manifest !in registry {
        return NotFound;
      }
      if planned.path in rows {
        return Conflict;
      }
      ReobservedRow(drivers, Inserted(planned));
      rows := rows[planned.path := Reobserve(drivers, Inserted(planned))];
      SchedulePaths([planned.path]);
      reply := Done;
    }

    method UpdateResource(path: string, expectedRevision: nat, state: Option<string>, spec: Json) returns (reply: Reply)
      requires Valid()
      modifies this`rows, queue
      ensures Valid() && (State(), reply) == Write(old(State()), path, expectedRevision, state, spec)
    {
      if path !in rows {
        return NotFound;
      }
      if rows[path].Revision() != expectedRevision || rows[path].desired.metadata.isProtected {
        return Conflict;
      }
      ReobservedRow(drivers, Revised(rows[path], state, spec));
      rows := rows[path := Reobserve(drivers, Revised(rows[path], state, spec))];
      SchedulePaths([path]);
      reply := Done;
    }

    method DeleteResource(path: string, expectedRevision: nat) returns (reply: Reply)
      requires Valid()
      modifies this`rows, this`runs, queue
      ensures Valid() && (State(), reply) == Delete(old(State()), path, expectedRevision)
    {
      if path !in rows {
        return NotFound;
      }
      if rows[path].Revision() != expectedRevision || rows[path].desired.metadata.isProtected {
        return Conflict;
      }
      var t := Deleted(Tables(rows, runs), drivers, rows[path]);
      rows, runs := t.rows, t.runs;
      SchedulePaths([path]);
      reply := Done;
    }

    // ---- Mutations of Drivers ----

    /** One transaction over the tables; nothing is written before it commits. */
    method Transact(d: string, generation: nat, ms: seq<Mutation>) returns (outcome: Applied)
      ensures outcome == ApplyMutations(Tables(rows, runs), registry, drivers, d, generation, ms)
    {
      var t, answers := Tables(rows, runs), [];
      for k := 0 to |ms|
        invariant ApplyMutations(Tables(rows, runs), registry, drivers, d, generation, ms[..k]) == Committed(t, answers)
      {
        assert ms[..k + 1][..k] == ms[..k];
        match ApplyMutation(t, registry, drivers, d, generation, ms[k])
        case Rejected(reply) =>
          RejectedForGood(Tables(rows, runs), registry, drivers, d, generation, ms, k + 1);
          return Rejected(reply);
        case Committed(t', more) =>
          t, answers := t', answers + more;
      }
      assert ms[..|ms|] == ms;
      outcome := Committed(t, answers);
    }

    method ApplyReconciliationMutations(id: nat, request: nat, d: string, generation: nat,
                                        ms: seq<Mutation>) returns (reply: Reply)
      requires Valid()
      modifies this`rows, this`runs, this`results, this`commits, queue
      ensures Valid() && (State(), reply) == Apply(old(State()), id, request, d, generation, ms)
    {
      if (id, request) in results {
        return Replied(results[(id, request)]);
      }
      if id !in deliveries {
        return NotFound;
      }
      var delivery := deliveries[id];
      if !delivery.work.Reconcile? || delivery.driver != d || delivery.generation != generation || delivery.status != Acked {
        return Conflict;
      }
      var outcome := Transact(d, generation, ms);
      match outcome
      case Rejected(refusal) =>
        reply := refusal;
      case Committed(t, answers) =>
        MutationsKeepRuns(Tables(rows, runs), registry, drivers, d, generation, ms);
        rows, runs := t.rows, t.runs;
        SchedulePaths(PathsOf(answers));
        results, commits := results[(id, request) := answers], commits + {(id, request, generation)};
        reply := Replied(answers);
    }

    /** `remove_completed_delivery`. */
    method RemoveCompletedDelivery(id: nat)
      modifies this`deliveries, this`results, this`completed, this`completedOrder
      ensures State() == Forget(old(State()), id)
    {
      deliveries, results := deliveries - {id}, ResultsWithout(results, {id});
      if id !in completed {
        completed, completedOrder := completed + {id}, completedOrder + [id];
      }
      ghost var remembered := Evict(completed, completedOrder);
      while |completedOrder| > COMPLETED_CACHE_SIZE
        invariant Evict(completed, completedOrder) == remembered
        invariant deliveries == old(deliveries) - {id} && results == ResultsWithout(old(results), {id})
      {
        completed, completedOrder := completed - {completedOrder[0]}, completedOrder[1..];
      }
      assert Remember(old(completed), old(completedOrder), id) == (completed, completedOrder);
    }

    method CompleteReconciliation(id: nat, d: string, generation: nat) returns (reply: Reply)
      requires Valid()
      modifies this`rows, this`runs, this`deliveries, this`results, this`completed, this`completedOrder, queue
      ensures Valid() && (State(), reply) == Complete(old(State()), id, d, generation)
    {
      if id in completed {
        return AlreadyCompleted;
      }
      if id !in deliveries || deliveries[id].driver != d || deliveries[id].generation != generation
         || deliveries[id].status != Acked || !deliveries[id].work.Reconcile? {
        return Conflict;
      }
      var work := deliveries[id].work;
      var path := work.resource.path;
      if path in rows {
        CompletedRowObserved(drivers, rows[path], d, ObservationOf(work));
        var t := PutOrFinish(Tables(rows, runs), CompletedRow(drivers, rows[path], d, ObservationOf(work)));
        rows, runs := t.rows, t.runs;
      }
      RemoveCompletedDelivery(id);
      SchedulePaths([path]);
      reply := Done;
    }

    method AbandonReconciliation(id: nat, d: string, generation: nat) returns (reply: Reply)
      requires Valid()
      modifies this`deliveries, this`results, queue
      ensures Valid() && (State(), reply) == Abandon(old(State()), id, d, generation)
    {
      if id !in deliveries || deliveries[id].driver != d || deliveries[id].generation != generation || !deliveries[id].work.Reconcile? {
        return Conflict;
      }
      var path := deliveries[id].work.resource.path;
      deliveries, results := deliveries - {id}, ResultsWithout(results, {id});
      SchedulePaths([path]);
      reply := Done;
    }

    method FinishRunDelivery(id: nat, d: string, generation: nat, ms: seq<Mutation>,
                             succeeded: bool) returns (reply: Reply)
      requires Valid()
      modifies this`rows, this`runs, this`deliveries, this`results, this`completed, this`completedOrder, this`commits, queue
      ensures Valid() && (State(), reply) == FinishRun(old(State()), id, d, generation, ms, succeeded)
    {
      if id !in deliveries {
        return NotFound;
      }
      var delivery := deliveries[id];
      if !delivery.work.Execute? || delivery.driver != d || delivery.generation != generation || delivery.status != Acked {
        return Conflict;
      }
      var run := delivery.work.run;
      var outcome := Transact(d, generation, ms);
      match outcome
      case Rejected(refusal) =>
        reply := refusal;
      case Committed(t, answers) =>
        if run !in t.runs {
          return NotFound;
        }
        if t.runs[run].generation != Some(generation) || t.runs[run].driver != d {
          return Conflict;
        }
        MutationsKeepRuns(Tables(rows, runs), registry, drivers, d, generation, ms);
        rows, runs := t.rows, t.runs[run := t.runs[run].(state := if succeeded then RunSucceeded else RunFailed)];
        SchedulePaths(PathsOf(answers));
        RemoveCompletedDelivery(id);
        commits := commits + {(id, id, generation)};
        reply := Replied(answers);
    }

    // ---- Leases ----

    method AcknowledgeDelivery(id: nat, d: string, generation: nat, now: int) returns (reply: Reply)
      requires Valid()
      modifies this`deliveries
      ensures Valid() && (State(), reply) == Acknowledge(old(State()), id, d, generation, now)
    {
      if id !in deliveries || deliveries[id].driver != d || deliveries[id].generation != generation {
        return Conflict;
      }
      deliveries := deliveries[id := deliveries[id].(status := Acked, leaseExpires := now + LEASE_SECONDS)];
      reply := Done;
    }

    method ResetDeliveryLeases(d: string, generation: nat, now: int) returns (reply: Reply)
      requires Valid()
      modifies this`deliveries
      ensures Valid() && (State(), reply) == ResetLeases(old(State()), d, generation, now)
    {
      if d !in drivers {
        return NotFound;
      }
      if drivers[d].generation != generation {
        return Conflict;
      }
      ghost var before := deliveries;
      var todo := deliveries.Keys;
      while todo != {}
        invariant todo <= deliveries.Keys == before.Keys
        invariant forall id | id in before ::
                    deliveries[id] == if id !in todo && before[id].driver == d && before[id].generation == generation
                    then before[id].(leaseExpires := now) else before[id]
      {
        var id :| id in todo;
        todo := todo - {id};
        if deliveries[id].driver == d && deliveries[id].generation == generation {
          deliveries := deliveries[id := deliveries[id].(leaseExpires := now)];
        }
      }
      assert deliveries == ResetLeases(old(State()), d, generation, now).0.deliveries;
      reply := Done;
    }

    method RenewDeliveryLeases(d: string, generation: nat, ids: seq<nat>, now: int) returns (reply: Reply)
      requires Valid()
      modifies this`deliveries
      ensures Valid() && (State(), reply) == RenewLeases(old(State()), d, generation, ids, now)
    {
      ghost var s := State();
      for k := 0 to |ids|
        invariant (State(), Done) == RenewLeases(s, d, generation, ids[..k], now)
        invariant forall id | id in deliveries :: id < nextId
      {
        assert ids[..k + 1][..k] == ids[..k];
        var id := ids[k];
        if id !in deliveries || deliveries[id].driver != d || deliveries[id].generation != generation {
          RenewalStops(s, d, generation, ids, now, k + 1);
          return Conflict;
        }
        deliveries := deliveries[id := deliveries[id].(leaseExpires := now + LEASE_SECONDS)];
      }
      assert ids[..|ids|] == ids;
      reply := Done;
    }

    // ---- Runs ----

    method Enqueue(run: string, target: string, d: string) returns (reply: Reply)
      requires Valid()
      modifies this`runs
      ensures Valid() && (State(), reply) == EnqueueRun(old(State()), run, target, d)
    {
      if target !in rows || !Owns(drivers, d, rows[target].Manifest()) {
        return NotFound;
      }
      if run in runs {
        return Conflict;
      }
      runs := runs[run := Run(d, target, None, RunQueued)];
      reply := Done;
    }

    // ---- Drivers ----

    /** The documents of all Drivers, in some order. */
    method ListDrivers() returns (listing: seq<Driver>)
      requires DriversOk(drivers)
      ensures Lists(drivers, listing)
    {
      listing := [];
      var todo := drivers.Keys;
      while todo != {}
        invariant todo <= drivers.Keys
        invariant forall k | 0 <= k < |listing| :: listing[k].path in drivers && drivers[listing[k].path] == listing[k]
        invariant forall d | d in drivers.Keys - todo :: drivers[d] in listing
      {
        var d :| d in todo;
        todo := todo - {d};
        listing := listing + [drivers[d]];
        assert listing[|listing| - 1] == drivers[d];
      }
    }

    /** Write the new document of a Driver, and bring the affected partitions up to date. */
    method CommitDriver(driver: Driver) returns (changed: set<string>)
      requires Valid() && driver.path in drivers
      modifies this`rows, this`drivers
      ensures drivers == old(drivers)[driver.path := driver] && Keyed(rows)
      ensures rows == Repartitioned(old(State()), driver) && changed == Changed(old(rows), rows)
    {
      ghost var s := State();
      var updated, touched := ReconcileDriverChange(rows, registry, driver.path, Some(drivers[driver.path]), Some(driver));
      hide Affected, UpdateRow;
      assert updated == Repartitioned(s, driver);
      forall p | p in updated ensures updated[p].path == p {
        OnlyObservationsChange(driver.path, Some(driver), s.rows[p]);
      }
      rows, drivers, changed := updated, drivers[driver.path := driver], touched;
    }

    /** Refresh the owners, then schedule the rows that changed. */
    method Reschedule(changed: set<string>) returns (ghost order: seq<string>)
      requires DriversOk(drivers)
      modifies queue
      ensures forall p :: p in order <==> p in changed
      ensures OwnersOk(OwnersIn(queue.State()), drivers)
      ensures queue.State() == Control.SchedulePaths(rows, old(queue.State()).(owners := OwnersIn(queue.State())), order)
    {
      var listing := ListDrivers();
      ListedOwners(drivers, listing);
      queue.RefreshDrivers(listing);
      ghost var refreshed := queue.State();
      order := [];
      var todo := changed;
      while todo != {}
        invariant todo <= changed && forall p :: p in order <==> p in changed - todo
        invariant queue.State() == Control.SchedulePaths(rows, refreshed, order)
      {
        var path :| path in todo;
        todo := todo - {path};
        SchedulePath(path);
        assert (order + [path])[..|order|] == order;
        order := order + [path];
      }
      SchedulingOwners(rows, refreshed, order);
    }

    method StartDriver(d: string,
                       now: int) returns (reply: Reply, ghost owners: map<string, string>, ghost order: seq<string>)
      requires Valid()
      modifies this`rows, this`drivers, this`deliveries, this`results, queue
      ensures (State(), reply) == Control.StartDriver(old(State()), d, now, owners, order)
      ensures Valid() && (reply == Done ==> LegalReplacement(old(State()), StartedDriver(old(drivers)[d]), owners, order))
    {
      owners, order := map[], [];
      if d !in drivers {
        return NotFound, owners, order;
      }
      if drivers[d].status != Stopped && drivers[d].status != Failed {
        return Conflict, owners, order;
      }
      ghost var s := State();
      var driver := StartedDriver(drivers[d]);
      SameSpecDriversOk(drivers, driver);
      var changed := CommitDriver(driver);
      RestampDeliveries(d, driver.generation, now);
      order := Reschedule(changed);
      owners := queue.owners;
      reply := Done;
      RepartitionedFrame(s, s.(deliveries := deliveries, results := results), driver);
    }

    /** Deliveries of a restarted Driver: kept for the new generation, or dropped. */
    method RestampDeliveries(d: string, generation: nat, now: int)
      modifies this`deliveries, this`results
      ensures deliveries == Restamped(rows, old(deliveries), d, generation, now)
      ensures results == ResultsWithout(old(results), DeliveriesOf(old(deliveries), d))
    {
      hide Keeps;
      ghost var before := deliveries;
      var todo := set id | id in deliveries && deliveries[id].driver == d;
      ghost var all := todo;
      while todo != {}
        invariant todo <= all && results == ResultsWithout(old(results), all - todo)
        invariant forall id | id in before && (id !in all || id in todo) :: id in deliveries && deliveries[id] == before[id]
        invariant forall id | id in all - todo ::
                    if Keeps(rows, before[id])
                    then id in deliveries && deliveries[id] == before[id].(generation := generation, status := Pending, leaseExpires := now)
                    else id !in deliveries
        invariant forall id | id in deliveries :: id in before
      {
        var id :| id in todo;
        todo := todo - {id};
        if Keeps(rows, deliveries[id]) {
          deliveries := deliveries[id := deliveries[id].(generation := generation, status := Pending, leaseExpires := now)];
        } else {
          deliveries := deliveries - {id};
        }
        results := ResultsWithout(results, {id});
        assert all - todo == (all - (todo + {id})) + {id};
      }
      assert deliveries == Restamped(rows, before, d, generation, now);
      assert all - todo == DeliveriesOf(before, d);
    }

    method StopDriver(d: string) returns (reply: Reply, ghost owners: map<string, string>, ghost order: seq<string>)
      requires Valid()
      modifies this`rows, this`drivers, queue
      ensures (State(), reply) == Control.StopDriver(old(State()), d, owners, order)
      ensures Valid() && (reply == Done ==> LegalReplacement(old(State()), StoppedDriver(old(drivers)[d]), owners, order))
    {
      owners, order := map[], [];
      if d !in drivers {
        return NotFound, owners, order;
      }
      var driver := StoppedDriver(drivers[d]);
      SameSpecDriversOk(drivers, driver);
      var changed := CommitDriver(driver);
      order := Reschedule(changed);
      owners := queue.owners;
      reply := Done;
    }

    /** `project_driver_manifests`. */
    method ProjectManifests(d: string, spec: DriverSpec) returns (ok: bool)
      ensures ok <==> Projects(registry, drivers, d, spec)
    {
      hide ValidPath, ValidWatch, Manages;
      if !ValidPath(spec.serviceAccount) || spec.manages == [] {
        return false;
      }
      for k := 0 to |spec.watches|
        invariant forall i | 0 <= i < k :: ValidWatch(spec.watches[i])
      {
        if !ValidWatch(spec.watches[k]) {
          return false;
        }
      }
      var todo := drivers.Keys - {d};
      while todo != {}
        invariant todo <= drivers.Keys - {d}
        invariant forall e | e in drivers.Keys - {d} - todo ::
                    drivers[e].spec.Some? && drivers[e].spec.value.serviceAccount != spec.serviceAccount
      {
        var e :| e in todo;
        todo := todo - {e};
        if drivers[e].spec.None? || drivers[e].spec.value.serviceAccount == spec.serviceAccount {
          return false;
        }
      }
      var unique := {};
      for k := 0 to |spec.manages|
        invariant unique == set manifest | manifest in spec.manages[..k]
        invariant forall i, j | 0 <= i < j < k :: spec.manages[i] != spec.manages[j]
        invariant forall i | 0 <= i < k :: ValidPath(spec.manages[i]) && spec.manages[i] in registry
        invariant forall e, i | e in drivers && e != d && 0 <= i < k :: !Manages(drivers[e], spec.manages[i])
      {
        var manifest := spec.manages[k];
        if !ValidPath(manifest) || manifest in unique || manifest !in registry {
          return false;
        }
        unique := unique + {manifest};
        assert spec.manages[..k + 1] == spec.manages[..k] + [manifest];
        var managed := ManagedElsewhere(d, manifest);
        if managed {
          return false;
        }
      }
      ok := true;
    }

    method ManagedElsewhere(d: string, manifest: string) returns (managed: bool)
      ensures managed <==> exists e | e in drivers && e != d :: Manages(drivers[e], manifest)
    {
      var todo := drivers.Keys - {d};
      while todo != {}
        invariant todo <= drivers.Keys - {d}
        invariant forall e | e in drivers.Keys - {d} - todo :: !Manages(drivers[e], manifest)
      {
        var e :| e in todo;
        todo := todo - {e};
        if Manages(drivers[e], manifest) {
          return true;
        }
      }
      managed := false;
    }

    method UpdateDriver(d: string, expectedRevision: nat, state: string, spec: DriverSpec)
      returns (reply: Reply, ghost owners: map<string, string>, ghost order: seq<string>)
      requires Valid()
      modifies this`rows, this`drivers, queue
      ensures (State(), reply) == Control.UpdateDriver(old(State()), d, expectedRevision, state, spec, owners, order)
      ensures Valid() && (reply == Done ==> LegalReplacement(old(State()), UpdatedDriver(old(drivers)[d], state, spec), owners, order))
    {
      owners, order := map[], [];
      if d !in drivers {
        return NotFound, owners, order;
      }
      if drivers[d].revision != expectedRevision || drivers[d].isProtected {
        return Conflict, owners, order;
      }
      var ok := ProjectManifests(d, spec);
      if !ok {
        return Refused, owners, order;
      }
      var driver := UpdatedDriver(drivers[d], state, spec);
      ProjectedDriversOk(registry, drivers, d, state, spec);
      var changed := CommitDriver(driver);
      order := Reschedule(changed);
      owners := queue.owners;
      reply := Done;
    }

    method MarkDriverReady(d: string, generation: nat) returns (reply: Reply)
      requires Valid()
      modifies this`drivers
      ensures Valid() && (State(), reply) == MarkReady(old(State()), d, generation)
    {
      if d !in drivers {
        return NotFound;
      }
      if drivers[d].generation != generation || drivers[d].status != Starting {
        return Conflict;
      }
      drivers := drivers[d := drivers[d].(status := Running)];
      reply := Done;
    }

    method MarkDriverFailed(d: string, generation: nat) returns (reply: Reply)
      requires Valid()
      modifies this`drivers
      ensures Valid() && (State(), reply) == MarkFailed(old(State()), d, generation)
    {
      if d !in drivers {
        return NotFound;
      }
      if drivers[d].generation != generation {
        return Conflict;
      }
      drivers := drivers[d := drivers[d].(status := Failed)];
      reply := Done;
    }

    method MarkDriverStopped(d: string, generation: nat) returns (reply: Reply)
      requires Valid()
      modifies this`drivers
      ensures Valid() && (State(), reply) == MarkStopped(old(State()), d, generation)
    {
      if d !in drivers {
        return NotFound;
      }
      if drivers[d].generation != generation {
        return Conflict;
      }
      drivers := drivers[d := drivers[d].(status := Stopped)];
      reply := Done;
    }

    // ---- Claims ----

    /** Hand expired deliveries out again, as many as fit. */
    method RenewExpired(d: string, generation: nat, limit: nat, now: int) returns (renewed: set<nat>)
      modifies this`deliveries
      ensures deliveries == Renewed(old(deliveries), renewed, now)
      ensures renewed <= Expired(old(deliveries), d, generation, now)
      ensures |renewed| == Least(|Expired(old(deliveries), d, generation, now)|, limit)
    {
      ghost var before := deliveries;
      var expired := Expired(deliveries, d, generation, now);
      ExpiredAreLive(deliveries, d, generation, now);
      RenewedNone(deliveries, now);
      hide Expired, Renewed;
      var todo := expired;
      renewed := {};
      while todo != {} && |renewed| < limit
        invariant todo <= expired && renewed == expired - todo && |renewed| <= limit
        invariant |renewed| + |todo| == |expired|
        invariant deliveries == Renewed(before, renewed, now)
      {
        var id :| id in todo;
        RenewedOne(before, renewed, id, now);
        todo, renewed := todo - {id}, renewed + {id};
        deliveries := deliveries[id := deliveries[id].(leaseExpires := now + LEASE_SECONDS)];
      }
    }

    /** Some Run of the Driver that waits or was being executed. */
    method FindRun(d: string) returns (run: Option<string>)
      ensures run.Some? ==> Runnable(State(), d, run.value)
      ensures run.None? ==> forall r :: !Runnable(State(), d, r)
    {
      var todo := runs.Keys;
      while todo != {}
        invariant todo <= runs.Keys
        invariant forall r | r in runs.Keys - todo :: !Runnable(State(), d, r)
      {
        var r :| r in todo;
        todo := todo - {r};
        if runs[r].driver == d && (runs[r].state == RunQueued || runs[r].state == RunRunning) {
          return Some(r);
        }
      }
      run := None;
    }

    method AddDelivery(delivery: Delivery)
      requires forall id | id in deliveries :: id < nextId
      modifies this`deliveries, this`nextId
      ensures forall id | id in deliveries :: id < nextId
      ensures State() == Deliver(old(State()), delivery.driver, delivery.generation, delivery.work, delivery.leaseExpires - LEASE_SECONDS)
                         .(deliveries := deliveries)
      ensures deliveries == old(deliveries)[old(nextId) := delivery]
      ensures |LiveIds(deliveries, delivery.driver, delivery.generation)|
           == |LiveIds(old(deliveries), delivery.driver, delivery.generation)| + 1
      ensures ActiveResources(deliveries, delivery.driver, delivery.generation)
           == ActiveResources(old(deliveries), delivery.driver, delivery.generation)
              + (if delivery.work.Reconcile? then {delivery.work.resource.path} else {})
    {
      OneMoreLive(deliveries, nextId, delivery);
      OneMoreActive(deliveries, nextId, delivery);
      deliveries, nextId := deliveries[nextId := delivery], nextId + 1;
    }

    /** Claim a Run, if there is room and none is active. */
    method ClaimRunDelivery(d: string, generation: nat, limit: nat, now: int) returns (ghost run: Option<string>)
      requires forall id | id in deliveries :: id < nextId
      modifies this`deliveries, this`runs, this`nextId
      ensures forall id | id in deliveries :: id < nextId
      ensures var s := old(State());
              var room := |LiveIds(s.deliveries, d, generation)| < limit && !HasActiveRun(s.deliveries, d, generation);
              && (run.Some? ==> room && Runnable(s, d, run.value))
              && (run.None? && room ==> forall r :: !Runnable(s, d, r))
              && State() == if run.Some? then ClaimRun(s, d, generation, run.value, now) else s
    {
      run := None;
      if |LiveIds(deliveries, d, generation)| < limit && !HasActiveRun(deliveries, d, generation) {
        var found := FindRun(d);
        run := found;
        assert State() == old(State());
        if found.Some? {
          runs := runs[found.value := runs[found.value].(generation := Some(generation), state := RunRunning)];
          AddDelivery(Delivery(d, generation, Execute(found.value), Pending, now + LEASE_SECONDS));
        }
      }
    }

    /** Fill the remaining capacity from the queue, one Resource at a time. */
    method FillFromQueue(d: string, generation: nat, limit: nat, now: int)
      requires forall id | id in deliveries :: id < nextId
      modifies this`deliveries, this`nextId, queue
      ensures forall id | id in deliveries :: id < nextId
      ensures State() == Fill(old(State()), d, generation, limit, now)
    {
      hide LiveIds, ActiveResources, Popped, IsPending;
      ghost var s := State();
      var active := ActiveResources(deliveries, d, generation);
      var count := |LiveIds(deliveries, d, generation)|;
      while count < limit
        invariant Fill(State(), d, generation, limit, now) == Fill(s, d, generation, limit, now)
        invariant active == ActiveResources(deliveries, d, generation)
        invariant count == |LiveIds(deliveries, d, generation)|
        invariant forall id | id in deliveries :: id < nextId
        decreases |queue.latest|
      {
        ghost var before := State();
        var item := queue.PopExcluding(d, active);
        if item.None? {
          return;
        }
        PopShrinks(before.queue, d, active);
        var path, expected := item.value.resource, item.value.observation;
        if path !in rows || !IsPending(queue.owners, rows[path], d, expected) {
          continue;
        }
        AddDelivery(Delivery(d, generation, Reconcile(expected.driverRevision, rows[path]), Pending, now + LEASE_SECONDS));
        active, count := active + {rows[path].path}, count + 1;
      }
    }

    method ClaimDeliveries(d: string, generation: nat, limit: nat, now: int)
      returns (reply: Reply, ghost renewed: set<nat>, ghost run: Option<string>)
      requires Valid()
      modifies this`deliveries, this`runs, this`nextId, queue
      ensures Valid() && (State(), reply) == Claim(old(State()), d, generation, limit, now, renewed, run)
      ensures reply.Claimed? && 0 < limit <= MAX_IN_FLIGHT ==> LegalClaim(old(State()), d, generation, limit, now, renewed, run)
    {
      hide LiveIds, HasActiveRun, Fill, Expired, Renewed, ClaimRun;
      renewed, run := {}, None;
      if limit == 0 {
        return Claimed({}), renewed, run;
      }
      if d !in drivers {
        return NotFound, renewed, run;
      }
      if drivers[d].generation != generation || drivers[d].status != Running {
        return Conflict, renewed, run;
      }
      var output := RenewExpired(d, generation, limit, now);
      renewed := output;
      RenewedIsSame(old(deliveries), renewed, now, d, generation);
      RenewedKeys(old(deliveries), renewed, now);
      ghost var s1 := State();
      assert forall r :: Runnable(s1, d, r) <==> Runnable(old(State()), d, r);
      var first := nextId;
      run := ClaimRunDelivery(d, generation, limit, now);
      FillFromQueue(d, generation, limit, now);
      reply := Claimed(output + (set id | id in deliveries && first <= id < nextId));
    }
  }

  ghost function OwnersIn(q: QueueState): map<string, string> {
    q.owners
  }

  // ---- Single rounds of loops ----

  lemma ExpiredAreLive(deliveries: map<nat, Delivery>, d: string, g: nat, now: int)
    ensures Expired(deliveries, d, g, now) <= deliveries.Keys
  {
  }

  lemma RenewedNone(deliveries: map<nat, Delivery>, now: int)
    ensures Renewed(deliveries, {}, now) == deliveries
  {
  }

  lemma RenewedOne(deliveries: map<nat, Delivery>, ids: set<nat>, id: nat, now: int)
    requires id in deliveries && id !in ids
    ensures id in Renewed(deliveries, ids, now)
    ensures Renewed(deliveries, ids + {id}, now)
         == Renewed(deliveries, ids, now)[id := Renewed(deliveries, ids, now)[id].(leaseExpires := now + LEASE_SECONDS)]
  {
  }

  lemma RenewedKeys(deliveries: map<nat, Delivery>, ids: set<nat>, now: int)
    ensures Renewed(deliveries, ids, now).Keys == deliveries.Keys
  {
  }

  lemma OneMoreLive(deliveries: map<nat, Delivery>, id: nat, delivery: Delivery)
    requires id !in deliveries
    ensures |LiveIds(deliveries[id := delivery], delivery.driver, delivery.generation)|
         == |LiveIds(deliveries, delivery.driver, delivery.generation)| + 1
  {
    assert LiveIds(deliveries[id := delivery], delivery.driver, delivery.generation)
        == LiveIds(deliveries, delivery.driver, delivery.generation) + {id};
  }

  lemma OneMoreActive(deliveries: map<nat, Delivery>, id: nat, delivery: Delivery)
    requires id !in deliveries
    ensures ActiveResources(deliveries[id := delivery], delivery.driver, delivery.generation)
         == ActiveResources(deliveries, delivery.driver, delivery.generation)
            + (if delivery.work.Reconcile? then {delivery.work.resource.path} else {})
  {
    var d, g := delivery.driver, delivery.generation;
    var left := ActiveResources(deliveries[id := delivery], d, g);
    var right := ActiveResources(deliveries, d, g);
    assert LiveIds(deliveries[id := delivery], d, g) == LiveIds(deliveries, d, g) + {id};
    forall path | path in right ensures path in left {
      var other :| other in LiveIds(deliveries, d, g) && deliveries[other].work.Reconcile? && deliveries[other].work.resource.path == path;
      assert other in LiveIds(deliveries[id := delivery], d, g);
    }
    if delivery.work.Reconcile? {
      assert id in LiveIds(deliveries[id := delivery], d, g);
    }
  }

  // ---- Loops that end early ----

  lemma {:induction false} RejectedForGood(t: Tables, registry: seq<string>, drivers: map<string, Driver>, d: string,
                                           g: nat, ms: seq<Mutation>, k: nat)
    requires k <= |ms| && ApplyMutations(t, registry, drivers, d, g, ms[..k]).Rejected?
    ensures ApplyMutations(t, registry, drivers, d, g, ms) == ApplyMutations(t, registry, drivers, d, g, ms[..k])
    decreases |ms|
  {
    hide ApplyMutation;
    if k == |ms| {
      assert ms[..k] == ms;
    } else {
      assert ms[..|ms| - 1][..k] == ms[..k];
      RejectedForGood(t, registry, drivers, d, g, ms[..|ms| - 1], k);
    }
  }

  lemma {:induction false} RenewalStops(s: StoreState, d: string, g: nat, ids: seq<nat>, now: int, k: nat)
    requires k <= |ids| && RenewLeases(s, d, g, ids[..k], now).1 == Conflict
    ensures RenewLeases(s, d, g, ids, now) == RenewLeases(s, d, g, ids[..k], now)
    decreases |ids|
  {
    if k == |ids| {
      assert ids[..k] == ids;
    } else {
      assert ids[..|ids| - 1][..k] == ids[..k];
      RenewalStops(s, d, g, ids[..|ids| - 1], now, k);
    }
  }

}
