/** What every reachable state of the control loop satisfies. */
module Invariants {
  import opened Wrappers
  import opened Resources
  import opened Partitions
  import opened Queue
  import opened Control

  // ---- The tables ----

  ghost predicate RowsOk(registry: seq<string>, drivers: map<string, Driver>, rows: map<string, Resource>) {
    forall p | p in rows :: rows[p].path == p && rows[p].Manifest() in registry && Observed(drivers, rows[p])
  }

  ghost predicate TablesOk(s: StoreState) {
    DriversOk(s.drivers) && OwnersOk(s.queue.owners, s.drivers) && RowsOk(s.registry, s.drivers, s.rows)
  }

  // ---- The queue and the work ----

  /** Every live key is something still to be observed. */
  ghost predicate Synced(owners: map<string, string>, rows: map<string, Resource>, latest: map<Pair, Key>) {
    forall pair: Pair | pair in latest ::
      && pair.1 in rows && Outstanding(owners, rows[pair.1], pair.0) && latest[pair] == KeyFor(rows[pair.1], pair.0)
  }

  ghost predicate Carries(delivery: Delivery, d: string, p: string, expected: Observation) {
    && delivery.driver == d && delivery.work.Reconcile?
    && delivery.work.resource.path == p && ObservationOf(delivery.work) == expected
  }

  ghost predicate InHand(deliveries: map<nat, Delivery>, d: string, p: string, expected: Observation) {
    exists id :: id in deliveries && Carries(deliveries[id], d, p, expected)
  }

  /** The work for one Driver on one Resource is queued, or in the hands of the Driver
      in exactly the version expected now. */
  ghost predicate NotLost(latest: map<Pair, Key>, deliveries: map<nat, Delivery>, resource: Resource, d: string)
    requires d in resource.desired.observed
  {
    (d, resource.path) in latest || InHand(deliveries, d, resource.path, resource.desired.observed[d])
  }

  /** No work is lost. */
  ghost predicate NoneLost(owners: map<string, string>, rows: map<string, Resource>, latest: map<Pair, Key>,
                           deliveries: map<nat, Delivery>) {
    forall p, d | p in rows && Outstanding(owners, rows[p], d) :: NotLost(latest, deliveries, rows[p], d)
  }

  ghost predicate WorkOk(s: StoreState) {
    && WellFormed(s.queue)
    && Synced(s.queue.owners, s.rows, s.queue.latest)
    && NoneLost(s.queue.owners, s.rows, s.queue.latest, s.deliveries)
  }

  // ---- Deliveries ----

  /** The Run is recorded as being executed by this Driver in this generation. */
  predicate Executes(run: Run, delivery: Delivery) {
    run.driver == delivery.driver && run.generation == Some(delivery.generation)
  }

  /** Generation fencing: a live delivery carries its Driver's current generation; the
      Run it executes, if it is still that Run, is running. */
  ghost predicate DeliveryOk(s: StoreState, id: nat) {
    && id in s.deliveries && id < s.nextId
    && var delivery := s.deliveries[id];
    (&& delivery.driver in s.drivers
     && delivery.generation == s.drivers[delivery.driver].generation
     && (delivery.work.Execute? && delivery.work.run in s.runs && Executes(s.runs[delivery.work.run], delivery) ==>
           s.runs[delivery.work.run].state == RunRunning))
  }

  ghost predicate SameWork(a: Delivery, b: Delivery) {
    && a.driver == b.driver
    && ((a.work.Execute? && b.work.Execute?)
        || (a.work.Reconcile? && b.work.Reconcile? && a.work.resource.path == b.work.resource.path))
  }

  /** One reconciliation for a Driver and Resource at a time, and one Run for a Driver. */
  ghost predicate OneEach(deliveries: map<nat, Delivery>) {
    forall id, other | id in deliveries && other in deliveries && SameWork(deliveries[id], deliveries[other]) :: id == other
  }

  ghost predicate Windowed(deliveries: map<nat, Delivery>) {
    forall d :: |DeliveriesOf(deliveries, d)| <= MAX_IN_FLIGHT
  }

  ghost predicate DeliveriesOk(s: StoreState) {
    && (forall id | id in s.deliveries :: DeliveryOk(s, id))
    && OneEach(s.deliveries) && Windowed(s.deliveries)
  }

  // ---- Caches and history ----

  ghost predicate CachesOk(s: StoreState) {
    && (forall id :: id in s.completed <==> id in s.completedOrder)
    && (forall i, j | 0 <= i < j < |s.completedOrder| :: s.completedOrder[i] != s.completedOrder[j])
    && |s.completedOrder| <= COMPLETED_CACHE_SIZE
    && (forall id | id in s.completed :: id < s.nextId && id !in s.deliveries)
    && (forall pair: (nat, nat) | pair in s.results :: pair.0 in s.deliveries && s.deliveries[pair.0].work.Reconcile?)
  }

  /** A batch that took effect is remembered by its result as long as its delivery
      lives on in the same generation. */
  ghost predicate CommitOk(s: StoreState, id: nat, request: nat, generation: nat) {
    && id < s.nextId
    && (id in s.deliveries ==>
          && generation <= s.deliveries[id].generation
          && (generation < s.deliveries[id].generation || (id, request) in s.results))
  }

  ghost predicate HistoryOk(s: StoreState) {
    forall id, request, generation | (id, request, generation) in s.commits :: CommitOk(s, id, request, generation)
  }

  ghost predicate Keyed(rows: map<string, Resource>) {
    forall p | p in rows :: rows[p].path == p
  }

  /** What does not depend on observations: every step of the store keeps it. */
  ghost predicate BooksOk(s: StoreState) {
    Keyed(s.rows) && DeliveriesOk(s) && CachesOk(s) && HistoryOk(s)
  }

  ghost predicate Inv(s: StoreState) {
    TablesOk(s) && WorkOk(s) && BooksOk(s)
  }

  // ---- One path at a time ----

  /** The row under this path, if there is one, states what its Drivers have to observe. */
  ghost predicate RowOk(registry: seq<string>, drivers: map<string, Driver>, rows: map<string, Resource>, p: string) {
    p in rows ==> rows[p].Manifest() in registry && Observed(drivers, rows[p])
  }

  ghost predicate TablesAt(s: StoreState, p: string) {
    DriversOk(s.drivers) && OwnersOk(s.queue.owners, s.drivers) && RowOk(s.registry, s.drivers, s.rows, p)
  }

  /** The pairs of one path are as they should be. */
  ghost predicate PathSettled(owners: map<string, string>, rows: map<string, Resource>, latest: map<Pair, Key>,
                              deliveries: map<nat, Delivery>, p: string) {
    && (forall d | (d, p) in latest ::
          p in rows && Outstanding(owners, rows[p], d) && latest[(d, p)] == KeyFor(rows[p], d))
    && (p in rows ==> forall d | Outstanding(owners, rows[p], d) :: NotLost(latest, deliveries, rows[p], d))
  }

  ghost predicate WorkAt(s: StoreState, p: string) {
    WellFormed(s.queue) && PathSettled(s.queue.owners, s.rows, s.queue.latest, s.deliveries, p)
  }

  /** What holds of one path whatever has become of the others. */
  ghost predicate InvAt(s: StoreState, p: string) {
    TablesAt(s, p) && WorkAt(s, p) && BooksOk(s)
  }

  lemma InvIsEveryPath(s: StoreState)
    ensures Inv(s) <==> forall p :: InvAt(s, p)
  {
    hide Observed, PathSettled, WellFormed, Synced, NoneLost, DriversOk, OwnersOk, DeliveriesOk, CachesOk, HistoryOk;
    AllPathsSettled(s.queue.owners, s.rows, s.queue.latest, s.deliveries);
    if forall p :: InvAt(s, p) {
      assert InvAt(s, "");
      forall p ensures PathSettled(s.queue.owners, s.rows, s.queue.latest, s.deliveries, p) {
        assert InvAt(s, p);
      }
      forall p | p in s.rows ensures s.rows[p].Manifest() in s.registry && Observed(s.drivers, s.rows[p]) {
        assert InvAt(s, p);
      }
    }
  }

  // ---- Settling: after new rows and owners, scheduling what changed restores the work ----

  /** Nothing about this path changed that matters to the work. */
  ghost predicate SamePath(rows: map<string, Resource>, rows': map<string, Resource>,
                           owners: map<string, string>, owners': map<string, string>, p: string) {
    && (p in rows <==> p in rows')
    && (p in rows ==>
          && rows[p] == rows'[p]
          && forall d :: Outstanding(owners, rows[p], d) <==> Outstanding(owners', rows[p], d))
  }

  /** The deliveries that were in hand for this path still are. */
  ghost predicate SameHands(rows: map<string, Resource>, deliveries: map<nat, Delivery>,
                            deliveries': map<nat, Delivery>, p: string) {
    p in rows ==>
      forall d | d in rows[p].desired.observed && InHand(deliveries, d, p, rows[p].desired.observed[d]) ::
        InHand(deliveries', d, p, rows[p].desired.observed[d])
  }

  lemma AllPathsSettled(owners: map<string, string>, rows: map<string, Resource>, latest: map<Pair, Key>,
                        deliveries: map<nat, Delivery>)
    ensures (forall p :: PathSettled(owners, rows, latest, deliveries, p))
       <==> Synced(owners, rows, latest) && NoneLost(owners, rows, latest, deliveries)
  {
    hide IsPending, NotLost, KeyFor;
    if forall p :: PathSettled(owners, rows, latest, deliveries, p) {
      forall pair: Pair | pair in latest
        ensures pair.1 in rows && Outstanding(owners, rows[pair.1], pair.0) && latest[pair] == KeyFor(rows[pair.1], pair.0)
      {
        assert pair == (pair.0, pair.1);
        assert PathSettled(owners, rows, latest, deliveries, pair.1);
      }
      forall p, d | p in rows && Outstanding(owners, rows[p], d) ensures NotLost(latest, deliveries, rows[p], d) {
        assert PathSettled(owners, rows, latest, deliveries, p);
      }
    }
  }

  /** Scheduling a path settles it, and leaves the pairs of every other path alone. */
  lemma SchedulePathSettles(rows: map<string, Resource>, q: QueueState, path: string, deliveries: map<nat, Delivery>)
    requires WellFormed(q)
    requires forall p | p in rows :: rows[p].path == p
    ensures var after := SchedulePath(rows, q, path);
            && WellFormed(after) && after.owners == q.owners
            && PathSettled(q.owners, rows, after.latest, deliveries, path)
            && (forall p | p != path :: PathSettled(q.owners, rows, q.latest, deliveries, p)
                                        ==> PathSettled(q.owners, rows, after.latest, deliveries, p))
  {
    hide Outstanding, WellFormed, Scheduled, Removed, InHand;
    var after := SchedulePath(rows, q, path);
    if path in rows {
      ScheduledExactly(q, rows[path]);
      ScheduledKeepsOwners(q, rows[path]);
    } else {
      RemovedExactly(q, path);
      RemovedOwners(q, path);
    }
    forall p | p != path && PathSettled(q.owners, rows, q.latest, deliveries, p)
      ensures PathSettled(q.owners, rows, after.latest, deliveries, p)
    {
      assert forall d :: (d, p) in after.latest <==> (d, p) in q.latest;
      assert forall d | (d, p) in q.latest :: after.latest[(d, p)] == q.latest[(d, p)];
    }
  }

  lemma RemovedOwners(q: QueueState, path: string)
    ensures Removed(q, path).owners == q.owners
  {
  }

  lemma {:induction false} SchedulingOwners(rows: map<string, Resource>, q: QueueState, paths: seq<string>)
    ensures SchedulePaths(rows, q, paths).owners == q.owners
  {
    hide Scheduled, Removed;
    if paths != [] {
      var last := |paths| - 1;
      SchedulingOwners(rows, q, paths[..last]);
      var before := SchedulePaths(rows, q, paths[..last]);
      if paths[last] in rows {
        ScheduledKeepsOwners(before, rows[paths[last]]);
      } else {
        RemovedOwners(before, paths[last]);
      }
    }
  }

  lemma {:induction false} SchedulePathsSettles(rows: map<string, Resource>, q: QueueState, paths: seq<string>,
                                                deliveries: map<nat, Delivery>)
    requires WellFormed(q)
    requires forall p | p in rows :: rows[p].path == p
    ensures var after := SchedulePaths(rows, q, paths);
            && WellFormed(after) && after.owners == q.owners
            && (forall p | p in paths || PathSettled(q.owners, rows, q.latest, deliveries, p) ::
                  PathSettled(q.owners, rows, after.latest, deliveries, p))
  {
    hide PathSettled, WellFormed, SchedulePath;
    if paths != [] {
      var last := |paths| - 1;
      SchedulePathsSettles(rows, q, paths[..last], deliveries);
      SchedulePathSettles(rows, SchedulePaths(rows, q, paths[..last]), paths[last], deliveries);
      assert forall p | p in paths :: p in paths[..last] || p == paths[last];
    }
  }

  /** A path about which nothing changed stays settled. */
  lemma UnchangedStaysSettled(rows: map<string, Resource>, rows': map<string, Resource>,
                              owners: map<string, string>, owners': map<string, string>, latest: map<Pair, Key>,
                              deliveries: map<nat, Delivery>, deliveries': map<nat, Delivery>, p: string)
    requires p in rows ==> rows[p].path == p
    requires PathSettled(owners, rows, latest, deliveries, p)
    requires SamePath(rows, rows', owners, owners', p) && SameHands(rows, deliveries, deliveries', p)
    ensures PathSettled(owners', rows', latest, deliveries', p)
  {
  }

  /** The central lemma: whatever a call did to rows, owners and deliveries, the work on a
      path is in order again if the path is scheduled, or the call did nothing to it. */
  lemma Settles(s: StoreState, rows': map<string, Resource>, owners': map<string, string>,
                deliveries': map<nat, Delivery>, paths: seq<string>, p: string)
    requires WorkAt(s, p) && Keyed(s.rows) && Keyed(rows')
    requires p !in paths ==>
               SamePath(s.rows, rows', s.queue.owners, owners', p) && SameHands(s.rows, s.deliveries, deliveries', p)
    ensures var q := SchedulePaths(rows', s.queue.(owners := owners'), paths);
            WellFormed(q) && q.owners == owners' && PathSettled(owners', rows', q.latest, deliveries', p)
  {
    hide PathSettled, SamePath, SameHands, SchedulePaths;
    var q0 := s.queue.(owners := owners');
    assert WellFormed(q0);
    hide WellFormed;
    if p !in paths {
      UnchangedStaysSettled(s.rows, rows', s.queue.owners, owners', s.queue.latest, s.deliveries, deliveries', p);
    }
    SchedulePathsSettles(rows', q0, paths, deliveries');
  }
}
