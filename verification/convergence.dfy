/** When writing stops, honest Drivers finish: the measure that goes down. */
module Convergence {
  import opened Wrappers
  import opened Resources
  import opened Queue
  import opened Control
  import opened Invariants
  import opened Bookkeeping
  import opened Steps
  import opened Claims
  import opened Recovery
  import opened Safety

  /** The (Driver, Resource) pairs with something to observe. */
  ghost function OutstandingPairs(s: StoreState): set<Pair> {
    set p, d | p in s.rows && d in s.rows[p].desired.observed && Outstanding(s.queue.owners, s.rows[p], d) :: (d, p)
  }

  ghost function PairsInHand(s: StoreState): set<Pair> {
    set id | id in s.deliveries && s.deliveries[id].work.Reconcile? :: (s.deliveries[id].driver, s.deliveries[id].work.resource.path)
  }

  /** What remains to be done: pairs with something to observe, and pairs in hand, whose
      Driver has still to say that it is done. */
  ghost function Unsettled(s: StoreState): set<Pair> {
    OutstandingPairs(s) + PairsInHand(s)
  }

  /** Without outstanding pairs the queue yields nothing, to any Driver; with one, it is
      in hand or the queue has something for its Driver. */
  lemma QueueYieldsExactlyTheOutstanding(s: StoreState, d: string)
    requires Inv(s)
    ensures (forall p :: (d, p) !in OutstandingPairs(s)) ==> forall excluded :: Popped(s.queue, d, excluded).1.None?
    ensures forall p | && (d, p) in OutstandingPairs(s) && !InHand(s.deliveries, d, p, s.rows[p].desired.observed[d])
                       && p !in ActiveResources(s.deliveries, d, s.drivers[d].generation) ::
              Popped(s.queue, d, ActiveResources(s.deliveries, d, s.drivers[d].generation)).1.Some?
  {
  }

  // ---- Honest Drivers ----

  /** The delivery is about the Resource as it is now; if the owner's batch for it went
      through, the Resource is as desired. */
  ghost predicate UpToDate(s: StoreState, id: nat)
    requires id in s.deliveries && s.deliveries[id].work.Reconcile?
  {
    var delivery := s.deliveries[id];
    var d, path := delivery.driver, delivery.work.resource.path;
    && path in s.rows && d in s.rows[path].desired.observed
    && ObservationOf(delivery.work) == s.rows[path].desired.observed[d]
    && delivery.work.resource.desired.metadata == s.rows[path].desired.metadata
    && delivery.work.resource.desired.spec == s.rows[path].desired.spec
    && ((id, id) in s.results && Owns(s.drivers, d, s.rows[path].Manifest()) ==> !s.rows[path].Drifted())
  }

  /** The deliveries in hand that were overtaken: the Resource was written since, or a
      Driver was rewritten. */
  ghost function Stale(s: StoreState): set<nat> {
    set id | id in s.deliveries && s.deliveries[id].work.Reconcile?
             && s.deliveries[id].work.resource.path in s.rows && !UpToDate(s, id)
  }

  /** Each pair has still to be ended once, and each overtaken delivery beforehand. */
  ghost function Potential(s: StoreState): nat {
    |Unsettled(s)| + |Stale(s)|
  }

  ghost predicate NothingDeleted(s: StoreState) {
    forall p | p in s.rows :: s.rows[p].desired.metadata.state != STATE_DELETED
  }

  /** What an honest Driver answers: a Resource it owns is as desired. */
  function HonestBatch(drivers: map<string, Driver>, d: string, resource: Resource): seq<Mutation> {
    if Owns(drivers, d, resource.Manifest())
    then [UpdateResourceStatus(resource.path, resource.Revision(), resource.desired.metadata.state, resource.desired.spec)]
    else []
  }

  ghost predicate Served(s: StoreState, id: nat) {
    && id in s.deliveries && s.deliveries[id].work.Reconcile? && s.deliveries[id].status == Acked
    && Current(s.drivers, s.deliveries[id].driver, s.deliveries[id].generation)
  }

  /** The owner sends its batch; it may send it again. */
  ghost predicate MaySubmit(s: StoreState, id: nat) {
    Served(s, id) && HonestBatch(s.drivers, s.deliveries[id].driver, s.deliveries[id].work.resource) != []
  }

  ghost function Submit(s: StoreState, id: nat): (StoreState, Reply)
    requires MaySubmit(s, id)
  {
    var delivery := s.deliveries[id];
    Apply(s, id, id, delivery.driver, delivery.generation, HonestBatch(s.drivers, delivery.driver, delivery.work.resource))
  }

  /** A Driver says that it is done when it has nothing to send, or its batch went through. */
  ghost predicate MayComplete(s: StoreState, id: nat) {
    && Served(s, id)
    && (HonestBatch(s.drivers, s.deliveries[id].driver, s.deliveries[id].work.resource) != [] ==> (id, id) in s.results)
  }

  ghost function Finish(s: StoreState, id: nat): (StoreState, Reply)
    requires MayComplete(s, id)
  {
    Complete(s, id, s.deliveries[id].driver, s.deliveries[id].generation)
  }

  /** The connection gives a delivery up after its batch met a conflict. */
  ghost predicate MayAbandon(s: StoreState, id: nat) {
    MaySubmit(s, id) && Submit(s, id).1 == Conflict
  }

  ghost function GiveUp(s: StoreState, id: nat): (StoreState, Reply)
    requires MayAbandon(s, id)
  {
    Abandon(s, id, s.deliveries[id].driver, s.deliveries[id].generation)
  }

  // ---- One row ----

  lemma OwnerIsRunningManager(owners: map<string, string>, drivers: map<string, Driver>, manifest: string, d: string)
    requires OwnersOk(owners, drivers)
    ensures Has(owners, manifest, d) <==> Owns(drivers, d, manifest) && drivers[d].state == RUNNING
  {
  }

  lemma OneManager(drivers: map<string, Driver>, manifest: string, d: string, e: string)
    requires DriversOk(drivers)
    ensures Owns(drivers, d, manifest) && Owns(drivers, e, manifest) ==> d == e
  {
  }

  /** The owner's status write is nothing to any other Driver, and settles the drift if it
      writes what is desired. */
  lemma SubmissionOnRow(owners: map<string, string>, drivers: map<string, Driver>, resource: Resource, state: string,
                        spec: Json, d: string, e: string)
    requires Observed(drivers, resource) && OwnersOk(owners, drivers) && DriversOk(drivers) && Owns(drivers, d, resource.Manifest())
    ensures var row := SubmittedStatus(resource, state, spec);
            && row.path == resource.path && row.desired == resource.desired && Observed(drivers, row)
            && (state == resource.desired.metadata.state && spec == resource.desired.spec ==> !row.Drifted())
            && (e != d ==> !Owns(drivers, e, resource.Manifest()))
            && (e != d ==> (Outstanding(owners, row, e) <==> Outstanding(owners, resource, e)))
            && (e != d && AllObserved(row) ==> !Outstanding(owners, row, e))
  {
    hide OwnersOk, Owns;
    OwnerIsRunningManager(owners, drivers, resource.Manifest(), e);
    OneManager(drivers, resource.Manifest(), d, e);
    SubmittedObserved(drivers, resource, state, spec);
  }

  /** The completion settles the Driver's own pair, and no other. */
  lemma CompletionSettles(owners: map<string, string>, drivers: map<string, Driver>, resource: Resource, d: string,
                          e: string)
    requires Observed(drivers, resource) && d in resource.desired.observed && OwnersOk(owners, drivers)
    requires Owns(drivers, d, resource.Manifest()) ==> !resource.Drifted()
    ensures var row := CompletedRow(drivers, resource, d, resource.desired.observed[d]);
            && row.path == resource.path && row.desired == resource.desired && Observed(drivers, row) && row.Drifted() == resource.Drifted()
            && (Outstanding(owners, row, e) <==> e != d && Outstanding(owners, resource, e))
  {
    hide OwnersOk, Owns;
    var row := CompletedRow(drivers, resource, d, resource.desired.observed[d]);
    OwnerIsRunningManager(owners, drivers, resource.Manifest(), d);
    assert Expected(drivers, row) == Expected(drivers, resource) by { CompletedExpectsSame(drivers, resource, d); }
  }

  /** Any completion, also of an overtaken delivery, is nothing to other Drivers. */
  lemma CompletionOnOthers(owners: map<string, string>, drivers: map<string, Driver>, resource: Resource, d: string,
                           observation: Observation, e: string)
    requires Observed(drivers, resource) && OwnersOk(owners, drivers) && DriversOk(drivers) && e != d
    ensures var row := CompletedRow(drivers, resource, d, observation);
            && row.path == resource.path && row.desired == resource.desired
            && (Owns(drivers, e, resource.Manifest()) ==> row.Drifted() == resource.Drifted())
            && (Outstanding(owners, row, e) <==> Outstanding(owners, resource, e))
  {
    hide OwnersOk, DriversOk;
    OwnerIsRunningManager(owners, drivers, resource.Manifest(), e);
    OneManager(drivers, resource.Manifest(), d, e);
    CompletedRowObserved(drivers, resource, d, observation);
    var row := CompletedRow(drivers, resource, d, observation);
    assert Expected(drivers, row) == Expected(drivers, resource);
  }

  lemma CompletedExpectsSame(drivers: map<string, Driver>, resource: Resource, d: string)
    requires Observed(drivers, resource) && d in resource.desired.observed
    ensures var row := CompletedRow(drivers, resource, d, resource.desired.observed[d]);
            && Expected(drivers, row) == Expected(drivers, resource) == row.desired.observed
            && row.status.observed == resource.status.observed[d := resource.desired.observed[d]]
  {
  }

  // ---- The two calls ----

  /** The honest batch for what is in hand. */
  function Report(delivery: Delivery): Mutation
    requires delivery.work.Reconcile?
  {
    var resource := delivery.work.resource;
    UpdateResourceStatus(resource.path, resource.Revision(), resource.desired.metadata.state, resource.desired.spec)
  }

  /** What the row becomes if the batch goes through. */
  function Reported(s: StoreState, id: nat): Resource
    requires id in s.deliveries && s.deliveries[id].work.Reconcile? && s.deliveries[id].work.resource.path in s.rows
  {
    var resource := s.deliveries[id].work.resource;
    SubmittedStatus(s.rows[resource.path], resource.desired.metadata.state, resource.desired.spec)
  }

  lemma OneMutation(t: Tables, registry: seq<string>, drivers: map<string, Driver>, d: string, g: nat, m: Mutation)
    ensures ApplyMutations(t, registry, drivers, d, g, [m]) == ApplyMutation(t, registry, drivers, d, g, m)
  {
    hide ApplyMutation;
    assert [m][..0] == [] && [m][0] == m;
    var outcome := ApplyMutation(t, registry, drivers, d, g, m);
    if outcome.Committed? {
      assert [] + outcome.results == outcome.results;
    }
  }

  /** The table with a row written, or removed if that was all its deletion waited for. */
  function Written(rows: map<string, Resource>, path: string, row: Resource): map<string, Resource> {
    if Finished(row) then rows - {path} else rows[path := row]
  }

  /** A batch that was not answered before either goes through, for the owner of the row
      in its current revision, or changes nothing. */
  lemma SubmissionOutcome(s: StoreState, id: nat)
    requires BooksOk(s) && MaySubmit(s, id) && (id, id) !in s.results
    ensures var (s', reply) := Submit(s, id);
            var d, path := s.deliveries[id].driver, s.deliveries[id].work.resource.path;
            if path in s.rows && Owns(s.drivers, d, s.rows[path].Manifest())
               && s.rows[path].Revision() == s.deliveries[id].work.resource.Revision()
            then && reply.Replied? && s'.rows == Written(s.rows, path, Reported(s, id)) && s'.deliveries == s.deliveries
                 && s'.drivers == s.drivers && s'.queue.owners == s.queue.owners
                 && s'.results.Keys == s.results.Keys + {(id, id)}
            else s' == s && reply == (if path in s.rows then Conflict else NotFound)
  {
    hide SchedulePaths, Owns, Remember, DeliveriesOk, CachesOk, HistoryOk, ApplyMutations;
    var delivery := s.deliveries[id];
    var path := delivery.work.resource.path;
    OneMutation(TablesOf(s), s.registry, s.drivers, delivery.driver, delivery.generation, Report(delivery));
    assert HonestBatch(s.drivers, delivery.driver, delivery.work.resource) == [Report(delivery)];
    if path in s.rows {
      var after := Reported(s, id);
      SchedulingOwners(Written(s.rows, path, after), s.queue, PathsOf([after]));
    }
  }

  lemma CompletionOnRow(s: StoreState, id: nat)
    requires Served(s, id) && id !in s.completed
    requires var path := s.deliveries[id].work.resource.path;
             path in s.rows && s.rows[path].path == path
    ensures var delivery := s.deliveries[id];
            var path := delivery.work.resource.path;
            var (s', reply) := Complete(s, id, delivery.driver, delivery.generation);
            && reply == Done && s'.rows == Written(s.rows, path, CompletedRow(s.drivers, s.rows[path], delivery.driver, ObservationOf(delivery.work)))
            && s'.deliveries == s.deliveries - {id} && s'.queue.owners == s.queue.owners && s'.drivers == s.drivers
            && s'.results == ResultsWithout(s.results, {id})
  {
    hide SchedulePaths, Owns, Expected, Remember, AllObserved;
    var delivery := s.deliveries[id];
    var path := delivery.work.resource.path;
    var s' := Complete(s, id, delivery.driver, delivery.generation).0;
    CompletedRowDocuments(s.drivers, s.rows[path], delivery.driver, ObservationOf(delivery.work));
    SchedulingOwners(s'.rows, s.queue, [path]);
  }

  lemma OutstandingPair(s: StoreState, d: string, p: string)
    ensures (d, p) in OutstandingPairs(s) <==> p in s.rows && Outstanding(s.queue.owners, s.rows[p], d)
  {
  }

  lemma DriverExpected(s: StoreState, d: string, p: string)
    requires TablesOk(s) && p in s.rows && d in s.rows[p].desired.observed
    ensures d in s.drivers && s.drivers[d].state == RUNNING && Observed(s.drivers, s.rows[p])
  {
  }

  lemma HandPair(s: StoreState, pair: Pair)
    ensures pair in PairsInHand(s) <==>
            exists id :: id in s.deliveries && s.deliveries[id].work.Reconcile?
                         && (s.deliveries[id].driver, s.deliveries[id].work.resource.path) == pair
  {
  }

  /** Between its batch and its completion an owner has something in hand: no batch settles
      a pair, or overtakes a delivery. */
  lemma SubmittingSettlesNothing(s: StoreState, id: nat)
    requires Inv(s) && MaySubmit(s, id)
    ensures var s' := Submit(s, id).0;
            && (NothingDeleted(s) ==> NothingDeleted(s')) && Unsettled(s') == Unsettled(s) && Stale(s') <= Stale(s) && s'.deliveries == s.deliveries
            && (UpToDate(s, id) ==> (id, id) in s'.results && Submit(s, id).1.Replied?)
  {
    hide TablesOk, WorkOk, DeliveriesOk, CachesOk, HistoryOk, OutstandingPairs, Apply, Owns, IsPending, UpToDate;
    if (id, id) in s.results {
      RepeatedBatch(s, id);
    } else {
      SubmissionOutcome(s, id);
      if UpToDate(s, id) {
        UpToDateIsOwned(s, id);
      }
      if Submit(s, id).0 != s {
        SubmittedUnsettled(s, id);
        SubmittedStale(s, id);
      }
    }
  }

  lemma UpToDateIsOwned(s: StoreState, id: nat)
    requires MaySubmit(s, id) && UpToDate(s, id)
    ensures var path := s.deliveries[id].work.resource.path;
            && path in s.rows && Owns(s.drivers, s.deliveries[id].driver, s.rows[path].Manifest())
            && s.rows[path].Revision() == s.deliveries[id].work.resource.Revision()
  {
  }

  lemma SubmittedUnsettled(s: StoreState, id: nat)
    requires Inv(s) && MaySubmit(s, id) && (id, id) !in s.results && Submit(s, id).0 != s
    ensures Unsettled(Submit(s, id).0) == Unsettled(s) && (NothingDeleted(s) ==> NothingDeleted(Submit(s, id).0))
  {
    hide TablesOk, WorkOk, DeliveriesOk, CachesOk, HistoryOk, OutstandingPairs, Submit, Owns, IsPending;
    var d, path := s.deliveries[id].driver, s.deliveries[id].work.resource.path;
    var resource := s.deliveries[id].work.resource;
    var s' := Submit(s, id).0;
    SubmissionOutcome(s, id);
    RowObserved(s, path);
    OwnersAreOk(s);
    forall pair: Pair ensures pair in Unsettled(s') <==> pair in Unsettled(s) {
      OutstandingPair(s, pair.0, pair.1);
      OutstandingPair(s', pair.0, pair.1);
      assert pair == (pair.0, pair.1);
      if pair.1 == path {
        SubmissionOnRow(s.queue.owners, s.drivers, s.rows[path], resource.desired.metadata.state, resource.desired.spec, d, pair.0);
        assert (d, path) in PairsInHand(s) && (d, path) in PairsInHand(s');
      }
    }
  }

  /** The owner's own delivery stays up to date if it was, and no other is the owner's. */
  lemma SubmittedStale(s: StoreState, id: nat)
    requires Inv(s) && MaySubmit(s, id) && (id, id) !in s.results && Submit(s, id).0 != s
    ensures Stale(Submit(s, id).0) <= Stale(s)
  {
    hide TablesOk, WorkOk, DeliveriesOk, CachesOk, HistoryOk, OutstandingPairs, Submit, Owns, IsPending;
    var d, path := s.deliveries[id].driver, s.deliveries[id].work.resource.path;
    var resource := s.deliveries[id].work.resource;
    var s' := Submit(s, id).0;
    SubmissionOutcome(s, id);
    RowObserved(s, path);
    OwnersAreOk(s);
    forall other | other in s.deliveries && s.deliveries[other].work.Reconcile? && UpToDate(s, other)
      ensures s.deliveries[other].work.resource.path in s'.rows ==> UpToDate(s', other)
    {
      if s.deliveries[other].work.resource.path == path && path in s'.rows {
        SubmissionOnRow(s.queue.owners, s.drivers, s.rows[path], resource.desired.metadata.state, resource.desired.spec, d,
                        s.deliveries[other].driver);
        if s.deliveries[other].driver == d {
          SameDelivery(s, id, other);
        }
      }
    }
  }

  lemma SameDelivery(s: StoreState, id: nat, other: nat)
    requires BooksOk(s) && id in s.deliveries && other in s.deliveries && SameWork(s.deliveries[id], s.deliveries[other])
    ensures id == other
  {
  }

  lemma RowObserved(s: StoreState, path: string)
    requires TablesOk(s) && path in s.rows
    ensures Observed(s.drivers, s.rows[path]) && s.rows[path].path == path
  {
  }

  lemma RepeatedBatch(s: StoreState, id: nat)
    requires MaySubmit(s, id) && (id, id) in s.results
    ensures Submit(s, id).0 == s && Submit(s, id).1.Replied?
  {
  }

  lemma OwnersAreOk(s: StoreState)
    requires TablesOk(s)
    ensures OwnersOk(s.queue.owners, s.drivers) && DriversOk(s.drivers)
  {
  }

  /** Completing what is up to date takes its own pair off the list; and, unless it removes
      the row, no other. */
  lemma CompletingSettlesItsPair(s: StoreState, id: nat)
    requires Inv(s) && MayComplete(s, id) && UpToDate(s, id)
    ensures var pair := (s.deliveries[id].driver, s.deliveries[id].work.resource.path);
            var (s', reply) := Finish(s, id);
            && reply == Done && pair in Unsettled(s) && Unsettled(s') <= Unsettled(s) - {pair}
            && (pair.1 in s'.rows ==> Unsettled(s') == Unsettled(s) - {pair} && |Unsettled(s')| == |Unsettled(s)| - 1)
  {
    hide TablesOk, WorkOk, DeliveriesOk, HistoryOk, OutstandingPairs, PairsInHand, Complete, CompletedRow, Owns, IsPending;
    var d, path := s.deliveries[id].driver, s.deliveries[id].work.resource.path;
    var s' := Finish(s, id).0;
    assert UpToDate(s, id);
    DriverExpected(s, d, path);
    OwnersAreOk(s);
    RowObserved(s, path);
    CompletionOnRow(s, id);
    forall pair: Pair
      ensures pair in Unsettled(s') ==> pair in Unsettled(s) && pair != (d, path)
      ensures path in s'.rows && pair in Unsettled(s) && pair != (d, path) ==> pair in Unsettled(s')
    {
      OutstandingPair(s, pair.0, pair.1);
      OutstandingPair(s', pair.0, pair.1);
      assert pair == (pair.0, pair.1);
      if pair.1 == path {
        CompletionSettles(s.queue.owners, s.drivers, s.rows[path], d, pair.0);
      }
      HandAfterRemoval(s, s', id, pair);
    }
    HandPair(s, (d, path));
    if path in s'.rows {
      assert Unsettled(s') == Unsettled(s) - {(d, path)};
    }
  }

  /** Every completion ends its own delivery, adds no pair and overtakes no delivery; it
      settles its pair if the row is gone. */
  lemma CompletingAddsNothing(s: StoreState, id: nat)
    requires Inv(s) && MayComplete(s, id)
    ensures var (s', reply) := Finish(s, id);
            var pair := (s.deliveries[id].driver, s.deliveries[id].work.resource.path);
            && reply == Done && (NothingDeleted(s) ==> NothingDeleted(s')) && (NothingDeleted(s) ==> s'.rows.Keys == s.rows.Keys)
            && Unsettled(s') <= Unsettled(s) && Stale(s') <= Stale(s) - {id}
            && pair in Unsettled(s) && (pair.1 !in s.rows ==> Unsettled(s') == Unsettled(s) - {pair})
  {
    hide TablesOk, WorkOk, DeliveriesOk, HistoryOk, OutstandingPairs, PairsInHand, Complete, CompletedRow, Owns, IsPending, UpToDate;
    var d, path := s.deliveries[id].driver, s.deliveries[id].work.resource.path;
    var s' := Finish(s, id).0;
    OwnersAreOk(s);
    HandPair(s, (d, path));
    if path in s.rows {
      RowObserved(s, path);
      CompletionOnRow(s, id);
      CompletedRowDocuments(s.drivers, s.rows[path], d, ObservationOf(s.deliveries[id].work));
    } else {
      CompletionOfNothing(s, id);
    }
    forall pair: Pair
      ensures pair in Unsettled(s') ==> pair in Unsettled(s)
      ensures path !in s.rows ==> (pair in Unsettled(s') <==> pair in Unsettled(s) && pair != (d, path))
    {
      OutstandingPair(s, pair.0, pair.1);
      OutstandingPair(s', pair.0, pair.1);
      assert pair == (pair.0, pair.1);
      if pair.1 == path && path in s.rows && pair.0 != d {
        CompletionOnOthers(s.queue.owners, s.drivers, s.rows[path], d, ObservationOf(s.deliveries[id].work), pair.0);
      }
      HandAfterRemoval(s, s', id, pair);
    }
    CompletedStale(s, id);
  }

  lemma CompletedRowDocuments(drivers: map<string, Driver>, resource: Resource, d: string, observation: Observation)
    ensures var row := CompletedRow(drivers, resource, d, observation);
            row.path == resource.path && row.desired.metadata == resource.desired.metadata
  {
  }

  lemma CompletionOfNothing(s: StoreState, id: nat)
    requires Served(s, id) && id !in s.completed && s.deliveries[id].work.resource.path !in s.rows
    ensures var delivery := s.deliveries[id];
            var (s', reply) := Complete(s, id, delivery.driver, delivery.generation);
            && reply == Done && s'.rows == s.rows && s'.deliveries == s.deliveries - {id} && s'.queue.owners == s.queue.owners
            && s'.drivers == s.drivers && s'.results == ResultsWithout(s.results, {id})
  {
    hide SchedulePaths, Owns, Expected, Remember;
    var delivery := s.deliveries[id];
    SchedulingOwners(s.rows, s.queue, [delivery.work.resource.path]);
  }

  lemma CompletedStale(s: StoreState, id: nat)
    requires Inv(s) && MayComplete(s, id)
    ensures Stale(Finish(s, id).0) <= Stale(s) - {id}
  {
    hide TablesOk, WorkOk, DeliveriesOk, HistoryOk, OutstandingPairs, Complete, CompletedRow, Owns, IsPending;
    var d, path := s.deliveries[id].driver, s.deliveries[id].work.resource.path;
    var s' := Finish(s, id).0;
    OwnersAreOk(s);
    if path in s.rows {
      RowObserved(s, path);
      CompletionOnRow(s, id);
    } else {
      CompletionOfNothing(s, id);
    }
    forall other | other in s'.deliveries && s.deliveries[other].work.Reconcile? && UpToDate(s, other)
      ensures s.deliveries[other].work.resource.path in s'.rows ==> UpToDate(s', other)
    {
      if s.deliveries[other].work.resource.path == path && path in s'.rows {
        if s.deliveries[other].driver == d {
          SameDelivery(s, id, other);
        } else {
          CompletionOnOthers(s.queue.owners, s.drivers, s.rows[path], d, ObservationOf(s.deliveries[id].work),
                             s.deliveries[other].driver);
        }
      }
    }
  }

  /** Giving up is for overtaken deliveries only, and adds nothing either. */
  lemma AbandoningAddsNothing(s: StoreState, id: nat)
    requires Inv(s) && MayAbandon(s, id)
    ensures var (s', reply) := GiveUp(s, id);
            && reply == Done && id in Stale(s)
            && (NothingDeleted(s) ==> NothingDeleted(s')) && Unsettled(s') <= Unsettled(s) && Stale(s') <= Stale(s) - {id}
  {
    hide TablesOk, WorkOk, DeliveriesOk, CachesOk, HistoryOk, OutstandingPairs, PairsInHand, Submit, Owns, IsPending;
    SubmittingSettlesNothing(s, id);
    if (id, id) in s.results {
      RepeatedBatch(s, id);
    } else {
      SubmissionOutcome(s, id);
    }
    var s' := GiveUp(s, id).0;
    AbandonFrame(s, id);
    forall pair: Pair | pair in Unsettled(s') ensures pair in Unsettled(s) {
      OutstandingPair(s, pair.0, pair.1);
      OutstandingPair(s', pair.0, pair.1);
      assert pair == (pair.0, pair.1);
      HandAfterRemoval(s, s', id, pair);
    }
    forall other | other in s'.deliveries && s.deliveries[other].work.Reconcile? && UpToDate(s, other) ensures UpToDate(s', other) {
    }
  }

  lemma AbandonFrame(s: StoreState, id: nat)
    requires MayAbandon(s, id)
    ensures var (s', reply) := GiveUp(s, id);
            && reply == Done && s'.rows == s.rows && s'.deliveries == s.deliveries - {id} && s'.queue.owners == s.queue.owners
            && s'.drivers == s.drivers && s'.results == ResultsWithout(s.results, {id})
  {
    hide SchedulePaths, Owns, Submit;
    SchedulingOwners(s.rows, s.queue, [s.deliveries[id].work.resource.path]);
  }

  lemma HandAfterRemoval(s: StoreState, s': StoreState, id: nat, pair: Pair)
    requires DeliveriesOk(s) && id in s.deliveries && s.deliveries[id].work.Reconcile? && s'.deliveries == s.deliveries - {id}
    ensures pair in PairsInHand(s') <==>
            pair in PairsInHand(s) && pair != (s.deliveries[id].driver, s.deliveries[id].work.resource.path)
  {
    if other :| other in s.deliveries && s.deliveries[other].work.Reconcile?
                && (s.deliveries[other].driver, s.deliveries[other].work.resource.path) == pair
    {
      assert other != id ==> other in s'.deliveries && !SameWork(s.deliveries[id], s.deliveries[other]);
    }
  }

  /** Nothing in hand is stuck: once acknowledged, a delivery can be completed, or its batch
      can be submitted and it can be completed then, or it is given up; unless its row is
      gone, and its owner is told so. */
  lemma HandsCanEnd(s: StoreState, id: nat)
    requires Inv(s) && Served(s, id)
    ensures || MayComplete(s, id)
            || (MaySubmit(s, id) && MayComplete(Submit(s, id).0, id))
            || MayAbandon(s, id)
            || (MaySubmit(s, id) && s.deliveries[id].work.resource.path !in s.rows && Submit(s, id) == (s, NotFound))
  {
    hide TablesOk, WorkOk, DeliveriesOk, CachesOk, HistoryOk, Submit, Owns;
    if !MayComplete(s, id) {
      assert MaySubmit(s, id) && (id, id) !in s.results;
      SubmissionOutcome(s, id);
    }
  }

  // ---- What the session does between them ----

  /** The same rows; what is in hand stays there, and what comes into hand was outstanding. */
  ghost predicate SamePhase(s: StoreState, s': StoreState) {
    && s'.rows == s.rows && s'.queue.owners == s.queue.owners && s'.results == s.results && s'.drivers == s.drivers
    && (forall id | id in s.deliveries ::
          id in s'.deliveries && s'.deliveries[id].work == s.deliveries[id].work && s'.deliveries[id].driver == s.deliveries[id].driver)
    && (forall id | id in s'.deliveries && id !in s.deliveries && s'.deliveries[id].work.Reconcile? ::
          UpToDate(s', id) && (s'.deliveries[id].driver, s'.deliveries[id].work.resource.path) in OutstandingPairs(s))
  }

  /** The two states differ by neither pairs nor overtaken deliveries. */
  ghost predicate SamePotential(s: StoreState, s': StoreState) {
    Unsettled(s') == Unsettled(s) && Stale(s') == Stale(s) && (NothingDeleted(s) ==> NothingDeleted(s'))
  }

  lemma PhaseContinues(s: StoreState, s': StoreState)
    requires SamePhase(s, s')
    ensures SamePotential(s, s')
  {
    hide IsPending;
    assert OutstandingPairs(s') == OutstandingPairs(s);
    forall id | id in s.deliveries && s.deliveries[id].work.Reconcile? ensures UpToDate(s', id) <==> UpToDate(s, id) {
    }
    assert Stale(s') == Stale(s);
    forall pair: Pair ensures pair in Unsettled(s') <==> pair in Unsettled(s) {
      HandPair(s, pair);
      HandPair(s', pair);
    }
  }

  lemma BooksBoundOf(s: StoreState, id: nat)
    requires Inv(s) && id in s.deliveries
    ensures id < s.nextId
  {
    BooksBound(s, id);
  }

  lemma RowsAreReal(s: StoreState, p: string)
    requires Inv(s)
    ensures InvAt(s, p)
  {
    hide Inv, InvAt;
    InvIsEveryPath(s);
  }

  /** One round of filling: what is popped is pending, and the invariant holds after. */
  lemma PopAndDeliverKeeps(s: StoreState, d: string, g: nat, now: int)
    requires Inv(s) && d in s.drivers && s.drivers[d].generation == g && |LiveIds(s.deliveries, d, g)| < MAX_IN_FLIGHT
    ensures var (q, item) := Popped(s.queue, d, ActiveResources(s.deliveries, d, g));
            && q.owners == s.queue.owners
            && (item.None? ==> Inv(s.(queue := q)))
            && (item.Some? ==>
                  var path := item.value.resource;
                  && path in s.rows && IsPending(q.owners, s.rows[path], d, item.value.observation)
                  && Inv(Deliver(s.(queue := q), d, g, Reconcile(item.value.observation.driverRevision, s.rows[path]), now)))
  {
    hide Inv, InvAt, IsPending, Popped, LiveIds, ActiveResources;
    InvIsEveryPath(s);
    var excluded := ActiveResources(s.deliveries, d, g);
    var (q, item) := Popped(s.queue, d, excluded);
    PopYieldsPending(s, d, excluded, if item.Some? then item.value.resource else "");
    var s' := if item.Some? then Deliver(s.(queue := q), d, g, Reconcile(item.value.observation.driverRevision, s.rows[item.value.resource]), now)
    else s.(queue := q);
    forall p ensures InvAt(s', p) {
      PopKeeps(s, d, g, now, p);
    }
    InvIsEveryPath(s');
  }

  lemma {:induction false} FillKeepsPotential(s: StoreState, d: string, g: nat, limit: nat, now: int)
    requires Inv(s) && d in s.drivers && s.drivers[d].generation == g && limit <= MAX_IN_FLIGHT
    ensures SamePotential(s, Fill(s, d, g, limit, now))
    decreases |s.queue.latest|
  {
    hide Inv, IsPending, Popped, NothingDeleted, Stale, Unsettled, UpToDate, OutstandingPairs;
    if |LiveIds(s.deliveries, d, g)| < limit {
      var excluded := ActiveResources(s.deliveries, d, g);
      var (q, item) := Popped(s.queue, d, excluded);
      PopAndDeliverKeeps(s, d, g, now);
      if item.None? {
        PhaseContinues(s, s.(queue := q));
      } else {
        PopShrinks(s.queue, d, excluded);
        var next := Deliver(s.(queue := q), d, g, Reconcile(item.value.observation.driverRevision, s.rows[item.value.resource]), now);
        PoppedIsUpToDate(s, d, g, now);
        PhaseContinues(s, next);
        FillKeepsPotential(next, d, g, limit, now);
      }
    }
  }

  lemma PoppedIsUpToDate(s: StoreState, d: string, g: nat, now: int)
    requires Inv(s) && Popped(s.queue, d, ActiveResources(s.deliveries, d, g)).1.Some?
    ensures var (q, item) := Popped(s.queue, d, ActiveResources(s.deliveries, d, g));
            && item.value.resource in s.rows && s.rows[item.value.resource].path == item.value.resource
            && (d, item.value.resource) in OutstandingPairs(s)
            && UpToDate(Deliver(s.(queue := q), d, g, Reconcile(item.value.observation.driverRevision, s.rows[item.value.resource]), now), s.nextId)
            && s.nextId !in s.deliveries
  {
    hide Popped, IsPending, WellFormed, Synced, NoneLost, OwnersOk, DriversOk, HistoryOk;
    var path := Popped(s.queue, d, ActiveResources(s.deliveries, d, g)).1.value.resource;
    assert InvAt(s, path) by { RowsAreReal(s, path); }
    PopYieldsPending(s, d, ActiveResources(s.deliveries, d, g), path);
    if s.nextId in s.deliveries {
      BooksBound(s, s.nextId);
    }
  }

  lemma RenewedInv(s: StoreState, renewed: set<nat>, now: int)
    requires Inv(s)
    ensures Inv(s.(deliveries := Renewed(s.deliveries, renewed, now)))
  {
    hide Inv, InvAt;
    InvIsEveryPath(s);
    forall p ensures InvAt(s.(deliveries := Renewed(s.deliveries, renewed, now)), p) {
      RenewedKeeps(s, renewed, now, p);
    }
    InvIsEveryPath(s.(deliveries := Renewed(s.deliveries, renewed, now)));
  }

  lemma ClaimRunInv(s: StoreState, d: string, g: nat, run: string, now: int)
    requires Inv(s) && Runnable(s, d, run)
    requires d in s.drivers && s.drivers[d].generation == g
    requires |LiveIds(s.deliveries, d, g)| < MAX_IN_FLIGHT && !HasActiveRun(s.deliveries, d, g)
    ensures Inv(ClaimRun(s, d, g, run, now))
  {
    hide Inv, InvAt, ClaimRun, LiveIds, HasActiveRun;
    InvIsEveryPath(s);
    forall p ensures InvAt(ClaimRun(s, d, g, run, now), p) {
      ClaimRunKeeps(s, d, g, run, now, p);
    }
    InvIsEveryPath(ClaimRun(s, d, g, run, now));
  }

  lemma ClaimKeepsPotential(s: StoreState, d: string, g: nat, limit: nat, now: int, renewed: set<nat>, run: Option<string>)
    requires Inv(s) && limit <= MAX_IN_FLIGHT
    ensures SamePotential(s, Claim(s, d, g, limit, now, renewed, run).0)
  {
    hide Inv, LiveIds, HasActiveRun, Fill, NothingDeleted, Stale, Unsettled, UpToDate;
    if limit > 0 && Current(s.drivers, d, g) {
      var s1 := s.(deliveries := Renewed(s.deliveries, renewed, now));
      PhaseContinues(s, s1);
      RenewedInv(s, renewed, now);
      if TakesRun(s1, d, g, limit, run) {
        var s2 := ClaimRun(s1, d, g, run.value, now);
        ClaimRunInv(s1, d, g, run.value, now);
        forall id | id in s1.deliveries ensures id < s1.nextId {
          BooksBoundOf(s1, id);
        }
        PhaseContinues(s1, s2);
        FillKeepsPotential(s2, d, g, limit, now);
      } else {
        FillKeepsPotential(s1, d, g, limit, now);
      }
    }
  }

  // ---- Convergence ----

  /** One message of a Driver: about claims and leases, its batch, or the end of a delivery. */
  datatype Move =
    | Messaging(d: string, generation: nat, message: Message)
    | Submitting(id: nat)
    | Completing(id: nat)
    | Abandoning(id: nat)

  ghost predicate Possible(s: StoreState, m: Move) {
    match m
    case Messaging(d, g, message) =>
      && (message.Claims? || message.Acks? || message.RenewsLeases? || message.ResetsLeases?)
      && Admissible(s, Says(d, g, message))
    case Submitting(id) => MaySubmit(s, id)
    case Completing(id) => MayComplete(s, id)
    case Abandoning(id) => MayAbandon(s, id)
  }

  /** The event of the store behind a move. */
  ghost function EventOf(s: StoreState, m: Move): Event
    requires Possible(s, m)
  {
    match m
    case Messaging(d, g, message) => Says(d, g, message)
    case Submitting(id) =>
      var delivery := s.deliveries[id];
      Says(delivery.driver, delivery.generation,
           Mutates(id, id, HonestBatch(s.drivers, delivery.driver, delivery.work.resource)))
    case Completing(id) => Says(s.deliveries[id].driver, s.deliveries[id].generation, Completes(id))
    case Abandoning(id) => Says(s.deliveries[id].driver, s.deliveries[id].generation, Abandons(id))
  }

  ghost function Moved(s: StoreState, m: Move): StoreState
    requires Possible(s, m)
  {
    Step(s, EventOf(s, m)).0
  }

  predicate Ends(m: Move) {
    m.Completing? || m.Abandoning?
  }

  lemma MovedIs(s: StoreState, m: Move)
    requires Possible(s, m)
    ensures m.Submitting? ==> Moved(s, m) == Submit(s, m.id).0
    ensures m.Completing? ==> Moved(s, m) == Finish(s, m.id).0
    ensures m.Abandoning? ==> Moved(s, m) == GiveUp(s, m.id).0
    ensures m.Messaging? ==> Moved(s, m) == Hear(s, m.d, m.generation, m.message).0
  {
    hide Apply, Complete, Abandon, Claim, ResetLeases, RenewLeases, Acknowledge, HonestBatch;
  }

  lemma MessagingMoves(s: StoreState, d: string, g: nat, message: Message)
    requires Inv(s) && Possible(s, Messaging(d, g, message))
    ensures SamePotential(s, Hear(s, d, g, message).0)
  {
    hide Inv, NothingDeleted, Stale, Claim, OutstandingPairs, PairsInHand, UpToDate;
    match message
    case Claims(limit, now, renewed, candidate) => ClaimKeepsPotential(s, d, g, limit, now, renewed, candidate);
    case Acks(id, now) => PhaseContinues(s, Acknowledge(s, id, d, g, now).0);
    case ResetsLeases(now) => PhaseContinues(s, ResetLeases(s, d, g, now).0);
    case RenewsLeases(ids, now) =>
      RenewLeasesSameWorks(s, d, g, ids, now);
      PhaseContinues(s, RenewLeases(s, d, g, ids, now).0);
  }

  lemma MovesAreLegal(s: StoreState, m: Move, p: string)
    requires Possible(s, m)
    ensures Legal(s, EventOf(s, m), p)
  {
    hide MayComplete, MayAbandon, Owns, ApplyMutations;
    if m.Submitting? {
      var delivery := s.deliveries[m.id];
      var batch := HonestBatch(s.drivers, delivery.driver, delivery.work.resource);
      assert |batch| == 1 && batch[0].UpdateResourceStatus?;
      assert AllDeleteSafely(TablesOf(s), s.registry, s.drivers, delivery.driver, delivery.generation, batch, p);
    }
  }

  lemma MoveInv(s: StoreState, m: Move)
    requires Inv(s) && Possible(s, m)
    ensures Inv(Moved(s, m))
  {
    hide Inv, InvAt, Possible, EventOf, Step, Legal;
    InvIsEveryPath(s);
    forall p ensures InvAt(Moved(s, m), p) {
      MovesAreLegal(s, m, p);
      StepKeeps(s, EventOf(s, m), p);
    }
    InvIsEveryPath(Moved(s, m));
  }

  /** Nothing in hand was overtaken, and no row waits to be removed. */
  ghost predicate Calm(s: StoreState) {
    Stale(s) == {} && NothingDeleted(s)
  }

  /** One move: the potential falls with every end of a delivery, and never rises. */
  lemma MoveKeeps(s: StoreState, m: Move)
    requires Inv(s) && Possible(s, m)
    ensures var s' := Moved(s, m);
            && Inv(s') && Potential(s') + (if Ends(m) then 1 else 0) <= Potential(s)
            && (Calm(s) ==> Calm(s') && |Unsettled(s')| + (if Ends(m) then 1 else 0) == |Unsettled(s)|)
  {
    hide Inv, NothingDeleted, Hear, Submit, Complete, Abandon, Unsettled, UpToDate, HonestBatch, Moved, EventOf, Stale;
    MoveInv(s, m);
    MovedIs(s, m);
    var s' := Moved(s, m);
    match m
    case Messaging(d, g, message) => MessagingMoves(s, d, g, message);
    case Submitting(id) =>
      SubmittingSettlesNothing(s, id);
      SubsetSize(Stale(s'), Stale(s));
    case Completing(id) =>
      CompletingAddsNothing(s, id);
      CompletionLowers(s, id);
    case Abandoning(id) =>
      AbandoningAddsNothing(s, id);
      SubsetSize(Stale(s'), Stale(s) - {id});
      SubsetSize(Unsettled(s'), Unsettled(s));
  }

  lemma CompletionLowers(s: StoreState, id: nat)
    requires Inv(s) && MayComplete(s, id)
    ensures var s' := Finish(s, id).0;
            Potential(s') + 1 <= Potential(s) && (Calm(s) ==> Calm(s') && |Unsettled(s')| + 1 == |Unsettled(s)|)
  {
    hide Inv, NothingDeleted, Complete, Unsettled, UpToDate, HonestBatch;
    var s' := Finish(s, id).0;
    CompletingAddsNothing(s, id);
    SubsetSize(Stale(s'), Stale(s) - {id});
    SubsetSize(Unsettled(s'), Unsettled(s));
    var pair := (s.deliveries[id].driver, s.deliveries[id].work.resource.path);
    if UpToDate(s, id) {
      CompletingSettlesItsPair(s, id);
      UpToDateHasRow(s, id);
    }
    if UpToDate(s, id) || pair.1 !in s.rows {
      SubsetSize(Unsettled(s'), Unsettled(s) - {pair});
    } else {
      assert id in Stale(s);
    }
  }

  lemma UpToDateHasRow(s: StoreState, id: nat)
    requires id in s.deliveries && s.deliveries[id].work.Reconcile? && UpToDate(s, id)
    ensures s.deliveries[id].work.resource.path in s.rows && id !in Stale(s)
  {
  }

  /** The state after all moves, if each was possible when it came. */
  ghost function AfterMoves(s: StoreState, moves: seq<Move>): Option<StoreState> {
    if moves == [] then Some(s)
    else
      var before := AfterMoves(s, moves[..|moves| - 1]);
      if before.Some? && Possible(before.value, moves[|moves| - 1]) then Some(Moved(before.value, moves[|moves| - 1])) else None
  }

  function Ended(moves: seq<Move>): nat {
    if moves == [] then 0 else Ended(moves[..|moves| - 1]) + (if Ends(moves[|moves| - 1]) then 1 else 0)
  }

  lemma SettledIsAsDesired(s: StoreState, p: string)
    requires Inv(s) && OutstandingPairs(s) == {} && p in s.rows
    ensures AsDesired(s.drivers, s.rows[p])
  {
    hide Inv, AsDesired, Outstanding, OutstandingPairs;
    assert InvAt(s, p) by { RowsAreReal(s, p); }
    QuietIsAsDesired(s, p);
    forall d ensures !Outstanding(s.queue.owners, s.rows[p], d) {
      OutstandingPair(s, d, p);
    }
  }

  /** Convergence: once writing has stopped, from whatever is in hand then, however the
      claims, acknowledgements, renewals, status writes and completions of any number of
      Drivers interleave, also between an owner's status write and its completion: no more
      deliveries come to an end than there are unsettled pairs and overtaken deliveries;
      and when no pair is unsettled every Resource is as desired and the queue yields
      nothing. If nothing in hand was overtaken, and nothing was being deleted, every end of
      a delivery settles exactly one pair and nothing else does. */
  lemma {:induction false} Converges(s: StoreState, moves: seq<Move>)
    requires Inv(s) && AfterMoves(s, moves).Some?
    ensures var s' := AfterMoves(s, moves).value;
            && Inv(s') && Potential(s') + Ended(moves) <= Potential(s)
            && (Calm(s) ==> Calm(s') && |Unsettled(s')| + Ended(moves) == |Unsettled(s)|)
            && (Unsettled(s') == {} ==> forall d, excluded :: Popped(s'.queue, d, excluded).1.None?)
            && (Unsettled(s') == {} ==> forall p | p in s'.rows :: AsDesired(s'.drivers, s'.rows[p]))
  {
    hide Inv, Calm, Possible, Moved, OutstandingPairs, PairsInHand, Popped, Stale, AsDesired;
    if moves != [] {
      Converges(s, moves[..|moves| - 1]);
      MoveKeeps(AfterMoves(s, moves[..|moves| - 1]).value, moves[|moves| - 1]);
    }
    var s' := AfterMoves(s, moves).value;
    if Unsettled(s') == {} {
      forall d, excluded ensures Popped(s'.queue, d, excluded).1.None? {
        QueueYieldsExactlyTheOutstanding(s', d);
      }
      forall p | p in s'.rows ensures AsDesired(s'.drivers, s'.rows[p]) {
        SettledIsAsDesired(s', p);
      }
    }
  }

  /** Every store just opened, on whatever is on disk, is at the start of such a phase, with
      nothing in hand; a calm one if nothing is being deleted. */
  lemma OpenedIsQuiescent(disk: StoreState, drivers: seq<Driver>, paths: seq<string>)
    requires DiskOk(disk) && Listings(disk, drivers, paths)
    ensures var s := Reopened(disk, drivers, paths);
            Inv(s) && PairsInHand(s) == {} && (Calm(s) <==> NothingDeleted(disk))
  {
    hide Inv, Expected, DiskOk, ScheduledAll, Reobserve;
    ReopenRestores(disk, drivers, paths);
    ReobservedMetadata(disk);
    var rows := Reopened(disk, drivers, paths).rows;
    assert forall p | p in disk.rows :: p in rows && rows[p].desired.metadata == disk.rows[p].desired.metadata;
  }

  lemma ReobservedMetadata(s: StoreState)
    ensures forall p | p in s.rows :: Reobserve(s.drivers, s.rows[p]).desired.metadata == s.rows[p].desired.metadata
  {
    hide Expected;
  }

  /** And no pair is stuck: what is outstanding for a running Driver is in its hands, or a
      claim with room puts new work there, unless its one free place goes to a Run that
      waits for the Driver. */
  lemma NeverStuck(s: StoreState, d: string, p: string, limit: nat, now: int, renewed: set<nat>, run: Option<string>)
    requires Inv(s) && (d, p) in OutstandingPairs(s) && d in s.drivers && s.drivers[d].status == Running
    requires |LiveIds(s.deliveries, d, s.drivers[d].generation)| < limit <= MAX_IN_FLIGHT
    ensures var g := s.drivers[d].generation;
            var s' := Claim(s, d, g, limit, now, renewed, run).0;
            || p in ActiveResources(s.deliveries, d, g)
            || (exists id :: id in s'.deliveries && id !in s.deliveries && s'.deliveries[id].driver == d && s'.deliveries[id].work.Reconcile?)
            || (TakesRun(s, d, g, limit, run) && |LiveIds(s.deliveries, d, g)| == limit - 1)
  {
    hide Popped, Fill, Inv, OutstandingPairs, LiveIds, ActiveResources, HasActiveRun, ClaimRun;
    var g := s.drivers[d].generation;
    var s1 := s.(deliveries := Renewed(s.deliveries, renewed, now));
    RenewedIsSame(s.deliveries, renewed, now, d, g);
    if p !in ActiveResources(s.deliveries, d, g) {
      NotActiveIsQueued(s, d, p);
      RenewedInv(s, renewed, now);
      forall id | id in s.deliveries ensures id < s.nextId {
        BooksBoundOf(s, id);
      }
      if !HasActiveRun(s1.deliveries, d, g) && run.Some? && Runnable(s1, d, run.value) {
        var s2 := ClaimRun(s1, d, g, run.value, now);
        ClaimRunInv(s1, d, g, run.value, now);
        RunLeavesRoom(s1, d, g, run.value, now);
        if |LiveIds(s2.deliveries, d, g)| < limit {
          FirstOfFill(s2, d, g, limit, now);
        }
      } else {
        FirstOfFill(s1, d, g, limit, now);
      }
    }
  }

  lemma RunLeavesRoom(s: StoreState, d: string, g: nat, run: string, now: int)
    requires Runnable(s, d, run) && s.nextId !in s.deliveries
    ensures var s' := ClaimRun(s, d, g, run, now);
            && |LiveIds(s'.deliveries, d, g)| == |LiveIds(s.deliveries, d, g)| + 1
            && ActiveResources(s'.deliveries, d, g) == ActiveResources(s.deliveries, d, g)
            && s'.queue == s.queue && s'.drivers == s.drivers && s'.nextId == s.nextId + 1
  {
    var s' := ClaimRun(s, d, g, run, now);
    assert LiveIds(s'.deliveries, d, g) == LiveIds(s.deliveries, d, g) + {s.nextId};
    assert forall id | id in LiveIds(s.deliveries, d, g) :: s'.deliveries[id] == s.deliveries[id];
  }

  lemma FirstOfFill(s: StoreState, d: string, g: nat, limit: nat, now: int)
    requires Inv(s) && d in s.drivers && s.drivers[d].generation == g && limit <= MAX_IN_FLIGHT
    requires |LiveIds(s.deliveries, d, g)| < limit && Popped(s.queue, d, ActiveResources(s.deliveries, d, g)).1.Some?
    ensures var s' := Fill(s, d, g, limit, now);
            s.nextId in s'.deliveries && s'.deliveries[s.nextId].driver == d && s'.deliveries[s.nextId].work.Reconcile?
  {
    hide Popped, IsPending, Inv;
    var (q, item) := Popped(s.queue, d, ActiveResources(s.deliveries, d, g));
    PopAndDeliverKeeps(s, d, g, now);
    PopShrinks(s.queue, d, ActiveResources(s.deliveries, d, g));
    var next := Deliver(s.(queue := q), d, g, Reconcile(item.value.observation.driverRevision, s.rows[item.value.resource]), now);
    forall id | id in next.deliveries ensures id < next.nextId {
      BooksBoundOf(next, id);
    }
    FillAdds(next, d, g, limit, now);
  }

  lemma NotActiveIsQueued(s: StoreState, d: string, p: string)
    requires Inv(s) && d in s.drivers && (d, p) in OutstandingPairs(s) && p !in ActiveResources(s.deliveries, d, s.drivers[d].generation)
    ensures Popped(s.queue, d, ActiveResources(s.deliveries, d, s.drivers[d].generation)).1.Some?
  {
    hide Popped, IsPending, OwnersOk, DriversOk, WellFormed;
    OutstandingPair(s, d, p);
    QueueYieldsExactlyTheOutstanding(s, d);
    LiveIsAll(s, d, s.drivers[d].generation);
    assert forall id | id in s.deliveries && s.deliveries[id].driver == d :: id in DeliveriesOf(s.deliveries, d);
  }
}
