/** What only grows: the ids handed out, and the batches that took effect. */
module Progress {
  import opened Wrappers
  import opened Resources
  import opened Partitions
  import opened Queue
  import opened Control
  import opened Invariants
  import opened Bookkeeping
  import opened Claims
  import opened Safety
  import opened History

  /** New deliveries get new ids, so a delivery that is gone stays gone; and what took
      effect is never forgotten. */
  ghost predicate Grows(s: StoreState, s': StoreState) {
    && s.nextId <= s'.nextId && s.commits <= s'.commits
    && forall id | id in s'.deliveries && id !in s.deliveries :: s.nextId <= id
  }

  lemma GrowsTransitive(s: StoreState, s': StoreState, s'': StoreState)
    requires Grows(s, s') && Grows(s', s'')
    ensures Grows(s, s'')
  {
  }

  /** The cache answers for a batch only while its delivery lives in the generation in
      which the batch took effect. */
  ghost predicate Recorded(s: StoreState) {
    forall pair: (nat, nat) | pair in s.results ::
      pair.0 in s.deliveries && (pair.0, pair.1, s.deliveries[pair.0].generation) in s.commits
  }

  /** The parts a step leaves alone when it records nothing. */
  ghost predicate SameRecords(s: StoreState, s': StoreState) {
    && (forall pair: (nat, nat) | pair in s'.results :: pair in s.results)
    && (forall pair: (nat, nat) | pair in s'.results && pair.0 in s.deliveries ::
          pair.0 in s'.deliveries && s'.deliveries[pair.0].generation == s.deliveries[pair.0].generation)
    && s.commits <= s'.commits
  }

  lemma ClaimGrows(s: StoreState, d: string, g: nat, limit: nat, now: int, renewed: set<nat>, run: Option<string>)
    requires BooksOk(s)
    ensures Grows(s, Claim(s, d, g, limit, now, renewed, run).0)
    ensures Recorded(s) ==> SameRecords(s, Claim(s, d, g, limit, now, renewed, run).0)
  {
    hide Fill, BooksOk, LiveIds, HasActiveRun;
    ClaimDrivers(s, d, g, limit, now, renewed, run);
    if limit > 0 && Current(s.drivers, d, g) {
      ClaimAdds(s, d, g, limit, now, renewed, run);
    }
  }

  lemma ApplyGrows(s: StoreState, id: nat, request: nat, d: string, g: nat, ms: seq<Mutation>)
    ensures Grows(s, Apply(s, id, request, d, g, ms).0)
    ensures Recorded(s) ==> Recorded(Apply(s, id, request, d, g, ms).0)
  {
    hide ApplyMutations, SchedulePaths;
  }

  lemma FinishRunGrows(s: StoreState, id: nat, d: string, g: nat, ms: seq<Mutation>, succeeded: bool)
    ensures Grows(s, FinishRun(s, id, d, g, ms, succeeded).0)
    ensures SameRecords(s, FinishRun(s, id, d, g, ms, succeeded).0)
  {
    hide ApplyMutations, SchedulePaths, Remember;
  }

  lemma CompleteGrows(s: StoreState, id: nat, d: string, g: nat)
    ensures Grows(s, Complete(s, id, d, g).0)
    ensures SameRecords(s, Complete(s, id, d, g).0)
  {
    hide SchedulePaths, Remember, CompletedRow, PutOrFinish;
  }

  lemma AbandonGrows(s: StoreState, id: nat, d: string, g: nat)
    ensures Grows(s, Abandon(s, id, d, g).0)
    ensures SameRecords(s, Abandon(s, id, d, g).0)
  {
    hide SchedulePaths;
  }

  lemma HearGrows(s: StoreState, d: string, g: nat, message: Message)
    requires BooksOk(s)
    ensures Grows(s, Hear(s, d, g, message).0)
    ensures Recorded(s) ==> Recorded(Hear(s, d, g, message).0)
  {
    hide BooksOk, Apply, FinishRun, Complete, Abandon, Claim;
    match message
    case Claims(limit, now, renewed, candidate) => ClaimGrows(s, d, g, limit, now, renewed, candidate);
    case RenewsLeases(ids, now) => RenewLeasesSameWorks(s, d, g, ids, now);
    case Mutates(id, request, ms) => ApplyGrows(s, id, request, d, g, ms);
    case FinishesRun(id, ms, succeeded) => FinishRunGrows(s, id, d, g, ms, succeeded);
    case Completes(id) => CompleteGrows(s, id, d, g);
    case Abandons(id) => AbandonGrows(s, id, d, g);
    case _ =>
  }

  lemma StepGrows(s: StoreState, e: Event)
    requires BooksOk(s)
    ensures Grows(s, Step(s, e).0)
    ensures Recorded(s) ==> Recorded(Step(s, e).0)
  {
    hide BooksOk, SchedulePaths, Repartitioned, Deleted, Reobserve, ScheduledAll, Hear, Projects;
    match e
    case Says(d, g, message) => HearGrows(s, d, g, message);
    case _ =>
  }

  // ---- Registered Manifests ----

  ghost predicate Registered(registry: seq<string>, rows: map<string, Resource>) {
    forall p | p in rows :: rows[p].Manifest() in registry
  }

  lemma TransactionRegistered(t: Tables, registry: seq<string>, drivers: map<string, Driver>, row: Resource,
                              key: string)
    requires Registered(registry, t.rows) && row.Manifest() in registry
    ensures Registered(registry, PutOrFinish(t, row).rows)
    ensures Registered(registry, Deleted(t, drivers, row).rows)
    ensures Registered(registry, t.rows[key := Reobserve(drivers, row)])
  {
    hide Finished, Owned, Expected;
  }

  lemma {:induction false} MutationsRegistered(t: Tables, registry: seq<string>, drivers: map<string, Driver>,
                                               d: string, g: nat, ms: seq<Mutation>)
    requires Registered(registry, t.rows)
    ensures var outcome := ApplyMutations(t, registry, drivers, d, g, ms);
            outcome.Committed? ==> Registered(registry, outcome.tables.rows)
  {
    hide Registered, ApplyMutation;
    if ms != [] {
      MutationsRegistered(t, registry, drivers, d, g, ms[..|ms| - 1]);
      var first := ApplyMutations(t, registry, drivers, d, g, ms[..|ms| - 1]);
      if first.Committed? {
        MutationRegistered(first.tables, registry, drivers, d, g, ms[|ms| - 1]);
      }
    }
  }

  lemma MutationRegistered(t: Tables, registry: seq<string>, drivers: map<string, Driver>, d: string, g: nat,
                           m: Mutation)
    requires Registered(registry, t.rows)
    ensures var outcome := ApplyMutation(t, registry, drivers, d, g, m);
            outcome.Committed? ==> Registered(registry, outcome.tables.rows)
  {
    hide Deleted, PutOrFinish, Reobserve;
    match m
    case CreateResource(planned) => if planned.manifest in registry { TransactionRegistered(t, registry, drivers, Inserted(planned), planned.path); }
    case UpdateResource(path, _, state, spec) =>
      if path in t.rows { TransactionRegistered(t, registry, drivers, Revised(t.rows[path], state, spec), path); }
    case DeleteResource(path, _) => if path in t.rows { TransactionRegistered(t, registry, drivers, t.rows[path], path); }
    case UpdateResourceStatus(path, _, state, spec) =>
      if path in t.rows { TransactionRegistered(t, registry, drivers, SubmittedStatus(t.rows[path], state, spec), path); }
  }

  lemma HearRegistered(s: StoreState, d: string, g: nat, message: Message)
    requires Registered(s.registry, s.rows)
    ensures var s' := Hear(s, d, g, message).0; s'.registry == s.registry && Registered(s'.registry, s'.rows)
  {
    hide ApplyMutations, SchedulePaths, Remember, CompletedRow, PutOrFinish, Claim, Registered;
    match message
    case Claims(limit, now, renewed, candidate) => ClaimDrivers(s, d, g, limit, now, renewed, candidate);
    case RenewsLeases(ids, now) => RenewLeasesSameWorks(s, d, g, ids, now);
    case Mutates(id, request, ms) => MutationsRegistered(TablesOf(s), s.registry, s.drivers, d, g, ms);
    case FinishesRun(id, ms, succeeded) => MutationsRegistered(TablesOf(s), s.registry, s.drivers, d, g, ms);
    case Completes(id) =>
      if id in s.deliveries && s.deliveries[id].work.Reconcile? && s.deliveries[id].work.resource.path in s.rows {
        var work := s.deliveries[id].work;
        RowRegistered(s, work.resource.path);
        CompletedRegistered(s, s.rows[work.resource.path], d, ObservationOf(work));
      }
    case _ =>
  }

  lemma RowRegistered(s: StoreState, path: string)
    requires Registered(s.registry, s.rows) && path in s.rows
    ensures s.rows[path].Manifest() in s.registry
  {
  }

  lemma CompletedRegistered(s: StoreState, row: Resource, d: string, observation: Observation)
    requires Registered(s.registry, s.rows) && row.Manifest() in s.registry
    ensures Registered(s.registry, PutOrFinish(TablesOf(s), CompletedRow(s.drivers, row, d, observation)).rows)
  {
    hide Finished, Owns;
    TransactionRegistered(TablesOf(s), s.registry, s.drivers, CompletedRow(s.drivers, row, d, observation), row.path);
  }

  lemma StepRegistered(s: StoreState, e: Event)
    requires Registered(s.registry, s.rows)
    ensures var s' := Step(s, e).0; s'.registry == s.registry && Registered(s'.registry, s'.rows)
  {
    hide SchedulePaths, Deleted, ScheduledAll, Hear, UpdateDriver, StartDriver, StopDriver;
    match e
    case Deletes(path, _) => if path in s.rows { TransactionRegistered(TablesOf(s), s.registry, s.drivers, s.rows[path], path); }
    case UpdatesDriver(_, _, _, _, _, _) => ReplacementDocuments(s, e);
    case Starts(_, _, _, _) => ReplacementDocuments(s, e);
    case Stops(_, _, _) => ReplacementDocuments(s, e);
    case Says(d, g, message) => HearRegistered(s, d, g, message);
    case _ =>
  }

  /** No row is ever of a Manifest that is not registered: the exception of the update of
      affected partitions is out of reach. */
  lemma {:induction false} RegisteredOverRuns(s: StoreState, es: seq<Event>)
    requires Registered(s.registry, s.rows)
    ensures After(s, es).registry == s.registry && Registered(s.registry, After(s, es).rows)
  {
    hide Registered, Step;
    if es != [] {
      RegisteredOverRuns(s, es[..|es| - 1]);
      StepRegistered(After(s, es[..|es| - 1]), es[|es| - 1]);
    }
  }
}
