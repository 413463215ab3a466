/** What single calls of the store mean to those who make them. */
module Protocol {
  import opened Wrappers
  import opened Resources
  import opened Partitions
  import opened Queue
  import opened Control
  import opened Invariants
  import opened Bookkeeping
  import opened Steps
  import opened Claims
  import opened Convergence
  import opened Safety

  // ---- Compare and set ----

  /** Of several writers who read the same revision, only one gets through. */
  lemma WriteIsCompareAndSet(s: StoreState, path: string, expectedRevision: nat, state: Option<string>, spec: Json,
                             state': Option<string>, spec': Json)
    requires path in s.rows && s.rows[path].path == path
    ensures var (s', reply) := Write(s, path, expectedRevision, state, spec);
            && (reply == Done <==> s.rows[path].Revision() == expectedRevision && !s.rows[path].desired.metadata.isProtected)
            && (reply != Done ==> s' == s)
            && (reply == Done ==>
                  && path in s'.rows && s'.rows[path].Revision() == expectedRevision + 1
                  && s'.rows[path].desired.spec == spec && s'.rows[path].status.metadata == s.rows[path].status.metadata
                  && (forall p | p != path :: (p in s'.rows <==> p in s.rows) && (p in s.rows ==> s'.rows[p] == s.rows[p]))
                  && Write(s', path, expectedRevision, state', spec').1 == Conflict && Delete(s', path, expectedRevision).1 == Conflict)
  {
  }

  /** The event may put a new row under a path from which one was removed. */
  predicate CreatesAgain(e: Event, p: string) {
    match e
    case Creates(planned) => planned.path == p
    case Says(_, _, Mutates(_, _, ms)) => BatchCreates(ms, p)
    case Says(_, _, FinishesRun(_, ms, _)) => BatchCreates(ms, p)
    case _ => false
  }

  predicate BatchCreates(ms: seq<Mutation>, p: string) {
    exists m | m in ms :: m.CreateResource? && m.planned.path == p
  }

  /** The row was there before, in no later revision. */
  predicate NoNewer(rows: map<string, Resource>, rows': map<string, Resource>, p: string) {
    p in rows' ==> p in rows && rows[p].Revision() <= rows'[p].Revision()
  }

  lemma TransactionRevisions(t: Tables, drivers: map<string, Driver>, row: Resource, p: string)
    requires row.path in t.rows && t.rows[row.path].Revision() <= row.Revision()
    ensures NoNewer(t.rows, PutOrFinish(t, row).rows, p) && NoNewer(t.rows, Deleted(t, drivers, row).rows, p)
    ensures NoNewer(t.rows, t.rows[row.path := Reobserve(drivers, row)], p)
  {
    hide Finished, Owned, Expected;
  }

  lemma MutationRevisions(t: Tables, registry: seq<string>, drivers: map<string, Driver>, d: string, g: nat,
                          m: Mutation, p: string)
    requires Keyed(t.rows) && !(m.CreateResource? && m.planned.path == p)
    ensures var outcome := ApplyMutation(t, registry, drivers, d, g, m); outcome.Committed? ==> NoNewer(t.rows, outcome.tables.rows, p)
  {
    hide Deleted, PutOrFinish, Reobserve;
    match m
    case CreateResource(planned) =>
    case UpdateResource(path, _, state, spec) => if path in t.rows { TransactionRevisions(t, drivers, Revised(t.rows[path], state, spec), p); }
    case DeleteResource(path, _) => if path in t.rows { TransactionRevisions(t, drivers, t.rows[path], p); }
    case UpdateResourceStatus(path, _, state, spec) =>
      if path in t.rows { TransactionRevisions(t, drivers, SubmittedStatus(t.rows[path], state, spec), p); }
  }

  lemma {:induction false} MutationsRevisions(t: Tables, registry: seq<string>, drivers: map<string, Driver>,
                                              d: string, g: nat, ms: seq<Mutation>, p: string)
    requires Keyed(t.rows) && !BatchCreates(ms, p)
    ensures var outcome := ApplyMutations(t, registry, drivers, d, g, ms); outcome.Committed? ==> NoNewer(t.rows, outcome.tables.rows, p)
  {
    hide ApplyMutation, Keyed;
    if ms != [] {
      var front := ms[..|ms| - 1];
      assert forall m | m in front :: m in ms;
      MutationsRevisions(t, registry, drivers, d, g, front, p);
      MutationsKeepRuns(t, registry, drivers, d, g, front);
      var first := ApplyMutations(t, registry, drivers, d, g, front);
      if first.Committed? {
        MutationRevisions(first.tables, registry, drivers, d, g, ms[|ms| - 1], p);
      }
    }
  }

  lemma HearRevisions(s: StoreState, d: string, g: nat, message: Message, p: string)
    requires Keyed(s.rows) && !CreatesAgain(Says(d, g, message), p)
    ensures NoNewer(s.rows, Hear(s, d, g, message).0.rows, p)
  {
    hide ApplyMutations, SchedulePaths, Remember, PutOrFinish, Claim, Reobserve, BatchCreates;
    match message
    case Claims(limit, now, renewed, candidate) => ClaimDrivers(s, d, g, limit, now, renewed, candidate);
    case RenewsLeases(ids, now) => RenewLeasesSameWorks(s, d, g, ids, now);
    case Mutates(id, request, ms) => MutationsRevisions(TablesOf(s), s.registry, s.drivers, d, g, ms, p);
    case FinishesRun(id, ms, succeeded) => MutationsRevisions(TablesOf(s), s.registry, s.drivers, d, g, ms, p);
    case Completes(id) =>
      if id in s.deliveries && s.deliveries[id].work.Reconcile? && s.deliveries[id].work.resource.path in s.rows {
        var work := s.deliveries[id].work;
        CompletedRevision(s.drivers, s.rows[work.resource.path], d, ObservationOf(work));
        TransactionRevisions(TablesOf(s), s.drivers, CompletedRow(s.drivers, s.rows[work.resource.path], d, ObservationOf(work)), p);
      }
    case _ =>
  }

  lemma CompletedRevision(drivers: map<string, Driver>, row: Resource, d: string, observation: Observation)
    ensures var done := CompletedRow(drivers, row, d, observation); done.path == row.path && done.Revision() == row.Revision()
  {
  }

  lemma StepRevisions(s: StoreState, e: Event, p: string)
    requires Keyed(s.rows) && !CreatesAgain(e, p)
    ensures NoNewer(s.rows, Step(s, e).0.rows, p)
  {
    hide SchedulePaths, Deleted, ScheduledAll, Hear, UpdateDriver, StartDriver, StopDriver, BatchCreates, Expected;
    match e
    case Deletes(path, _) => if path in s.rows { TransactionRevisions(TablesOf(s), s.drivers, s.rows[path], p); }
    case UpdatesDriver(_, _, _, _, _, _) => ReplacementDocuments(s, e);
    case Starts(_, _, _, _) => ReplacementDocuments(s, e);
    case Stops(_, _, _) => ReplacementDocuments(s, e);
    case Says(d, g, message) => HearRevisions(s, d, g, message, p);
    case _ =>
  }

  /** No update is lost: once a write has gone through, every other write or deletion that
      was based on the same revision is refused, whatever happens in between, as long as
      the Resource is not created anew. */
  lemma {:induction false} RivalWritesAreRefused(s: StoreState, path: string, expectedRevision: nat,
                                                 state: Option<string>, spec: Json,
                                                 es: seq<Event>, state': Option<string>, spec': Json)
    requires BooksOk(s) && Write(s, path, expectedRevision, state, spec).1 == Done
    requires AllAdmissible(Write(s, path, expectedRevision, state, spec).0, es) && forall e | e in es :: !CreatesAgain(e, path)
    ensures var later := After(Write(s, path, expectedRevision, state, spec).0, es);
            && (path in later.rows ==> expectedRevision < later.rows[path].Revision())
            && Write(later, path, expectedRevision, state', spec').1 != Done && Delete(later, path, expectedRevision).1 != Done
  {
    hide BooksOk, Step, Admissible, CreatesAgain, SchedulePaths, Reobserve, Deleted;
    var written := Write(s, path, expectedRevision, state, spec).0;
    if es == [] {
      RowPath(s, path);
      WriteIsCompareAndSet(s, path, expectedRevision, state, spec, state', spec');
    } else {
      var front, last := es[..|es| - 1], es[|es| - 1];
      assert last in es && forall e | e in front :: e in es;
      RivalWritesAreRefused(s, path, expectedRevision, state, spec, front, state', spec');
      WriteBooks(s, path, expectedRevision, state, spec);
      BooksOverRuns(written, front);
      RowsAreKeyed(After(written, front));
      StepRevisions(After(written, front), last, path);
    }
  }

  /** A Driver reports a state and a specification of the status document of a Resource
      it owns, and nothing else: it cannot touch what is desired, what was observed, or
      the rest of the metadata, and nobody but the running owner can report at all. */
  lemma StatusReportsAreConfined(t: Tables, registry: seq<string>, drivers: map<string, Driver>, d: string, g: nat,
                                 path: string,
                                 expectedRevision: nat, state: string, spec: Json)
    requires path in t.rows && t.rows[path].path == path
    ensures var row := t.rows[path];
            match ApplyMutation(t, registry, drivers, d, g, UpdateResourceStatus(path, expectedRevision, state, spec))
            case Rejected(_) => !Current(drivers, d, g) || !Owns(drivers, d, row.Manifest()) || row.Revision() != expectedRevision
            case Committed(t', results) =>
              && Current(drivers, d, g) && Owns(drivers, d, row.Manifest()) && row.Revision() == expectedRevision
              && |results| == 1 && results[0].path == path && results[0].desired == row.desired
              && results[0].status.observed == row.status.observed && results[0].status.spec == spec
              && results[0].status.metadata == row.desired.metadata.(state := state)
              && (path in t'.rows ==> t'.rows[path] == results[0])
              && (path !in t'.rows <==> Finished(results[0]))
              && (forall p | p != path :: (p in t'.rows <==> p in t.rows) && (p in t.rows ==> t'.rows[p] == t.rows[p]))
  {
  }

  /** The rows a batch of reports may touch: those of the running owner, and of these only
      the status, without what was observed. */
  ghost predicate Confined(t: Tables, t': Tables, drivers: map<string, Driver>, d: string, g: nat) {
    && t'.rows.Keys <= t.rows.Keys
    && forall p | p in t.rows && (p in t'.rows ==> t'.rows[p] != t.rows[p]) ::
         && Current(drivers, d, g) && Owns(drivers, d, t.rows[p].Manifest())
         && (p !in t'.rows ==> t.rows[p].desired.metadata.state == STATE_DELETED)
         && (p in t'.rows ==>
               && t'.rows[p].desired == t.rows[p].desired && t'.rows[p].path == t.rows[p].path
               && t'.rows[p].status.observed == t.rows[p].status.observed)
  }

  lemma ConfinedTransitive(t: Tables, t': Tables, t'': Tables, drivers: map<string, Driver>, d: string, g: nat)
    requires Confined(t, t', drivers, d, g) && Confined(t', t'', drivers, d, g)
    ensures Confined(t, t'', drivers, d, g)
  {
    hide Current, Owns;
  }

  /** However many reports a batch makes. */
  lemma {:induction false} StatusBatchesAreConfined(t: Tables, registry: seq<string>, drivers: map<string, Driver>,
                                                    d: string, g: nat, ms: seq<Mutation>)
    requires Keyed(t.rows) && forall m | m in ms :: m.UpdateResourceStatus?
    ensures var outcome := ApplyMutations(t, registry, drivers, d, g, ms); outcome.Committed? ==> Confined(t, outcome.tables, drivers, d, g)
  {
    hide ApplyMutation, Confined, Keyed;
    if ms == [] {
      NothingConfined(t, drivers, d, g);
    } else {
      var front, m := ms[..|ms| - 1], ms[|ms| - 1];
      assert m in ms && forall n | n in front :: n in ms;
      StatusBatchesAreConfined(t, registry, drivers, d, g, front);
      MutationsKeepRuns(t, registry, drivers, d, g, front);
      var first := ApplyMutations(t, registry, drivers, d, g, front);
      if first.Committed? {
        ReportIsConfined(first.tables, registry, drivers, d, g, m);
        if ApplyMutation(first.tables, registry, drivers, d, g, m).Committed? {
          ConfinedTransitive(t, first.tables, ApplyMutation(first.tables, registry, drivers, d, g, m).tables, drivers, d, g);
        }
      }
    }
  }

  lemma NothingConfined(t: Tables, drivers: map<string, Driver>, d: string, g: nat)
    ensures Confined(t, t, drivers, d, g)
  {
  }

  lemma ReportIsConfined(t: Tables, registry: seq<string>, drivers: map<string, Driver>, d: string, g: nat, m: Mutation)
    requires Keyed(t.rows) && m.UpdateResourceStatus?
    ensures var outcome := ApplyMutation(t, registry, drivers, d, g, m); outcome.Committed? ==> Confined(t, outcome.tables, drivers, d, g)
  {
    hide Current, Owns, AllObserved;
    if m.path in t.rows {
      StatusReportsAreConfined(t, registry, drivers, d, g, m.path, m.expectedRevision, m.statusState, m.statusSpec);
    }
  }

  /** A completion removes a row exactly when both documents say deleted and, with this
      observation, every Driver that now has to observe it has done so. */
  lemma CompletionRemovesExactly(s: StoreState, id: nat, d: string, g: nat)
    requires Inv(s) && Complete(s, id, d, g).1 == Done && s.deliveries[id].work.resource.path in s.rows
    ensures var path := s.deliveries[id].work.resource.path;
            var row := s.rows[path];
            var observed := row.status.observed[d := ObservationOf(s.deliveries[id].work)];
            path !in Complete(s, id, d, g).0.rows <==>
            && row.desired.metadata.state == STATE_DELETED && row.status.metadata.state == STATE_DELETED
            && forall e | e in Expected(s.drivers, row) :: Has(observed, e, Expected(s.drivers, row)[e])
  {
    hide WorkAt, DeliveriesOk, CachesOk, HistoryOk, DriversOk, OwnersOk, SchedulePaths, Remember, Owns, Expected, Observed;
    var row := s.rows[s.deliveries[id].work.resource.path];
    var done := CompletedRow(s.drivers, row, d, ObservationOf(s.deliveries[id].work));
    CompletedExpects(s.drivers, row, d, ObservationOf(s.deliveries[id].work));
    assert AllObserved(done) <==> forall e | e in Expected(s.drivers, row) ::
                                    Has(row.status.observed[d := ObservationOf(s.deliveries[id].work)], e, Expected(s.drivers, row)[e]);
  }

  lemma CompletedExpects(drivers: map<string, Driver>, row: Resource, d: string, observation: Observation)
    ensures var done := CompletedRow(drivers, row, d, observation);
            && done.desired == row.desired.(observed := Expected(drivers, row)) && done.path == row.path
            && done.status.metadata.state == row.status.metadata.state
            && (forall e | e in Expected(drivers, row) ::
                  (e in done.status.observed <==> e in row.status.observed[d := observation])
                  && (e in done.status.observed ==> done.status.observed[e] == row.status.observed[d := observation][e]))
  {
    var metadata := if Owns(drivers, d, row.Manifest())
    then row.status.metadata.(package := row.desired.metadata.package, packageRevision := row.desired.metadata.packageRevision)
    else row.status.metadata;
    var noted := row.(status := row.status.(metadata := metadata, observed := row.status.observed[d := observation]));
    assert Expected(drivers, noted) == Expected(drivers, row);
  }

  /** A completion records this one observation, if it is still asked for, confirms the
      package if the Driver owns the Resource, leaves what is desired and every other row
      alone, and cannot be made twice. */
  lemma CompletionRecords(s: StoreState, id: nat, d: string, g: nat)
    requires Inv(s) && Complete(s, id, d, g).1 == Done
    ensures var (s', path) := (Complete(s, id, d, g).0, s.deliveries[id].work.resource.path);
            && id !in s'.deliveries && id in s'.completed && Complete(s', id, d, g) == (s', AlreadyCompleted)
            && s'.deliveries == s.deliveries - {id}
            && (forall p | p != path :: (p in s'.rows <==> p in s.rows) && (p in s.rows ==> s'.rows[p] == s.rows[p]))
            && (path in s'.rows ==>
                  && path in s.rows && s'.rows[path].desired == s.rows[path].desired && s'.rows[path].status.spec == s.rows[path].status.spec
                  && (d in s'.rows[path].desired.observed ==>
                        Has(s'.rows[path].status.observed, d, ObservationOf(s.deliveries[id].work)))
                  && s'.rows[path].status.metadata
                     == (if Owns(s.drivers, d, s.rows[path].Manifest())
                         then s.rows[path].status.metadata.(package := s.rows[path].desired.metadata.package,
                                 packageRevision := s.rows[path].desired.metadata.packageRevision)
                         else s.rows[path].status.metadata))
  {
    hide WorkAt, DeliveriesOk, HistoryOk, DriversOk, OwnersOk, SchedulePaths, Remember, Owns, Expected, AllObserved;
    RememberKeeps(s.completed, s.completedOrder, id);
    var path := s.deliveries[id].work.resource.path;
    if path in s.rows {
      assert Observed(s.drivers, s.rows[path]);
      CompletedExpects(s.drivers, s.rows[path], d, ObservationOf(s.deliveries[id].work));
    }
  }

  lemma NotInHandIsQueued(s: StoreState, d: string, p: string)
    requires WorkAt(s, p) && p in s.rows && s.rows[p].path == p && Outstanding(s.queue.owners, s.rows[p], d)
    requires forall id :: id in s.deliveries && s.deliveries[id].driver == d && s.deliveries[id].work.Reconcile? ==>
                            s.deliveries[id].work.resource.path != p
    ensures (d, p) in s.queue.latest
  {
    hide IsPending, WellFormed;
    assert NotLost(s.queue.latest, s.deliveries, s.rows[p], d);
  }

  /** Giving a delivery up puts its work back: if it is still needed, it is queued. */
  lemma AbandonRequeues(s: StoreState, id: nat, d: string, g: nat)
    requires Inv(s) && Abandon(s, id, d, g).1 == Done
    ensures var (s', path) := (Abandon(s, id, d, g).0, s.deliveries[id].work.resource.path);
            && s'.rows == s.rows && s'.deliveries == s.deliveries - {id}
            && (path in s.rows && Outstanding(s'.queue.owners, s.rows[path], d) ==> (d, path) in s'.queue.latest)
  {
    hide TablesOk, WorkOk, TablesAt, WorkAt, CachesOk, HistoryOk, SchedulePaths, Outstanding, Windowed;
    var s', path := Abandon(s, id, d, g).0, s.deliveries[id].work.resource.path;
    InvIsEveryPath(s);
    AbandonKeeps(s, id, d, g, path);
    forall other | other in s'.deliveries && s.deliveries[other].driver == d && s.deliveries[other].work.Reconcile?
      ensures s.deliveries[other].work.resource.path != path
    {
      assert SameWork(s.deliveries[id], s.deliveries[other]) ==> other == id;
    }
    if path in s.rows && Outstanding(s'.queue.owners, s.rows[path], d) {
      RowPath(s, path);
      NotInHandIsQueued(s', d, path);
    }
  }

  // ---- Leases ----

  /** All leases are renewed, or the call meets a delivery that is not the Driver's. */
  lemma {:induction false} RenewalExtends(s: StoreState, d: string, g: nat, ids: seq<nat>, now: int)
    ensures var (s', reply) := RenewLeases(s, d, g, ids, now);
            && s'.deliveries.Keys == s.deliveries.Keys
            && (forall id | id in s.deliveries ::
                  || s'.deliveries[id] == s.deliveries[id]
                  || (id in ids && Holds(s, id, d, g) && s'.deliveries[id] == s.deliveries[id].(leaseExpires := now + LEASE_SECONDS)))
            && (reply == Done <==> forall id | id in ids :: Holds(s, id, d, g))
            && (reply == Done ==> forall id | id in ids :: id in s'.deliveries && s'.deliveries[id].leaseExpires == now + LEASE_SECONDS)
            && (reply == Done || reply == Conflict)
  {
    if ids != [] {
      var front, last := ids[..|ids| - 1], ids[|ids| - 1];
      RenewalExtends(s, d, g, front, now);
      assert ids == front + [last];
      var s' := RenewLeases(s, d, g, front, now).0;
      assert Holds(s', last, d, g) <==> Holds(s, last, d, g);
      assert (forall id | id in ids :: Holds(s, id, d, g)) <==> (forall id | id in front :: Holds(s, id, d, g)) && Holds(s, last, d, g);
    }
  }

  /** After a reconnection everything live can be handed out again at once. */
  lemma ResetMakesClaimable(s: StoreState, d: string, now: int)
    requires d in s.drivers
    ensures var g := s.drivers[d].generation;
            var s' := ResetLeases(s, d, g, now).0;
            Expired(s'.deliveries, d, g, now) == LiveIds(s'.deliveries, d, g) == LiveIds(s.deliveries, d, g)
  {
  }

  /** Nothing is stranded on a lost connection: the first full claim of a Driver that has
      reconnected hands it every delivery it had, with new work only in the room left. */
  lemma ReconnectionRecovers(s: StoreState, d: string, now: int, now': int, renewed: set<nat>, run: Option<string>)
    requires BooksOk(s) && d in s.drivers && s.drivers[d].status == Running && now <= now'
    requires LegalClaim(ResetLeases(s, d, s.drivers[d].generation, now).0, d, s.drivers[d].generation, MAX_IN_FLIGHT, now', renewed, run)
    ensures var g := s.drivers[d].generation;
            var (s', reply) := Claim(ResetLeases(s, d, g, now).0, d, g, MAX_IN_FLIGHT, now', renewed, run);
            reply.Claimed? && DeliveriesOf(s.deliveries, d) <= reply.ids
  {
    hide BooksOk, Fill, ClaimRun, HasActiveRun;
    var g := s.drivers[d].generation;
    var s1 := ResetLeases(s, d, g, now).0;
    ResetMakesClaimable(s, d, now);
    assert Expired(s1.deliveries, d, g, now') == LiveIds(s1.deliveries, d, g);
    LiveWithin(s, d, g);
    SubsetOfSameSize(renewed, LiveIds(s1.deliveries, d, g));
  }

  lemma LiveWithin(s: StoreState, d: string, g: nat)
    requires BooksOk(s) && d in s.drivers && s.drivers[d].generation == g
    ensures LiveIds(s.deliveries, d, g) == DeliveriesOf(s.deliveries, d) && |LiveIds(s.deliveries, d, g)| <= MAX_IN_FLIGHT
  {
    LiveIsAll(s, d, g);
    WindowAt(s, d);
  }

  lemma SubsetOfSameSize(a: set<nat>, b: set<nat>)
    requires a <= b && |a| == |b|
    ensures a == b
  {
    assert b == a + (b - a);
    assert |b| == |a| + |b - a|;
  }

  /** What was handed out is not handed out again before its lease ends. */
  lemma LeaseProtects(s: StoreState, d: string, g: nat, limit: nat, now: int, renewed: set<nat>, run: Option<string>,
                      limit': nat, now': int, renewed': set<nat>, run': Option<string>)
    requires BooksOk(s) && LegalClaim(s, d, g, limit, now, renewed, run)
    requires now' < now + LEASE_SECONDS
    requires LegalClaim(Claim(s, d, g, limit, now, renewed, run).0, d, g, limit', now', renewed', run')
    ensures var (s', reply) := Claim(s, d, g, limit, now, renewed, run);
            var (s'', reply') := Claim(s', d, g, limit', now', renewed', run');
            reply.Claimed? && reply'.Claimed? ==> reply.ids !! reply'.ids
  {
    hide BooksOk, Fill, ClaimRun;
    var (s', reply) := Claim(s, d, g, limit, now, renewed, run);
    var (s'', reply') := Claim(s', d, g, limit', now', renewed', run');
    if reply.Claimed? && reply'.Claimed? && limit > 0 {
      ClaimBooks(s, d, g, limit, now, renewed, run);
      forall id | id in reply.ids ensures id !in reply'.ids {
        HandedOut(s, d, g, limit, now, renewed, run, id);
        BooksBound(s', id);
      }
    }
  }

  lemma HandedOut(s: StoreState, d: string, g: nat, limit: nat, now: int, renewed: set<nat>, run: Option<string>,
                  id: nat)
    requires BooksOk(s) && LegalClaim(s, d, g, limit, now, renewed, run) && limit > 0
    requires Claim(s, d, g, limit, now, renewed, run).1.Claimed? && id in Claim(s, d, g, limit, now, renewed, run).1.ids
    ensures var s' := Claim(s, d, g, limit, now, renewed, run).0;
            id in s'.deliveries && s'.deliveries[id].leaseExpires == now + LEASE_SECONDS
  {
    hide BooksOk, Fill, HasActiveRun, WithRun;
    var s1 := s.(deliveries := Renewed(s.deliveries, renewed, now));
    forall other | other in s.deliveries ensures other < s.nextId {
      BooksBound(s, other);
    }
    var s2 := WithRun(s1, d, g, limit, now, run);
    RunLease(s1, d, g, limit, now, run);
    FillLeases(s2, d, g, limit, now);
  }

  lemma RunLease(s: StoreState, d: string, g: nat, limit: nat, now: int, run: Option<string>)
    requires forall id | id in s.deliveries :: id < s.nextId
    ensures var s' := WithRun(s, d, g, limit, now, run);
            && s.nextId <= s'.nextId && (forall id | id in s'.deliveries :: id < s'.nextId)
            && (forall id | id in s.deliveries :: id in s'.deliveries && s'.deliveries[id] == s.deliveries[id])
            && (forall id | id in s'.deliveries && id !in s.deliveries :: s'.deliveries[id].leaseExpires == now + LEASE_SECONDS)
  {
    hide HasActiveRun, LiveIds;
  }

  /** New deliveries start with a full lease, and filling leaves the others alone. */
  lemma {:induction false} FillLeases(s: StoreState, d: string, g: nat, limit: nat, now: int)
    requires forall id | id in s.deliveries :: id < s.nextId
    ensures var s' := Fill(s, d, g, limit, now);
            && (forall id | id in s.deliveries :: id in s'.deliveries && s'.deliveries[id] == s.deliveries[id])
            && (forall id | id in s'.deliveries && id !in s.deliveries ::
                  s.nextId <= id && s'.deliveries[id].leaseExpires == now + LEASE_SECONDS && s'.deliveries[id].status == Pending)
    decreases |s.queue.latest|
  {
    hide Popped, IsPending, LiveIds;
    if |LiveIds(s.deliveries, d, g)| < limit {
      var excluded := ActiveResources(s.deliveries, d, g);
      var (q, item) := Popped(s.queue, d, excluded);
      var s' := s.(queue := q);
      if item.Some? {
        PopShrinks(s.queue, d, excluded);
        if item.value.resource !in s.rows || !IsPending(q.owners, s.rows[item.value.resource], d, item.value.observation) {
          FillLeases(s', d, g, limit, now);
        } else {
          FillLeases(Deliver(s', d, g, Reconcile(item.value.observation.driverRevision, s.rows[item.value.resource]), now), d, g, limit, now);
        }
      }
    }
  }

  /** Reconciliation cannot starve Runs: a claim with room finds a waiting Run first. */
  lemma RunsComeFirst(s: StoreState, d: string, g: nat, limit: nat, now: int, renewed: set<nat>, run: Option<string>,
                      waiting: string)
    requires BooksOk(s) && LegalClaim(s, d, g, limit, now, renewed, run) && Current(s.drivers, d, g)
    requires |LiveIds(s.deliveries, d, g)| < limit
    requires waiting in s.runs && s.runs[waiting].driver == d && s.runs[waiting].state in {RunQueued, RunRunning}
    ensures HasActiveRun(Claim(s, d, g, limit, now, renewed, run).0.deliveries, d, g)
  {
    hide BooksOk, Fill;
    assert Runnable(s, d, waiting);
    RenewedIsSame(s.deliveries, renewed, now, d, g);
    var s1 := s.(deliveries := Renewed(s.deliveries, renewed, now));
    forall other | other in s.deliveries ensures other < s.nextId {
      BooksBound(s, other);
    }
    var s2 := WithRun(s1, d, g, limit, now, run);
    if TakesRun(s1, d, g, limit, run) {
      assert s.nextId in LiveIds(s2.deliveries, d, g);
    }
    assert HasActiveRun(s2.deliveries, d, g);
    FillLeases(s2, d, g, limit, now);
    var id :| id in LiveIds(s2.deliveries, d, g) && s2.deliveries[id].work.Execute?;
    assert id in LiveIds(Fill(s2, d, g, limit, now).deliveries, d, g);
  }

  // ---- Acknowledgements ----

  ghost predicate AckedFor(s: StoreState, id: nat, d: string, g: nat) {
    Holds(s, id, d, g) && s.deliveries[id].status == Acked
  }

  predicate Acknowledges(e: Event, id: nat, d: string, g: nat) {
    e.Says? && e.d == d && e.generation == g && e.message.Acks? && e.message.id == id
  }

  lemma AckedByHearing(s: StoreState, d': string, g': nat, message: Message, id: nat, d: string, g: nat)
    requires BooksOk(s) && AckedFor(Hear(s, d', g', message).0, id, d, g)
    ensures AckedFor(s, id, d, g) || Acknowledges(Says(d', g', message), id, d, g)
  {
    hide BooksOk, ApplyMutations, SchedulePaths, Remember, CompletedRow, PutOrFinish, Claim;
    match message
    case Claims(limit, now, renewed, candidate) => AckedByClaim(s, d', g', limit, now, renewed, candidate, id);
    case RenewsLeases(ids, now) => RenewalExtends(s, d', g', ids, now);
    case _ =>
  }

  lemma AckedByClaim(s: StoreState, d: string, g: nat, limit: nat, now: int, renewed: set<nat>, run: Option<string>,
                     id: nat)
    requires BooksOk(s)
    ensures var s' := Claim(s, d, g, limit, now, renewed, run).0;
            id in s'.deliveries && s'.deliveries[id].status == Acked ==>
              id in s.deliveries && s'.deliveries[id].(leaseExpires := 0) == s.deliveries[id].(leaseExpires := 0)
  {
    hide BooksOk, Fill, LiveIds, HasActiveRun;
    if limit > 0 && Current(s.drivers, d, g) {
      var s1 := s.(deliveries := Renewed(s.deliveries, renewed, now));
      forall other | other in s.deliveries ensures other < s.nextId {
        BooksBound(s, other);
      }
      var s2 := WithRun(s1, d, g, limit, now, run);
      FillLeases(s2, d, g, limit, now);
    }
  }

  lemma AckedByStep(s: StoreState, e: Event, id: nat, d: string, g: nat)
    requires BooksOk(s) && AckedFor(Step(s, e).0, id, d, g)
    ensures AckedFor(s, id, d, g) || Acknowledges(e, id, d, g)
  {
    hide BooksOk, SchedulePaths, Repartitioned, Deleted, Reobserve, ScheduledAll, Hear, Projects;
    match e
    case Says(d', g', message) => AckedByHearing(s, d', g', message, id, d, g);
    case _ =>
  }

  /** Over every run, also over restarts of the Driver: a delivery is completed, and a Run
      or a batch for it goes through, only after the Driver has acknowledged this delivery
      in this generation. */
  lemma {:induction false} ServedAfterAcknowledgement(s: StoreState, es: seq<Event>, id: nat, d: string, g: nat)
    requires BooksOk(s) && AllAdmissible(s, es) && AckedFor(After(s, es), id, d, g)
    ensures AckedFor(s, id, d, g) || exists e | e in es :: Acknowledges(e, id, d, g)
  {
    hide BooksOk, Step, Admissible, AckedFor, Acknowledges;
    if es != [] {
      var front, last := es[..|es| - 1], es[|es| - 1];
      BooksOverRuns(s, front);
      AckedByStep(After(s, front), last, id, d, g);
      if !Acknowledges(last, id, d, g) {
        ServedAfterAcknowledgement(s, front, id, d, g);
      } else {
        assert last in es;
      }
    }
  }

  /** And what is served is acknowledged: the calls that act on a delivery demand it. */
  lemma ServiceNeedsAcknowledgement(s: StoreState, id: nat, request: nat, d: string, g: nat, ms: seq<Mutation>,
                                    succeeded: bool)
    requires BooksOk(s)
    ensures Complete(s, id, d, g).1 == Done ==> AckedFor(s, id, d, g)
    ensures Apply(s, id, request, d, g, ms).0 != s ==> AckedFor(s, id, d, g)
    ensures FinishRun(s, id, d, g, ms, succeeded).0 != s ==> AckedFor(s, id, d, g)
  {
    hide BooksOk, ApplyMutations, SchedulePaths, Remember, CompletedRow, PutOrFinish;
  }

  // ---- The life of a Driver ----

  /** A status a Driver may move to: a new generation begins with `Starting`, and only
      from rest; `Running` comes only from `Starting`. */
  predicate StatusMove(before: Driver, after: Driver) {
    || (after.status == before.status && after.generation == before.generation)
    || (after.generation == before.generation + 1 && after.status == Starting && after.state == RUNNING
        && (before.status == Stopped || before.status == Failed))
    || (after.generation == before.generation
        && match after.status
           case Starting => false
           case Running => before.status == Starting
           case Stopping => (before.status == Starting || before.status == Running) && after.state == STOPPED
           case Stopped => true
           case Failed => true)
  }

  lemma DriversMove(s: StoreState, e: Event, d: string)
    requires d in s.drivers && DriversOk(s.drivers)
    ensures d in Step(s, e).0.drivers && StatusMove(s.drivers[d], Step(s, e).0.drivers[d])
  {
    hide Reopened, Hear, Listings, Create, Write, Delete, UpdateDriver, StartDriver, StopDriver, DriversOk, StatusMove;
    match e
    case Says(d', g, message) => MessagesMove(s, d', g, message, d);
    case Creates(planned) => UsersLeaveDrivers(s, e, d);
    case Writes(_, _, _, _) => UsersLeaveDrivers(s, e, d);
    case Deletes(_, _) => UsersLeaveDrivers(s, e, d);
    case EnqueuesRun(_, _, _) => UsersLeaveDrivers(s, e, d);
    case Reopens(_, _) => ReopeningLeavesDrivers(s, e, d);
    case UpdatesDriver(_, _, _, _, _, _) => ReplacementMoves(s, e, d);
    case Starts(_, _, _, _) => ReplacementMoves(s, e, d);
    case Stops(_, _, _) => ReplacementMoves(s, e, d);
  }

  /** The document such a step puts in the place of a Driver's. */
  function Replaced(before: Driver, e: Event): Driver
    requires e.UpdatesDriver? || e.Starts? || e.Stops?
  {
    match e
    case UpdatesDriver(_, _, control, spec, _, _) => UpdatedDriver(before, control, spec)
    case Starts(_, _, _, _) => StartedDriver(before)
    case Stops(_, _, _) => StoppedDriver(before)
  }

  lemma ReplacementMoves(s: StoreState, e: Event, d: string)
    requires d in s.drivers && DriversOk(s.drivers) && (e.UpdatesDriver? || e.Starts? || e.Stops?)
    ensures d in Step(s, e).0.drivers && StatusMove(s.drivers[d], Step(s, e).0.drivers[d])
  {
    hide ReplaceDriver, Repartitioned, Restamped, Projects, DriversOk, StatusMove, Replaced;
    StaysPut(s.drivers[d]);
    if Step(s, e).0 != s {
      DocumentMoves(s.drivers[e.d], e);
      ReplacedDrivers(s, e);
    }
  }

  lemma StaysPut(driver: Driver)
    ensures StatusMove(driver, driver)
  {
  }

  lemma DocumentMoves(before: Driver, e: Event)
    requires e.UpdatesDriver? || e.Starts? || e.Stops?
    requires e.Starts? ==> before.status == Stopped || before.status == Failed
    ensures StatusMove(before, Replaced(before, e))
  {
  }

  lemma ReplacedDrivers(s: StoreState, e: Event)
    requires (e.UpdatesDriver? || e.Starts? || e.Stops?) && Step(s, e).0 != s
    ensures e.d in s.drivers && Step(s, e).0.drivers == s.drivers[e.d := Replaced(s.drivers[e.d], e)]
  {
    hide Repartitioned, Restamped, SchedulePaths, Projects;
  }

  lemma ReopeningLeavesDrivers(s: StoreState, e: Event, d: string)
    requires d in s.drivers && e.Reopens?
    ensures d in Step(s, e).0.drivers && StatusMove(s.drivers[d], Step(s, e).0.drivers[d])
  {
    hide ScheduledAll, Reobserve;
  }

  lemma UsersLeaveDrivers(s: StoreState, e: Event, d: string)
    requires d in s.drivers && (e.Creates? || e.Writes? || e.Deletes? || e.EnqueuesRun?)
    ensures d in Step(s, e).0.drivers && StatusMove(s.drivers[d], Step(s, e).0.drivers[d])
  {
    hide Deleted, Reobserve, SchedulePaths;
  }

  lemma MessagesMove(s: StoreState, d': string, g: nat, message: Message, d: string)
    requires d in s.drivers
    ensures var after := Hear(s, d', g, message).0; d in after.drivers && StatusMove(s.drivers[d], after.drivers[d])
  {
    hide SchedulePaths, ApplyMutations, Remember, CompletedRow, PutOrFinish, Claim;
    match message
    case Claims(limit, now, renewed, candidate) => ClaimDrivers(s, d', g, limit, now, renewed, candidate);
    case RenewsLeases(ids, now) => RenewDrivers(s, d', g, ids, now);
    case _ =>
  }
}
