/** What happens at most once: a batch of mutations, and the end of a Run. */
module History {
  import opened Wrappers
  import opened Resources
  import opened Queue
  import opened Control
  import opened Invariants
  import opened Bookkeeping
  import opened Safety

  // ---- Mutation batches ----

  /** The delivery, request and generation of the batch a step put into effect. */
  ghost function Effect(s: StoreState, e: Event): Option<(nat, nat, nat)> {
    match e
    case Says(d, g, Mutates(id, request, ms)) =>
      if (id, request) !in s.results && Step(s, e).1.Replied? then Some((id, request, g)) else None
    case Says(d, g, FinishesRun(id, ms, succeeded)) =>
      if Step(s, e).1.Replied? then Some((id, id, g)) else None
    case _ => None
  }

  /** A batch takes effect only if it never did before, and then it is recorded; a batch
      answered from the cache, or refused, leaves the whole store as it was. */
  lemma EffectIsNew(s: StoreState, e: Event)
    requires BooksOk(s)
    ensures Effect(s, e).Some? ==> Effect(s, e).value !in s.commits && Step(s, e).0.commits == s.commits + {Effect(s, e).value}
    ensures Effect(s, e).None? ==> Step(s, e).0.commits == s.commits
    ensures Effect(s, e).None? && e.Says? && (e.message.Mutates? || e.message.FinishesRun?) ==> Step(s, e).0 == s
  {
    hide DeliveriesOk, ApplyMutations, SchedulePaths, Remember, CompletedRow, PutOrFinish, Repartitioned, Restamped,
      Deleted, Reobserve, ScheduledAll, Claim;
    match e
    case Says(d, g, Mutates(id, request, ms)) =>
      BatchIsNew(s, id, request, d, g, ms);
    case Says(d, g, FinishesRun(id, ms, succeeded)) =>
      if (id, id, g) in s.commits {
        assert CommitOk(s, id, id, g);
      }
      RefusalsAreNotReplies(TablesOf(s), s.registry, s.drivers, d, g, ms);
    case Says(d, g, Claims(limit, now, renewed, candidate)) =>
      ClaimDrivers(s, d, g, limit, now, renewed, candidate);
    case Says(d, g, RenewsLeases(ids, now)) =>
      RenewOnlyLeases(s, d, g, ids, now);
    case _ =>
  }

  lemma BatchIsNew(s: StoreState, id: nat, request: nat, d: string, g: nat, ms: seq<Mutation>)
    requires BooksOk(s)
    ensures var (s', reply) := Apply(s, id, request, d, g, ms);
            if (id, request) !in s.results && reply.Replied?
            then (id, request, g) !in s.commits && s'.commits == s.commits + {(id, request, g)}
            else s' == s
  {
    hide DeliveriesOk, CachesOk, ApplyMutations, SchedulePaths;
    if (id, request, g) in s.commits {
      assert CommitOk(s, id, request, g);
    }
    if ApplyMutations(TablesOf(s), s.registry, s.drivers, d, g, ms).Rejected? {
      RefusalsAreNotReplies(TablesOf(s), s.registry, s.drivers, d, g, ms);
    }
  }

  lemma {:induction false} RefusalsAreNotReplies(t: Tables, registry: seq<string>, drivers: map<string, Driver>,
                                                 d: string, g: nat, ms: seq<Mutation>)
    ensures var outcome := ApplyMutations(t, registry, drivers, d, g, ms); outcome.Rejected? ==> !outcome.reply.Replied?
  {
    hide Deleted, PutOrFinish, Reobserve;
    if ms != [] {
      RefusalsAreNotReplies(t, registry, drivers, d, g, ms[..|ms| - 1]);
    }
  }

  lemma {:induction false} RenewOnlyLeases(s: StoreState, d: string, g: nat, ids: seq<nat>, now: int)
    ensures var s' := RenewLeases(s, d, g, ids, now).0; s'.commits == s.commits && s'.runs == s.runs
  {
    if ids != [] {
      RenewOnlyLeases(s, d, g, ids[..|ids| - 1], now);
    }
  }

  /** The batches that took effect during a run, in order. */
  ghost function Effects(s: StoreState, es: seq<Event>): seq<(nat, nat, nat)> {
    if es == [] then []
    else
      var effect := Effect(After(s, es[..|es| - 1]), es[|es| - 1]);
      Effects(s, es[..|es| - 1]) + (if effect.Some? then [effect.value] else [])
  }

  lemma {:induction false} EffectsAreCommits(s: StoreState, es: seq<Event>)
    requires BooksOk(s) && AllAdmissible(s, es)
    ensures forall effect :: effect in After(s, es).commits <==> effect in s.commits || effect in Effects(s, es)
    ensures forall effect | effect in Effects(s, es) :: effect !in s.commits
    ensures forall i, j | 0 <= i < j < |Effects(s, es)| :: Effects(s, es)[i] != Effects(s, es)[j]
  {
    hide BooksOk, Step, Admissible, Effect;
    if es != [] {
      var front := es[..|es| - 1];
      EffectsAreCommits(s, front);
      BooksOverRuns(s, front);
      EffectIsNew(After(s, front), es[|es| - 1]);
    }
  }

  /** Mutations commit at most once for each delivery, request and generation, over any
      run, whatever is sent again; a client that uses the id of the delivery as the id of
      its request commits at most once for each delivery and generation. */
  lemma MutationsCommitAtMostOnce(s: StoreState, es: seq<Event>, i: nat, j: nat)
    requires BooksOk(s) && AllAdmissible(s, es)
    requires i < j < |Effects(s, es)|
    ensures Effects(s, es)[i] != Effects(s, es)[j]
    ensures var a, b := Effects(s, es)[i], Effects(s, es)[j];
            a.0 == a.1 && b.0 == b.1 ==> a.0 != b.0 || a.2 != b.2
  {
    hide BooksOk, After, AllAdmissible, Effects;
    EffectsAreCommits(s, es);
  }

  /** The cache of completed deliveries: as many as are listed, at most 4096, none live. */
  lemma CompletedCacheIsBounded(s: StoreState, es: seq<Event>)
    requires BooksOk(s) && AllAdmissible(s, es)
    ensures var s' := After(s, es);
            && (forall id :: id in s'.completed <==> id in s'.completedOrder)
            && |s'.completed| == |s'.completedOrder| <= COMPLETED_CACHE_SIZE
            && s'.completed !! s'.deliveries.Keys
  {
    hide After, AllAdmissible, DeliveriesOk, HistoryOk;
    BooksOverRuns(s, es);
    DistinctCount(After(s, es).completed, After(s, es).completedOrder);
  }

  lemma {:induction false} DistinctCount(ids: set<nat>, order: seq<nat>)
    requires forall id :: id in ids <==> id in order
    requires forall i, j | 0 <= i < j < |order| :: order[i] != order[j]
    ensures |ids| == |order|
  {
    if order == [] {
      assert ids == {};
    } else {
      assert forall id :: id in order[1..] <==> id in order && id != order[0];
      DistinctCount(ids - {order[0]}, order[1..]);
    }
  }

  // ---- Runs ----

  predicate Terminal(run: Run) {
    run.state == RunSucceeded || run.state == RunFailed
  }

  /** The three things that happen to Runs: they are enqueued, claimed, or finished. */
  ghost predicate RunStep(s: StoreState, e: Event, r: string, s': StoreState) {
    r in s'.runs ==>
      || (r in s.runs && s'.runs[r] == s.runs[r])
      || (r !in s.runs && e.EnqueuesRun? && e.run == r && s'.runs[r] == Run(e.d, e.target, None, RunQueued))
      || (e.Says? && e.message.Claims? && Runnable(s, e.d, r)
          && s'.runs[r] == s.runs[r].(generation := Some(e.generation), state := RunRunning))
      || (e.Says? && e.message.FinishesRun? && r in s.runs && Holds(s, e.message.id, e.d, e.generation)
          && s.deliveries[e.message.id].work == Execute(r) && Executes(s.runs[r], s.deliveries[e.message.id])
          && s'.runs[r] == s.runs[r].(state := if e.message.succeeded then RunSucceeded else RunFailed))
  }

  lemma RunsStep(s: StoreState, e: Event, r: string)
    ensures RunStep(s, e, r, Step(s, e).0)
  {
    hide ApplyMutations, SchedulePaths, Remember, CompletedRow, PutOrFinish, Deleted, Reobserve, Repartitioned, Restamped, ScheduledAll, Claim, Owned;
    match e
    case Deletes(path, _) =>
      if path in s.rows {
        TransactionTables(TablesOf(s), s.drivers, s.rows[path]);
      }
    case Says(d, g, message) => RunsHear(s, d, g, message, r);
    case _ =>
  }

  lemma RunsHear(s: StoreState, d: string, g: nat, message: Message, r: string)
    ensures RunStep(s, Says(d, g, message), r, Hear(s, d, g, message).0)
  {
    hide ApplyMutations, SchedulePaths, Remember, CompletedRow, PutOrFinish, Claim;
    match message
    case Claims(limit, now, renewed, candidate) => ClaimRuns(s, d, g, limit, now, renewed, candidate, r);
    case RenewsLeases(ids, now) => RenewOnlyLeases(s, d, g, ids, now);
    case Mutates(id, request, ms) => MutationsKeepRuns(TablesOf(s), s.registry, s.drivers, d, g, ms);
    case FinishesRun(id, ms, succeeded) => MutationsKeepRuns(TablesOf(s), s.registry, s.drivers, d, g, ms);
    case Completes(id) =>
      if id in s.deliveries && s.deliveries[id].work.Reconcile? {
        var work := s.deliveries[id].work;
        if work.resource.path in s.rows {
          TransactionTables(TablesOf(s), s.drivers, CompletedRow(s.drivers, s.rows[work.resource.path], d, ObservationOf(work)));
        }
      }
    case _ =>
  }

  lemma ClaimRuns(s: StoreState, d: string, g: nat, limit: nat, now: int, renewed: set<nat>,
                  candidate: Option<string>, r: string)
    ensures var s' := Claim(s, d, g, limit, now, renewed, candidate).0;
            r in s'.runs ==>
              && r in s.runs
              && (s'.runs[r] == s.runs[r]
                  || (Runnable(s, d, r) && s'.runs[r] == s.runs[r].(generation := Some(g), state := RunRunning)))
  {
    hide Fill, LiveIds, HasActiveRun;
    if limit > 0 && Current(s.drivers, d, g) {
      var s1 := s.(deliveries := Renewed(s.deliveries, renewed, now));
      var s2 := WithRun(s1, d, g, limit, now, candidate);
      FillFrame(s2, d, g, limit, now);
    }
  }

  /** A Run comes to an end only through the live delivery, the Driver and the
      generation recorded in it, and only while it is running. */
  lemma RunEndsByItsDelivery(s: StoreState, e: Event, r: string)
    requires BooksOk(s) && r in s.runs && r in Step(s, e).0.runs
    requires Terminal(Step(s, e).0.runs[r]) && Step(s, e).0.runs[r] != s.runs[r]
    ensures e.Says? && e.message.FinishesRun? && e.message.id in s.deliveries
    ensures s.deliveries[e.message.id].work == Execute(r) && s.runs[r].state == RunRunning
    ensures s.runs[r].driver == e.d && s.runs[r].generation == Some(e.generation) && s.drivers[e.d].generation == e.generation
    ensures Step(s, e).0.runs[r].state == if e.message.succeeded then RunSucceeded else RunFailed
  {
    hide Step, CachesOk, HistoryOk;
    RunsStep(s, e, r);
    assert DeliveryOk(s, e.message.id);
  }

  /** A Run that came to an end stays as it ended, until it is removed. */
  lemma TerminalStays(s: StoreState, e: Event, r: string)
    requires BooksOk(s) && r in s.runs && Terminal(s.runs[r]) && r in Step(s, e).0.runs
    ensures Step(s, e).0.runs[r] == s.runs[r]
  {
    hide Step, CachesOk, HistoryOk;
    RunsStep(s, e, r);
    if e.Says? && e.message.FinishesRun? && e.message.id in s.deliveries {
      assert DeliveryOk(s, e.message.id);
    }
  }

  ghost predicate Remains(s: StoreState, es: seq<Event>, r: string) {
    r in After(s, es).runs && (es != [] ==> Remains(s, es[..|es| - 1], r))
  }

  /** So a Run ends at most once, over any run of the store. */
  lemma {:induction false} TerminalForever(s: StoreState, es: seq<Event>, r: string)
    requires BooksOk(s) && AllAdmissible(s, es) && Remains(s, es, r) && r in s.runs && Terminal(s.runs[r])
    ensures After(s, es).runs[r] == s.runs[r]
  {
    hide BooksOk, Step, Admissible, Terminal;
    if es != [] {
      TerminalForever(s, es[..|es| - 1], r);
      BooksOverRuns(s, es[..|es| - 1]);
      TerminalStays(After(s, es[..|es| - 1]), es[|es| - 1], r);
    }
  }

  /** Only a queued or running Run is ever handed to a Driver, and only to its own. */
  lemma OnlyRunnableRunsAreClaimed(s: StoreState, d: string, g: nat, limit: nat, now: int, renewed: set<nat>,
                                   candidate: Option<string>, id: nat)
    requires BooksOk(s)
    requires var s' := Claim(s, d, g, limit, now, renewed, candidate).0;
             id in s'.deliveries && id !in s.deliveries && s'.deliveries[id].work.Execute?
    ensures var s' := Claim(s, d, g, limit, now, renewed, candidate).0;
            && s'.deliveries[id].work.run in s.runs
            && s.runs[s'.deliveries[id].work.run].driver == d && s.runs[s'.deliveries[id].work.run].state in {RunQueued, RunRunning}
            && s'.deliveries[id].driver == d && s'.deliveries[id].generation == g == s.drivers[d].generation
  {
    hide Fill, LiveIds, HasActiveRun, BooksOk;
    var s1 := s.(deliveries := Renewed(s.deliveries, renewed, now));
    var s2 := WithRun(s1, d, g, limit, now, candidate);
    FillReconciles(s2, d, g, limit, now, id);
  }

  lemma {:induction false} FillReconciles(s: StoreState, d: string, g: nat, limit: nat, now: int, id: nat)
    requires id in Fill(s, d, g, limit, now).deliveries
    ensures (id in s.deliveries && Fill(s, d, g, limit, now).deliveries[id] == s.deliveries[id])
            || Fill(s, d, g, limit, now).deliveries[id].work.Reconcile?
    decreases |s.queue.latest|
  {
    hide Popped, IsPending, LiveIds;
    if |LiveIds(s.deliveries, d, g)| < limit {
      var excluded := ActiveResources(s.deliveries, d, g);
      var (q, item) := Popped(s.queue, d, excluded);
      var s' := s.(queue := q);
      if item.Some? {
        PopShrinks(s.queue, d, excluded);
        if item.value.resource !in s.rows || !IsPending(q.owners, s.rows[item.value.resource], d, item.value.observation) {
          FillReconciles(s', d, g, limit, now, id);
        } else {
          FillReconciles(Deliver(s', d, g, Reconcile(item.value.observation.driverRevision, s.rows[item.value.resource]), now), d, g, limit, now, id);
        }
      }
    }
  }
}
