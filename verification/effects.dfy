/** What the calls of the store leave behind, read off its tables. */
module Effects {
  import opened Wrappers
  import opened Paths
  import opened Resources
  import opened Partitions
  import opened Queue
  import opened Control
  import opened Invariants
  import opened Bookkeeping
  import opened Claims
  import opened Safety
  import opened History

  // ---- Documents ----

  /** A document without the observations in it. */
  datatype Paper = Paper(metadata: Metadata, spec: Json)

  function PaperOf(document: Document): Paper {
    Paper(document.metadata, document.spec)
  }

  ghost predicate OthersSame(rows: map<string, Resource>, rows': map<string, Resource>, path: string) {
    forall p | p != path :: (p in rows' <==> p in rows) && (p in rows ==> rows'[p] == rows[p])
  }

  /** Creating stores both documents as given, in their first revision, observed by nobody. */
  lemma CreatedIsStored(s: StoreState, planned: Planned)
    ensures var (s', reply) := Create(s, planned);
            if planned.manifest !in s.registry then s' == s && reply == NotFound
            else if planned.path in s.rows then s' == s && reply == Conflict
            else
              && reply == Done && OthersSame(s.rows, s'.rows, planned.path) && s'.runs == s.runs && s'.deliveries == s.deliveries
              && planned.path in s'.rows
              && var row := s'.rows[planned.path];
                 var metadata := Metadata(planned.manifest, planned.name, planned.state, 0, 0, false, planned.managedBy, planned.package,
                                          planned.packageRevision);
              && row.path == planned.path
              && PaperOf(row.desired) == Paper(metadata, planned.spec)
              && PaperOf(row.status) == Paper(metadata.(state := planned.statusState), planned.statusSpec)
              && row.status.observed == map[]
  {
    hide Expected, SchedulePath;
  }

  /** A write stores the state, if one is given, and the specification in the next revision;
      the status is left alone. */
  lemma WrittenIsStored(s: StoreState, path: string, expectedRevision: nat, state: Option<string>, spec: Json)
    requires Keyed(s.rows)
    ensures var (s', reply) := Write(s, path, expectedRevision, state, spec);
            if path !in s.rows then s' == s && reply == NotFound
            else
              var before := s.rows[path];
              if before.desired.metadata.revision != expectedRevision || before.desired.metadata.isProtected then
                s' == s && reply == Conflict
              else
                && reply == Done && OthersSame(s.rows, s'.rows, path) && s'.runs == s.runs && s'.deliveries == s.deliveries
                && path in s'.rows && s'.rows[path].path == path
                && PaperOf(s'.rows[path].desired)
                   == Paper(before.desired.metadata.(state := if state.Some? then state.value else before.desired.metadata.state,
                                                     revision := expectedRevision + 1), spec)
                && PaperOf(s'.rows[path].status) == PaperOf(before.status)
  {
    hide Expected, SchedulePath;
  }

  /** What a deletion makes of the row. */
  ghost predicate DeletedAsAsked(t: Tables, t': Tables, drivers: map<string, Driver>, path: string)
    requires path in t.rows
  {
    var before := t.rows[path];
    var deleted := Paper(before.desired.metadata.(state := "deleted", revision := before.desired.metadata.revision + 1),
                         before.desired.spec);
    && OthersSame(t.rows, t'.rows, path)
    && if exists d :: d in drivers && Manages(drivers[d], before.desired.metadata.manifest) then
         && t'.runs == t.runs && path in t'.rows && t'.rows[path].path == path
         && PaperOf(t'.rows[path].desired) == deleted && PaperOf(t'.rows[path].status) == PaperOf(before.status)
       else if forall d | d in before.desired.observed ::
              d in before.status.observed && before.status.observed[d] == before.desired.observed[d] then
         && path !in t'.rows
         && forall run ::
              (run in t'.runs <==> run in t.runs && t.runs[run].resource != path) && (run in t'.runs ==> t'.runs[run] == t.runs[run])
       else
         && t'.runs == t.runs && path in t'.rows && t'.rows[path].path == path
         && PaperOf(t'.rows[path].desired) == deleted && PaperOf(t'.rows[path].status) == deleted
  }

  lemma DeletedIsMarked(t: Tables, drivers: map<string, Driver>, path: string)
    requires path in t.rows && t.rows[path].path == path
    ensures DeletedAsAsked(t, Deleted(t, drivers, t.rows[path]), drivers, path)
  {
    hide Expected, Manages;
  }

  lemma DeletionIsStored(s: StoreState, path: string, expectedRevision: nat)
    requires Keyed(s.rows)
    ensures var (s', reply) := Delete(s, path, expectedRevision);
            if path !in s.rows then s' == s && reply == NotFound
            else if s.rows[path].desired.metadata.revision != expectedRevision || s.rows[path].desired.metadata.isProtected then
              s' == s && reply == Conflict
            else reply == Done && DeletedAsAsked(TablesOf(s), TablesOf(s'), s.drivers, path) && s'.deliveries == s.deliveries
  {
    hide DeletedAsAsked, Deleted, SchedulePath;
    if path in s.rows {
      DeletedIsMarked(TablesOf(s), s.drivers, path);
    }
  }

  /** What a mutation of a Driver stores, and what it is answered: the documents as it made
      them. A creation, an update and a deletion do what the call of a user does, whether the
      Resource is protected or not; a report is for the running owner in the current revision. */
  lemma MutationIsStored(t: Tables, registry: seq<string>, drivers: map<string, Driver>, d: string, g: nat, m: Mutation)
    requires Keyed(t.rows)
    ensures var outcome := ApplyMutation(t, registry, drivers, d, g, m);
            match m
            case CreateResource(planned) =>
              (match outcome
               case Rejected(reply) =>
                 if planned.manifest !in registry then reply == NotFound else reply == Conflict && planned.path in t.rows
               case Committed(t', results) =>
                 && planned.manifest in registry && planned.path !in t.rows
                 && t'.runs == t.runs && OthersSame(t.rows, t'.rows, planned.path)
                 && planned.path in t'.rows && |results| == 1 && results[0].path == planned.path
                 && PaperOf(t'.rows[planned.path].desired) == PaperOf(results[0].desired)
                 && PaperOf(t'.rows[planned.path].status) == PaperOf(results[0].status)
                 && results[0].desired.spec == planned.spec && results[0].status.spec == planned.statusSpec
                 && results[0].desired.metadata.state == planned.state && results[0].status.metadata.state == planned.statusState
                 && results[0].desired.metadata.manifest == planned.manifest)
            case UpdateResource(path, expectedRevision, state, spec) =>
              (match outcome
               case Rejected(reply) =>
                 if path !in t.rows then reply == NotFound
                 else reply == Conflict && t.rows[path].desired.metadata.revision != expectedRevision
               case Committed(t', results) =>
                 && path in t.rows && t.rows[path].desired.metadata.revision == expectedRevision
                 && t'.runs == t.runs && OthersSame(t.rows, t'.rows, path) && path in t'.rows
                 && |results| == 1 && results[0].path == path && PaperOf(t'.rows[path].desired) == PaperOf(results[0].desired)
                 && PaperOf(t'.rows[path].desired)
                    == Paper(t.rows[path].desired.metadata.(state := if state.Some? then state.value else t.rows[path].desired.metadata.state,
                                                            revision := expectedRevision + 1), spec)
                 && PaperOf(t'.rows[path].status) == PaperOf(t.rows[path].status) == PaperOf(results[0].status))
            case DeleteResource(path, expectedRevision) =>
              (match outcome
               case Rejected(reply) =>
                 if path !in t.rows then reply == NotFound
                 else reply == Conflict && t.rows[path].desired.metadata.revision != expectedRevision
               case Committed(t', results) =>
                 && path in t.rows && t.rows[path].desired.metadata.revision == expectedRevision
                 && DeletedAsAsked(t, t', drivers, path)
                 && |results| == 1 && results[0].path == path && results[0].desired.metadata.state == "deleted"
                 && (path in t'.rows ==> PaperOf(t'.rows[path].desired) == PaperOf(results[0].desired)
                                         && PaperOf(t'.rows[path].status) == PaperOf(results[0].status)))
            case UpdateResourceStatus(path, expectedRevision, state, spec) =>
              (match outcome
               case Rejected(reply) =>
                 if !Current(drivers, d, g) then reply == Conflict
                 else if path !in t.rows then reply == NotFound
                 else
                   && reply == Conflict
                   && (!Owns(drivers, d, t.rows[path].Manifest()) || t.rows[path].desired.metadata.revision != expectedRevision)
               case Committed(t', results) =>
                 && path in t.rows && Current(drivers, d, g) && Owns(drivers, d, t.rows[path].Manifest())
                 && t.rows[path].desired.metadata.revision == expectedRevision && OthersSame(t.rows, t'.rows, path)
                 && |results| == 1 && results[0].path == path && PaperOf(results[0].desired) == PaperOf(t.rows[path].desired)
                 && PaperOf(results[0].status) == Paper(t.rows[path].desired.metadata.(state := state), spec)
                 && (path in t'.rows ==> t'.rows[path] == results[0] && t'.runs == t.runs)
                 && (path !in t'.rows <==>
                       && state == "deleted" && t.rows[path].desired.metadata.state == "deleted"
                       && forall e | e in t.rows[path].desired.observed ::
                            e in t.rows[path].status.observed && t.rows[path].status.observed[e] == t.rows[path].desired.observed[e]))
  {
    hide Expected, DeletedAsAsked, Owns;
    match m
    case DeleteResource(path, _) => if path in t.rows { DeletedIsMarked(t, drivers, path); }
    case CreateResource(_) =>
    case UpdateResource(_, _, _, _) =>
    case UpdateResourceStatus(_, _, _, _) =>
  }

  // ---- Documents stand ----

  /** The mutation may change what is desired of the Resource, or make it anew. */
  predicate MutationDesires(m: Mutation, p: string) {
    match m
    case CreateResource(planned) => planned.path == p
    case UpdateResource(path, _, _, _) => path == p
    case DeleteResource(path, _) => path == p
    case UpdateResourceStatus(_, _, _, _) => false
  }

  /** The mutation may change what is reported of it. */
  predicate MutationReports(m: Mutation, p: string) {
    match m
    case CreateResource(planned) => planned.path == p
    case UpdateResource(_, _, _, _) => false
    case DeleteResource(path, _) => path == p
    case UpdateResourceStatus(path, _, _, _) => path == p
  }

  predicate Desires(e: Event, p: string) {
    match e
    case Creates(planned) => planned.path == p
    case Writes(path, _, _, _) => path == p
    case Deletes(path, _) => path == p
    case Says(_, _, Mutates(_, _, ms)) => exists m | m in ms :: MutationDesires(m, p)
    case Says(_, _, FinishesRun(_, ms, _)) => exists m | m in ms :: MutationDesires(m, p)
    case _ => false
  }

  predicate Reports(e: Event, p: string) {
    match e
    case Creates(planned) => planned.path == p
    case Deletes(path, _) => path == p
    case Says(_, _, Mutates(_, _, ms)) => exists m | m in ms :: MutationReports(m, p)
    case Says(_, _, FinishesRun(_, ms, _)) => exists m | m in ms :: MutationReports(m, p)
    case _ => false
  }

  /** The row is gone, or says what it said. */
  predicate DesiredStands(rows: map<string, Resource>, rows': map<string, Resource>, p: string) {
    p in rows' ==> p in rows && PaperOf(rows'[p].desired) == PaperOf(rows[p].desired)
  }

  predicate ReportStands(rows: map<string, Resource>, rows': map<string, Resource>, p: string) {
    p in rows' ==>
      p in rows && rows'[p].status.spec == rows[p].status.spec && rows'[p].status.metadata.state == rows[p].status.metadata.state
  }

  lemma MutationStands(t: Tables, registry: seq<string>, drivers: map<string, Driver>, d: string, g: nat, m: Mutation,
                       p: string)
    requires Keyed(t.rows)
    ensures var outcome := ApplyMutation(t, registry, drivers, d, g, m);
            outcome.Committed? ==>
              && (!MutationDesires(m, p) ==> DesiredStands(t.rows, outcome.tables.rows, p))
              && (!MutationReports(m, p) ==> ReportStands(t.rows, outcome.tables.rows, p))
  {
    hide ApplyMutation, Owns, Current;
    MutationIsStored(t, registry, drivers, d, g, m);
  }

  lemma {:induction false} MutationsStand(t: Tables, registry: seq<string>, drivers: map<string, Driver>, d: string,
                                          g: nat, ms: seq<Mutation>, p: string)
    requires Keyed(t.rows)
    ensures var outcome := ApplyMutations(t, registry, drivers, d, g, ms);
            outcome.Committed? ==>
              && ((forall m | m in ms :: !MutationDesires(m, p)) ==> DesiredStands(t.rows, outcome.tables.rows, p))
              && ((forall m | m in ms :: !MutationReports(m, p)) ==> ReportStands(t.rows, outcome.tables.rows, p))
  {
    hide ApplyMutation, Keyed, MutationDesires, MutationReports, PaperOf;
    if ms != [] {
      var front, last := ms[..|ms| - 1], ms[|ms| - 1];
      assert last in ms && forall m | m in front :: m in ms;
      MutationsStand(t, registry, drivers, d, g, front, p);
      MutationsKeepRuns(t, registry, drivers, d, g, front);
      var first := ApplyMutations(t, registry, drivers, d, g, front);
      if first.Committed? {
        MutationStands(first.tables, registry, drivers, d, g, last, p);
      }
    }
  }

  lemma CompletionStands(s: StoreState, id: nat, d: string, g: nat, p: string)
    requires Keyed(s.rows)
    ensures var s' := Complete(s, id, d, g).0; DesiredStands(s.rows, s'.rows, p) && ReportStands(s.rows, s'.rows, p)
  {
    hide SchedulePaths, Remember, CompletedRow, Finished;
    if id in s.deliveries && s.deliveries[id].work.Reconcile? && s.deliveries[id].work.resource.path in s.rows {
      var work := s.deliveries[id].work;
      CompletedPapers(s.drivers, s.rows[work.resource.path], d, ObservationOf(work));
    }
  }

  lemma CompletedPapers(drivers: map<string, Driver>, row: Resource, d: string, observation: Observation)
    ensures var done := CompletedRow(drivers, row, d, observation);
            && done.path == row.path && PaperOf(done.desired) == PaperOf(row.desired)
            && done.status.spec == row.status.spec && done.status.metadata.state == row.status.metadata.state
  {
    hide Expected, Owns;
  }

  lemma HearingStands(s: StoreState, d: string, g: nat, message: Message, p: string)
    requires Keyed(s.rows)
    ensures var s' := Hear(s, d, g, message).0;
            && (!Desires(Says(d, g, message), p) ==> DesiredStands(s.rows, s'.rows, p))
            && (!Reports(Says(d, g, message), p) ==> ReportStands(s.rows, s'.rows, p))
  {
    hide ApplyMutations, SchedulePaths, Remember, PutOrFinish, Claim, Complete;
    match message
    case Claims(limit, now, renewed, candidate) => ClaimDrivers(s, d, g, limit, now, renewed, candidate);
    case RenewsLeases(ids, now) => RenewLeasesSameWorks(s, d, g, ids, now);
    case Mutates(id, request, ms) => MutationsStand(TablesOf(s), s.registry, s.drivers, d, g, ms, p);
    case FinishesRun(id, ms, succeeded) => MutationsStand(TablesOf(s), s.registry, s.drivers, d, g, ms, p);
    case Completes(id) => CompletionStands(s, id, d, g, p);
    case _ =>
  }

  lemma StepStands(s: StoreState, e: Event, p: string)
    requires Keyed(s.rows)
    ensures !Desires(e, p) ==> DesiredStands(s.rows, Step(s, e).0.rows, p)
    ensures !Reports(e, p) ==> ReportStands(s.rows, Step(s, e).0.rows, p)
  {
    hide Create, Write, Delete, Hear, UpdateDriver, StartDriver, StopDriver, ScheduledAll, Expected, DeletedAsAsked;
    match e
    case Creates(planned) => CreatedIsStored(s, planned);
    case Writes(path, expectedRevision, state, spec) => WrittenIsStored(s, path, expectedRevision, state, spec);
    case Deletes(path, expectedRevision) => DeletionStands(s, path, expectedRevision, p);
    case UpdatesDriver(_, _, _, _, _, _) => ReplacementDocuments(s, e);
    case Starts(_, _, _, _) => ReplacementDocuments(s, e);
    case Stops(_, _, _) => ReplacementDocuments(s, e);
    case Says(d, g, message) => HearingStands(s, d, g, message, p);
    case _ =>
  }

  lemma DeletionStands(s: StoreState, path: string, expectedRevision: nat, p: string)
    requires Keyed(s.rows)
    ensures p != path ==>
              var rows := Delete(s, path, expectedRevision).0.rows;
              DesiredStands(s.rows, rows, p) && ReportStands(s.rows, rows, p)
  {
    hide Delete;
    DeletionIsStored(s, path, expectedRevision);
  }

  /** Over every run: what is desired of a Resource changes through writes, deletions and
      mutations of it only, and what is reported of it through reports, deletions and
      creations only; nothing else that happens, no claim, completion, restart or reopening,
      touches either, as long as the row is there. */
  lemma {:induction false} DocumentsStand(s: StoreState, es: seq<Event>, p: string)
    requires BooksOk(s) && AllAdmissible(s, es)
    ensures (forall e | e in es :: !Desires(e, p)) ==> DesiredStands(s.rows, After(s, es).rows, p)
    ensures (forall e | e in es :: !Reports(e, p)) ==> ReportStands(s.rows, After(s, es).rows, p)
  {
    hide BooksOk, Step, Admissible, Desires, Reports, PaperOf;
    if es != [] {
      var front, last := es[..|es| - 1], es[|es| - 1];
      assert last in es && forall e | e in front :: e in es;
      DocumentsStand(s, front, p);
      BooksOverRuns(s, front);
      RowsAreKeyed(After(s, front));
      StepStands(After(s, front), last, p);
    }
  }

  /** So the last write stands: until somebody else writes, deletes or recreates the Resource,
      it asks for what was written. */
  lemma LastWriteStands(s: StoreState, path: string, expectedRevision: nat, state: Option<string>, spec: Json,
                        es: seq<Event>)
    requires BooksOk(s) && Write(s, path, expectedRevision, state, spec).1 == Done
    requires AllAdmissible(Write(s, path, expectedRevision, state, spec).0, es) && forall e | e in es :: !Desires(e, path)
    ensures var later := After(Write(s, path, expectedRevision, state, spec).0, es);
            path in later.rows ==>
              && path in s.rows && later.rows[path].desired.spec == spec
              && later.rows[path].desired.metadata
                 == s.rows[path].desired.metadata.(state := if state.Some? then state.value else s.rows[path].desired.metadata.state,
                                                   revision := s.rows[path].desired.metadata.revision + 1)
  {
    hide BooksOk, Write, After, AllAdmissible, Desires;
    RowsAreKeyed(s);
    WrittenIsStored(s, path, expectedRevision, state, spec);
    WriteBooks(s, path, expectedRevision, state, spec);
    DocumentsStand(Write(s, path, expectedRevision, state, spec).0, es, path);
  }

  // ---- Runs ----

  /** Over every run: a Run that ended, ended as its own Driver said it did. */
  lemma {:induction false} EndedAsReported(s: StoreState, es: seq<Event>, r: string)
    requires r in After(s, es).runs && Terminal(After(s, es).runs[r]) && !(r in s.runs && Terminal(s.runs[r]))
    ensures exists k :: 0 <= k < |es| && es[k].Says? && es[k].message.FinishesRun? && es[k].d == After(s, es).runs[r].driver
                        && (After(s, es).runs[r].state == RunSucceeded <==> es[k].message.succeeded)
                        && (After(s, es).runs[r].state == RunFailed <==> !es[k].message.succeeded)
  {
    hide Step;
    if es != [] {
      var front, last := es[..|es| - 1], es[|es| - 1];
      var before := After(s, front);
      RunsStep(before, last, r);
      if r in before.runs && before.runs[r] == After(s, es).runs[r] {
        EndedAsReported(s, front, r);
        var k :| 0 <= k < |front| && front[k].Says? && front[k].message.FinishesRun? && front[k].d == After(s, es).runs[r].driver
                 && (After(s, es).runs[r].state == RunSucceeded <==> front[k].message.succeeded)
                 && (After(s, es).runs[r].state == RunFailed <==> !front[k].message.succeeded);
        assert es[k] == front[k];
      } else {
        assert es[|es| - 1] == last;
      }
    }
  }

  /** And what a Driver says is done: the Run it was handed in this generation ends as it
      says, with the mutations before it, and its delivery is over. It is refused, and nothing
      happens, exactly if the delivery is not its own acknowledged one for a Run, if a mutation
      is refused, or if the Run is gone or in other hands. */
  lemma FinishingEnds(s: StoreState, id: nat, d: string, g: nat, ms: seq<Mutation>, succeeded: bool)
    ensures var (s', reply) := FinishRun(s, id, d, g, ms, succeeded);
            if id !in s.deliveries then s' == s && reply == NotFound
            else if !(Holds(s, id, d, g) && s.deliveries[id].work.Execute? && s.deliveries[id].status == Acked) then
              s' == s && reply == Conflict
            else
              var run := s.deliveries[id].work.run;
              var outcome := ApplyMutations(TablesOf(s), s.registry, s.drivers, d, g, ms);
              if outcome.Rejected? then s' == s && reply == outcome.reply
              else if run !in outcome.tables.runs then s' == s && reply == NotFound
              else if outcome.tables.runs[run].driver != d || outcome.tables.runs[run].generation != Some(g) then
                s' == s && reply == Conflict
              else
                && reply == Replied(outcome.results) && s'.rows == outcome.tables.rows
                && s'.runs == outcome.tables.runs[run := outcome.tables.runs[run].(state := if succeeded then RunSucceeded else RunFailed)]
                && s'.deliveries == s.deliveries - {id} && run in s.runs && s.runs[run] == outcome.tables.runs[run]
    ensures FinishRun(s, id, d, g, ms, succeeded).1.Replied? || FinishRun(s, id, d, g, ms, succeeded).0 == s
  {
    hide ApplyMutations, SchedulePaths, Remember;
    MutationsKeepRuns(TablesOf(s), s.registry, s.drivers, d, g, ms);
    RefusalsAreNotReplies(TablesOf(s), s.registry, s.drivers, d, g, ms);
  }

  /** A Run is enqueued for the manager of its target, to be claimed by it. */
  lemma EnqueuedWaits(s: StoreState, run: string, target: string, d: string)
    ensures var (s', reply) := EnqueueRun(s, run, target, d);
            if !(target in s.rows && d in s.drivers && Manages(s.drivers[d], s.rows[target].desired.metadata.manifest)) then
              s' == s && reply == NotFound
            else if run in s.runs then s' == s && reply == Conflict
            else reply == Done && s' == s.(runs := s.runs[run := Run(d, target, None, RunQueued)]) && Runnable(s', d, run)
  {
  }

  /** A completion is for the Driver's own acknowledged reconciliation, and can be repeated as
      long as it is remembered; giving up needs no acknowledgement. Either ends the delivery. */
  lemma EndedAsSaid(s: StoreState, id: nat, d: string, g: nat)
    ensures var (s', reply) := Complete(s, id, d, g);
            if id in s.completed then s' == s && reply == AlreadyCompleted
            else if Holds(s, id, d, g) && s.deliveries[id].status == Acked && s.deliveries[id].work.Reconcile? then
              reply == Done && s'.deliveries == s.deliveries - {id} && s'.drivers == s.drivers
              && forall pair :: pair in s'.results <==> pair in s.results && pair.0 != id
            else s' == s && reply == Conflict
    ensures var (s', reply) := Abandon(s, id, d, g);
            if Holds(s, id, d, g) && s.deliveries[id].work.Reconcile? then
              reply == Done && s'.deliveries == s.deliveries - {id} && s'.rows == s.rows && s'.drivers == s.drivers
              && s'.completed == s.completed && forall pair :: pair in s'.results <==> pair in s.results && pair.0 != id
            else s' == s && reply == Conflict
  {
    hide SchedulePaths, Remember, CompletedRow, PutOrFinish;
  }

  // ---- Batches ----

  function TargetOf(m: Mutation): string {
    match m
    case CreateResource(planned) => planned.path
    case UpdateResource(path, _, _, _) => path
    case DeleteResource(path, _) => path
    case UpdateResourceStatus(path, _, _, _) => path
  }

  /** The mutation is refused on what the batch came to before it. */
  ghost predicate RefusedAt(t: Tables, registry: seq<string>, drivers: map<string, Driver>, d: string, g: nat,
                            ms: seq<Mutation>, k: nat, reply: Reply)
  {
    && k < |ms|
    && var before := ApplyMutations(t, registry, drivers, d, g, ms[..k]);
    before.Committed? && ApplyMutation(before.tables, registry, drivers, d, g, ms[k]) == Rejected(reply)
  }

  /** A batch is refused exactly if one of its mutations is, on what those before it made. */
  lemma {:induction false} BatchIsRefused(t: Tables, registry: seq<string>, drivers: map<string, Driver>, d: string,
                                          g: nat, ms: seq<Mutation>, reply: Reply)
    ensures ApplyMutations(t, registry, drivers, d, g, ms) == Rejected(reply)
       <==> exists k: nat :: RefusedAt(t, registry, drivers, d, g, ms, k, reply)
  {
    hide ApplyMutation;
    if ms != [] {
      var front, last := ms[..|ms| - 1], |ms| - 1;
      BatchIsRefused(t, registry, drivers, d, g, front, reply);
      forall k: nat | k < last
        ensures RefusedAt(t, registry, drivers, d, g, front, k, reply) <==> RefusedAt(t, registry, drivers, d, g, ms, k, reply)
      {
        assert front[..k] == ms[..k] && front[k] == ms[k];
      }
      assert RefusedAt(t, registry, drivers, d, g, ms, last, reply)
        <==> ApplyMutations(t, registry, drivers, d, g, front).Committed?
             && ApplyMutation(ApplyMutations(t, registry, drivers, d, g, front).tables, registry, drivers, d, g, ms[last]) == Rejected(reply);
    }
  }

  /** A batch that is not refused is answered with one Resource for each mutation, in order,
      and touches nothing else. */
  lemma {:induction false} BatchIsAnswered(t: Tables, registry: seq<string>, drivers: map<string, Driver>, d: string,
                                           g: nat, ms: seq<Mutation>)
    requires Keyed(t.rows) && ApplyMutations(t, registry, drivers, d, g, ms).Committed?
    ensures var outcome := ApplyMutations(t, registry, drivers, d, g, ms);
            && |outcome.results| == |ms| && (forall k | 0 <= k < |ms| :: outcome.results[k].path == TargetOf(ms[k]))
            && (forall p | forall m | m in ms :: TargetOf(m) != p ::
                  (p in outcome.tables.rows <==> p in t.rows) && (p in t.rows ==> outcome.tables.rows[p] == t.rows[p]))
  {
    hide ApplyMutation, Keyed;
    if ms != [] {
      var front, last := ms[..|ms| - 1], ms[|ms| - 1];
      BatchIsAnswered(t, registry, drivers, d, g, front);
      MutationsKeepRuns(t, registry, drivers, d, g, front);
      MutationTouches(ApplyMutations(t, registry, drivers, d, g, front).tables, registry, drivers, d, g, last);
      assert last in ms && forall m | m in front :: m in ms;
    }
  }

  lemma MutationTouches(t: Tables, registry: seq<string>, drivers: map<string, Driver>, d: string, g: nat, m: Mutation)
    requires Keyed(t.rows)
    ensures var outcome := ApplyMutation(t, registry, drivers, d, g, m);
            outcome.Committed? ==>
              |outcome.results| == 1 && outcome.results[0].path == TargetOf(m) && OthersSame(t.rows, outcome.tables.rows, TargetOf(m))
  {
    hide ApplyMutation, Owns, Current, PaperOf;
    MutationIsStored(t, registry, drivers, d, g, m);
  }

  /** A batch for a delivery: answered from the cache if it was answered before; otherwise for
      the Driver that acknowledged the delivery in this generation only, and then all of it or
      nothing. */
  lemma AppliedAsAsked(s: StoreState, id: nat, request: nat, d: string, g: nat, ms: seq<Mutation>)
    ensures var (s', reply) := Apply(s, id, request, d, g, ms);
            if (id, request) in s.results then s' == s && reply == Replied(s.results[(id, request)])
            else if reply.Replied? then
              && Holds(s, id, d, g) && s.deliveries[id].status == Acked && s.deliveries[id].work.Reconcile?
              && ApplyMutations(TablesOf(s), s.registry, s.drivers, d, g, ms) == Committed(TablesOf(s'), reply.results)
              && s'.deliveries == s.deliveries && s'.drivers == s.drivers
              && (forall pair :: pair in s'.results <==> pair in s.results || pair == (id, request))
              && s'.results[(id, request)] == reply.results
            else
              && s' == s
              && (|| (reply == NotFound && id !in s.deliveries)
                  || (reply == Conflict && id in s.deliveries
                      && !(Holds(s, id, d, g) && s.deliveries[id].status == Acked && s.deliveries[id].work.Reconcile?))
                  || ApplyMutations(TablesOf(s), s.registry, s.drivers, d, g, ms) == Rejected(reply))
  {
    hide ApplyMutations, SchedulePaths;
    RefusalsAreNotReplies(TablesOf(s), s.registry, s.drivers, d, g, ms);
  }

  // ---- Deliveries ----

  /** The Driver has something to do on the row, in terms of its documents. */
  ghost predicate ToDo(owners: map<string, string>, row: Resource, d: string) {
    && d in row.desired.observed
    && (|| d !in row.status.observed || row.status.observed[d] != row.desired.observed[d]
        || (&& row.desired.metadata.manifest in owners && owners[row.desired.metadata.manifest] == d
            && (row.status.metadata != row.desired.metadata || row.status.spec != row.desired.spec)))
  }

  /** A new delivery: unacknowledged, with a full lease, of the row as it is, in the revision
      of the Driver it is expected in, because there is something to do. */
  ghost predicate FreshWork(s: StoreState, delivery: Delivery, d: string, g: nat, now: int) {
    && delivery.driver == d && delivery.generation == g && delivery.status == Pending && delivery.leaseExpires == now + 15
    && delivery.work.Reconcile?
    && var path := delivery.work.resource.path;
    && path in s.rows && delivery.work.resource == s.rows[path] && ToDo(s.queue.owners, s.rows[path], d)
    && s.rows[path].desired.observed[d].driverRevision == delivery.work.driverRevision
  }

  lemma {:induction false} FillHandsOut(s: StoreState, d: string, g: nat, limit: nat, now: int)
    requires Keyed(s.rows) && forall id | id in s.deliveries :: id < s.nextId
    ensures var s' := Fill(s, d, g, limit, now);
            && (forall id | id in s.deliveries :: id in s'.deliveries && s'.deliveries[id] == s.deliveries[id])
            && (forall id | id in s'.deliveries && id !in s.deliveries ::
                  s.nextId <= id < s'.nextId && FreshWork(s, s'.deliveries[id], d, g, now))
            && s'.runs == s.runs && s.nextId <= s'.nextId && forall id | id in s'.deliveries :: id < s'.nextId
    decreases |s.queue.latest|
  {
    hide Popped, LiveIds, Outstanding, ToDo;
    if |LiveIds(s.deliveries, d, g)| < limit {
      var excluded := ActiveResources(s.deliveries, d, g);
      var (q, item) := Popped(s.queue, d, excluded);
      var s' := s.(queue := q);
      PopLeavesOwners(s.queue, d, excluded);
      if item.Some? {
        PopShrinks(s.queue, d, excluded);
        if item.value.resource !in s.rows || !IsPending(q.owners, s.rows[item.value.resource], d, item.value.observation) {
          FillHandsOut(s', d, g, limit, now);
        } else {
          var row, expected := s.rows[item.value.resource], item.value.observation;
          PendingIsToDo(q.owners, row, d, expected);
          var next := Deliver(s', d, g, Reconcile(expected.driverRevision, row), now);
          FillHandsOut(next, d, g, limit, now);
          assert FreshWork(s, next.deliveries[s.nextId], d, g, now);
        }
      }
    }
  }

  lemma PopLeavesOwners(q: QueueState, d: string, excluded: set<string>)
    ensures Popped(q, d, excluded).0.owners == q.owners
  {
  }

  lemma PendingIsToDo(owners: map<string, string>, row: Resource, d: string, expected: Observation)
    requires IsPending(owners, row, d, expected)
    ensures ToDo(owners, row, d) && row.desired.observed[d] == expected
  {
  }

  /** What a claim gives: the deliveries whose lease had ended, as many as the limit allows,
      with a full lease; a Run that waits, if there is room for one and none is being executed,
      from then on running in this generation; and new work as far as there is room. Nothing
      else happens to what is in hand. */
  lemma ClaimGives(s: StoreState, d: string, g: nat, limit: nat, now: int, renewed: set<nat>, run: Option<string>)
    requires BooksOk(s) && LegalClaim(s, d, g, limit, now, renewed, run) && limit > 0 && Current(s.drivers, d, g)
    ensures var (s', reply) := Claim(s, d, g, limit, now, renewed, run);
            && reply.Claimed? && reply.ids == renewed + (s'.deliveries.Keys - s.deliveries.Keys)
            && (forall id | id in renewed ::
                  Holds(s, id, d, g) && s.deliveries[id].leaseExpires <= now)
            && (|renewed| < limit ==>
                  forall id | id in s.deliveries && s.deliveries[id].driver == d && s.deliveries[id].generation == g
                              && s.deliveries[id].leaseExpires <= now :: id in renewed)
            && (forall id | id in s.deliveries ::
                  id in s'.deliveries
                  && s'.deliveries[id] == if id in renewed then s.deliveries[id].(leaseExpires := now + 15) else s.deliveries[id])
            && (forall id | id in s'.deliveries && id !in s.deliveries ::
                  || FreshWork(s, s'.deliveries[id], d, g, now)
                  || (TakesRun(s, d, g, limit, run)
                      && s'.deliveries[id] == Delivery(d, g, Execute(run.value), Pending, now + 15)))
            && s'.runs == (if TakesRun(s, d, g, limit, run)
                           then s.runs[run.value := s.runs[run.value].(generation := Some(g), state := RunRunning)] else s.runs)
  {
    hide BooksOk, Fill, WithRun, TakesRun, LegalClaim, FreshWork, Claim, Renewed, Current;
    var s1 := s.(deliveries := Renewed(s.deliveries, renewed, now));
    forall id | id in s.deliveries ensures id < s.nextId {
      BooksBound(s, id);
    }
    RowsAreKeyed(s);
    RenewedLeases(s.deliveries, renewed, now);
    var s2 := WithRun(s1, d, g, limit, now, run);
    ClaimIs(s, d, g, limit, now, renewed, run);
    RenewedTakesRun(s, d, g, limit, now, renewed, run);
    RunIsGiven(s1, d, g, limit, now, run);
    FillHandsOut(s2, d, g, limit, now);
    forall delivery: Delivery | FreshWork(s2, delivery, d, g, now) ensures FreshWork(s, delivery, d, g, now) {
      SameFreshWork(s, s2, delivery, d, g, now);
    }
    RenewedExpired(s, d, g, limit, now, renewed, run);
    NewIds(s, Claim(s, d, g, limit, now, renewed, run).0, renewed);
  }

  lemma RenewedLeases(deliveries: map<nat, Delivery>, renewed: set<nat>, now: int)
    ensures var after := Renewed(deliveries, renewed, now);
            && after.Keys == deliveries.Keys
            && forall id | id in deliveries ::
                 after[id] == if id in renewed then deliveries[id].(leaseExpires := now + 15) else deliveries[id]
  {
  }

  lemma NewIds(s: StoreState, s': StoreState, renewed: set<nat>)
    requires forall id | id in s.deliveries :: id < s.nextId
    requires forall id | id in s'.deliveries && id !in s.deliveries :: s.nextId <= id < s'.nextId
    ensures renewed + (set id | id in s'.deliveries && s.nextId <= id < s'.nextId) == renewed + (s'.deliveries.Keys - s.deliveries.Keys)
  {
  }

  lemma ClaimIs(s: StoreState, d: string, g: nat, limit: nat, now: int, renewed: set<nat>, run: Option<string>)
    requires limit > 0 && Current(s.drivers, d, g)
    ensures var s3 := Fill(WithRun(s.(deliveries := Renewed(s.deliveries, renewed, now)), d, g, limit, now, run), d, g, limit, now);
            Claim(s, d, g, limit, now, renewed, run) == (s3, Claimed(renewed + set id | id in s3.deliveries && s.nextId <= id < s3.nextId))
  {
    hide Fill, WithRun, Renewed;
  }

  /** A claim is refused, and nothing happens, for a Driver nobody knows, and for one that does
      not run in this generation; a claim of nothing gives nothing to anybody. */
  lemma ClaimIsRefused(s: StoreState, d: string, g: nat, limit: nat, now: int, renewed: set<nat>, run: Option<string>)
    requires limit == 0 || d !in s.drivers || s.drivers[d].generation != g || s.drivers[d].status != Running
    ensures Claim(s, d, g, limit, now, renewed, run)
         == (s, if limit == 0 then Claimed({}) else if d !in s.drivers then NotFound else Conflict)
  {
  }

  lemma RunIsGiven(s: StoreState, d: string, g: nat, limit: nat, now: int, run: Option<string>)
    requires forall id | id in s.deliveries :: id < s.nextId
    ensures var s' := WithRun(s, d, g, limit, now, run);
            && s'.rows == s.rows && s'.queue == s.queue && s.nextId <= s'.nextId && (forall id | id in s'.deliveries :: id < s'.nextId)
            && (forall id | id in s.deliveries :: id in s'.deliveries && s'.deliveries[id] == s.deliveries[id])
            && (forall id | id in s'.deliveries && id !in s.deliveries ::
                  && s.nextId <= id && TakesRun(s, d, g, limit, run)
                  && s'.deliveries[id] == Delivery(d, g, Execute(run.value), Pending, now + 15))
            && s'.runs == (if TakesRun(s, d, g, limit, run)
                           then s.runs[run.value := s.runs[run.value].(generation := Some(g), state := RunRunning)] else s.runs)
  {
    hide LiveIds, HasActiveRun;
  }

  lemma RenewedTakesRun(s: StoreState, d: string, g: nat, limit: nat, now: int, renewed: set<nat>, run: Option<string>)
    ensures TakesRun(s.(deliveries := Renewed(s.deliveries, renewed, now)), d, g, limit, run) <==> TakesRun(s, d, g, limit, run)
  {
    RenewedIsSame(s.deliveries, renewed, now, d, g);
  }

  lemma SameFreshWork(s: StoreState, s': StoreState, delivery: Delivery, d: string, g: nat, now: int)
    requires s'.rows == s.rows && s'.queue == s.queue
    ensures FreshWork(s', delivery, d, g, now) <==> FreshWork(s, delivery, d, g, now)
  {
  }

  lemma RenewedExpired(s: StoreState, d: string, g: nat, limit: nat, now: int, renewed: set<nat>, run: Option<string>)
    requires LegalClaim(s, d, g, limit, now, renewed, run)
    ensures forall id | id in renewed ::
              Holds(s, id, d, g) && s.deliveries[id].leaseExpires <= now
    ensures |renewed| < limit ==>
              forall id | id in s.deliveries && s.deliveries[id].driver == d && s.deliveries[id].generation == g
                          && s.deliveries[id].leaseExpires <= now :: id in renewed
  {
    var expired := Expired(s.deliveries, d, g, now);
    if |renewed| < limit {
      assert |expired| == |renewed|;
      assert expired == renewed + (expired - renewed) && |expired| == |renewed| + |expired - renewed|;
    }
  }

  // ---- Drivers ----

  /** A start: from rest only; the Driver is to run, in a new generation; of what it had in
      hand it keeps, unacknowledged and to be handed out at once, the reconciliations it is
      still asked for. */
  lemma StartedAsAsked(s: StoreState, d: string, now: int, owners: map<string, string>, order: seq<string>)
    requires DriversOk(s.drivers)
    ensures var (s', reply) := StartDriver(s, d, now, owners, order);
            if d !in s.drivers then s' == s && reply == NotFound
            else if s.drivers[d].status != Stopped && s.drivers[d].status != Failed then s' == s && reply == Conflict
            else
              var before := s.drivers[d];
              && reply == Done && d in s'.drivers && s'.drivers == s.drivers[d := s'.drivers[d]]
              && s'.drivers[d] == Driver(d, before.isProtected, if before.state == "running" then before.revision else before.revision + 1,
                                         "running", before.spec, before.generation + 1, Starting)
              && s'.deliveries.Keys <= s.deliveries.Keys
              && (forall id | id in s.deliveries && s.deliveries[id].driver != d ::
                    id in s'.deliveries && s'.deliveries[id] == s.deliveries[id])
              && (forall id | id in s.deliveries && s.deliveries[id].driver == d ::
                    var work := s.deliveries[id].work;
                    && (id in s'.deliveries <==>
                          && work.Reconcile? && work.resource.path in s'.rows && d in s'.rows[work.resource.path].desired.observed
                          && s'.rows[work.resource.path].desired.observed[d]
                             == Observation(work.driverRevision, work.resource.desired.metadata.revision))
                    && (id in s'.deliveries ==> s'.deliveries[id] == Delivery(d, before.generation + 1, work, Pending, now)))
              && (forall pair :: pair in s'.results <==> pair in s.results && !(pair.0 in s.deliveries && s.deliveries[pair.0].driver == d))
  {
    hide Repartitioned, SchedulePaths, Restamped, StartedDriver;
    if d in s.drivers {
      var driver := StartedDriver(s.drivers[d]);
      StartedDocument(s.drivers[d]);
      SameRepartition(s, s.(deliveries := Restamped(Repartitioned(s, driver), s.deliveries, d, driver.generation, now),
                      results := ResultsWithout(s.results, DeliveriesOf(s.deliveries, d))), driver);
      RestampedExactly(Repartitioned(s, driver), s.deliveries, d, driver.generation, now);
    }
  }

  lemma StartedDocument(before: Driver)
    ensures StartedDriver(before)
         == Driver(before.path, before.isProtected, if before.state == "running" then before.revision else before.revision + 1,
                   "running", before.spec, before.generation + 1, Starting)
  {
  }

  lemma RestampedExactly(rows: map<string, Resource>, deliveries: map<nat, Delivery>, d: string, g: nat, now: int)
    ensures var after := Restamped(rows, deliveries, d, g, now);
            && after.Keys <= deliveries.Keys
            && (forall id | id in deliveries && deliveries[id].driver != d :: id in after && after[id] == deliveries[id])
            && (forall id | id in deliveries && deliveries[id].driver == d ::
                  var work := deliveries[id].work;
                  && (id in after <==>
                        && work.Reconcile? && work.resource.path in rows && d in rows[work.resource.path].desired.observed
                        && rows[work.resource.path].desired.observed[d]
                           == Observation(work.driverRevision, work.resource.desired.metadata.revision))
                  && (id in after ==> after[id] == Delivery(d, g, work, Pending, now)))
  {
  }

  lemma SameRepartition(s: StoreState, s': StoreState, driver: Driver)
    requires driver.path in s.drivers && s'.drivers == s.drivers && s'.rows == s.rows && s'.registry == s.registry
    ensures Repartitioned(s', driver) == Repartitioned(s, driver)
  {
    hide Affected, UpdateRow;
  }

  /** A stop: the Driver is to be stopped, and is stopping if it was running. */
  lemma StoppedAsAsked(s: StoreState, d: string, owners: map<string, string>, order: seq<string>)
    requires DriversOk(s.drivers)
    ensures var (s', reply) := StopDriver(s, d, owners, order);
            if d !in s.drivers then s' == s && reply == NotFound
            else
              var before := s.drivers[d];
              && reply == Done && s'.deliveries == s.deliveries && s'.results == s.results
              && s'.drivers == s.drivers[d := Driver(d, before.isProtected, if before.state == "stopped" then before.revision else before.revision + 1,
                                                     "stopped", before.spec, before.generation,
                                                     if before.status == Starting || before.status == Running then Stopping else before.status)]
  {
    hide Repartitioned, SchedulePaths;
  }

  /** Reports about the process are taken in the current generation only, and that it is
      ready only while it is starting. */
  lemma ReportedAsSaid(s: StoreState, d: string, g: nat)
    ensures var (s', reply) := Step(s, Says(d, g, Ready));
            if d in s.drivers && s.drivers[d].generation == g && s.drivers[d].status == Starting
            then reply == Done && s' == s.(drivers := s.drivers[d := s.drivers[d].(status := Running)])
            else s' == s && reply == if d in s.drivers then Conflict else NotFound
    ensures var (s', reply) := Step(s, Says(d, g, HasFailed));
            if d in s.drivers && s.drivers[d].generation == g
            then reply == Done && s' == s.(drivers := s.drivers[d := s.drivers[d].(status := Failed)])
            else s' == s && reply == if d in s.drivers then Conflict else NotFound
    ensures var (s', reply) := Step(s, Says(d, g, HasStopped));
            if d in s.drivers && s.drivers[d].generation == g
            then reply == Done && s' == s.(drivers := s.drivers[d := s.drivers[d].(status := Stopped)])
            else s' == s && reply == if d in s.drivers then Conflict else NotFound
  {
  }

  function PatternsOf(selector: ManifestSelector): seq<string> {
    if selector.One? then [selector.pattern] else selector.patterns
  }

  /** A specification is in order: it names a valid account and at least one Manifest, no
      Manifest twice, each a valid path and registered; its watches have patterns, all valid;
      and every other Driver has a specification that names another account and none of its
      Manifests. */
  ghost predicate InOrder(registry: seq<string>, drivers: map<string, Driver>, d: string, spec: DriverSpec) {
    && ValidPath(spec.serviceAccount) && |spec.manages| >= 1
    && (forall i, j | 0 <= i < |spec.manages| && 0 <= j < |spec.manages| && spec.manages[i] == spec.manages[j] :: i == j)
    && (forall i | 0 <= i < |spec.manages| :: ValidPath(spec.manages[i]) && spec.manages[i] in registry)
    && (forall i | 0 <= i < |spec.watches| ::
          && |PatternsOf(spec.watches[i].manifest)| >= 1
          && (forall pattern | pattern in PatternsOf(spec.watches[i].manifest) :: pattern == "*" || ValidPattern(pattern))
          && (forall pattern | pattern in spec.watches[i].paths :: ValidPattern(pattern)))
    && forall other | other in drivers && other != d ::
         && drivers[other].spec.Some? && drivers[other].spec.value.serviceAccount != spec.serviceAccount
         && forall manifest :: !(manifest in spec.manages && manifest in drivers[other].spec.value.manages)
  }

  lemma ProjectsExactly(registry: seq<string>, drivers: map<string, Driver>, d: string, spec: DriverSpec)
    ensures Projects(registry, drivers, d, spec) <==> InOrder(registry, drivers, d, spec)
  {
    hide ValidPath, ValidPattern;
    forall i | 0 <= i < |spec.watches|
      ensures ValidWatch(spec.watches[i]) <==>
              && |PatternsOf(spec.watches[i].manifest)| >= 1
              && (forall pattern | pattern in PatternsOf(spec.watches[i].manifest) :: pattern == "*" || ValidPattern(pattern))
              && (forall pattern | pattern in spec.watches[i].paths :: ValidPattern(pattern))
    {
    }
    hide ValidWatch, PatternsOf;
    if Projects(registry, drivers, d, spec) {
      forall i, j | 0 <= i < |spec.manages| && 0 <= j < |spec.manages| && i != j ensures spec.manages[i] != spec.manages[j] {
        var (a, b) := if i < j then (i, j) else (j, i);
        assert spec.manages[a] != spec.manages[b];
      }
    }
  }

  /** A Driver document is rewritten in its current revision, if it is not protected and its
      specification is in order: as written, in the next revision, the process left alone. */
  lemma RewrittenAsAsked(s: StoreState, d: string, expectedRevision: nat, state: string, spec: DriverSpec,
                         owners: map<string, string>, order: seq<string>)
    requires DriversOk(s.drivers)
    ensures var (s', reply) := UpdateDriver(s, d, expectedRevision, state, spec, owners, order);
            if d !in s.drivers then s' == s && reply == NotFound
            else if s.drivers[d].revision != expectedRevision || s.drivers[d].isProtected then s' == s && reply == Conflict
            else if !InOrder(s.registry, s.drivers, d, spec) then s' == s && reply == Refused
            else
              && reply == Done && s'.deliveries == s.deliveries && s'.results == s.results
              && s'.drivers == s.drivers[d := s.drivers[d].(state := state, spec := Some(spec), revision := expectedRevision + 1)]
  {
    ProjectsExactly(s.registry, s.drivers, d, spec);
    hide Repartitioned, SchedulePaths, Projects, InOrder;
  }

  /** An acknowledgement is the Driver's own; it gives a full lease. A reset makes everything
      the Driver has claimable at once. */
  lemma AcknowledgedAsSaid(s: StoreState, id: nat, d: string, g: nat, now: int)
    ensures var (s', reply) := Acknowledge(s, id, d, g, now);
            if id in s.deliveries && s.deliveries[id].driver == d && s.deliveries[id].generation == g
            then reply == Done && s' == s.(deliveries := s.deliveries[id := Delivery(d, g, s.deliveries[id].work, Acked, now + 15)])
            else reply == Conflict && s' == s
    ensures var (s', reply) := ResetLeases(s, d, g, now);
            if d in s.drivers && s.drivers[d].generation == g then
              && reply == Done && s' == s.(deliveries := s'.deliveries) && s'.deliveries.Keys == s.deliveries.Keys
              && forall other | other in s.deliveries ::
                   s'.deliveries[other] == if s.deliveries[other].driver == d && s.deliveries[other].generation == g
                                           then s.deliveries[other].(leaseExpires := now) else s.deliveries[other]
            else s' == s && reply == if d in s.drivers then Conflict else NotFound
  {
  }

  // ---- Runs of the store ----

  /** What happens in a run is what its events name: each is one call, with its arguments. */
  lemma EventsAreCalls(s: StoreState, e: Event)
    ensures e.Creates? ==> Step(s, e) == Create(s, e.planned)
    ensures e.Writes? ==> Step(s, e) == Write(s, e.path, e.expectedRevision, e.state, e.spec)
    ensures e.Deletes? ==> Step(s, e) == Delete(s, e.path, e.expectedRevision)
    ensures e.UpdatesDriver? ==> Step(s, e) == UpdateDriver(s, e.d, e.expectedRevision, e.control, e.driverSpec, e.owners, e.order)
    ensures e.Starts? ==> Step(s, e) == StartDriver(s, e.d, e.now, e.owners, e.order)
    ensures e.Stops? ==> Step(s, e) == StopDriver(s, e.d, e.owners, e.order)
    ensures e.EnqueuesRun? ==> Step(s, e) == EnqueueRun(s, e.run, e.target, e.d)
    ensures e.Reopens? && Listings(s, e.listing, e.paths) ==> Step(s, e) == (Reopened(s, e.listing, e.paths), Done)
    ensures e.Says? ==> Step(s, e) == Hear(s, e.d, e.generation, e.message)
  {
    hide Create, Write, Delete, UpdateDriver, StartDriver, StopDriver, EnqueueRun, Reopened, Hear, Listings;
  }

  lemma MessagesAreCalls(s: StoreState, d: string, g: nat, m: Message)
    ensures m.Ready? ==> Hear(s, d, g, m) == MarkReady(s, d, g)
    ensures m.HasFailed? ==> Hear(s, d, g, m) == MarkFailed(s, d, g)
    ensures m.HasStopped? ==> Hear(s, d, g, m) == MarkStopped(s, d, g)
    ensures m.Claims? ==> Hear(s, d, g, m) == Claim(s, d, g, m.limit, m.now, m.renewed, m.candidate)
    ensures m.ResetsLeases? ==> Hear(s, d, g, m) == ResetLeases(s, d, g, m.now)
    ensures m.RenewsLeases? ==> Hear(s, d, g, m) == RenewLeases(s, d, g, m.ids, m.now)
    ensures m.Acks? ==> Hear(s, d, g, m) == Acknowledge(s, m.id, d, g, m.now)
    ensures m.Mutates? ==> Hear(s, d, g, m) == Apply(s, m.id, m.request, d, g, m.ms)
    ensures m.FinishesRun? ==> Hear(s, d, g, m) == FinishRun(s, m.id, d, g, m.ms, m.succeeded)
    ensures m.Completes? ==> Hear(s, d, g, m) == Complete(s, m.id, d, g)
    ensures m.Abandons? ==> Hear(s, d, g, m) == Abandon(s, m.id, d, g)
  {
    hide MarkReady, MarkFailed, MarkStopped, Claim, ResetLeases, RenewLeases, Acknowledge, Apply, FinishRun, Complete, Abandon;
  }

  /** Opening a store keeps every document, Run and Driver, forgets what was in hand and what
      was answered, and never uses an id again. */
  lemma ReopenedKeepsTables(s: StoreState, listing: seq<Driver>, paths: seq<string>)
    requires Listings(s, listing, paths)
    ensures var s' := Reopened(s, listing, paths);
            && s'.registry == s.registry && s'.runs == s.runs && s'.drivers == s.drivers && s'.rows.Keys == s.rows.Keys
            && (forall p | p in s.rows ::
                  && s'.rows[p].path == s.rows[p].path
                  && PaperOf(s'.rows[p].desired) == PaperOf(s.rows[p].desired) && PaperOf(s'.rows[p].status) == PaperOf(s.rows[p].status))
            && s'.deliveries == map[] && s'.results == map[] && s'.completed == {} && s'.completedOrder == []
            && s'.nextId == s.nextId && s'.commits == s.commits
  {
    hide Expected, ScheduledAll;
  }
}
