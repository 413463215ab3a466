/** The reconciliation control loop (crates/kas-store/src/lib.rs) as steps on a
    value. One store call, with the scheduling that closes it, is one step. */
module Control {
  import opened Wrappers
  import opened Paths
  import opened Resources
  import opened Partitions
  import opened Queue

  const LEASE_SECONDS := 15
  const COMPLETED_CACHE_SIZE := 4096
  const MAX_IN_FLIGHT := 16

  datatype DeliveryStatus = Pending | Acked

  datatype Work = Reconcile(driverRevision: nat, resource: Resource) | Execute(run: string)

  datatype Delivery = Delivery(driver: string, generation: nat, work: Work, status: DeliveryStatus, leaseExpires: int)

  datatype RunState = RunQueued | RunRunning | RunSucceeded | RunFailed

  datatype Run = Run(driver: string, resource: string, generation: Option<nat>, state: RunState)

  datatype Tables = Tables(rows: map<string, Resource>, runs: map<string, Run>)

  type Results = map<(nat, nat), seq<Resource>>

  /** `commits` is a history: the delivery, request and generation of every mutation
      batch that took effect. Nothing reads it. */
  datatype StoreState = StoreState(
    registry: seq<string>,
    rows: map<string, Resource>,
    runs: map<string, Run>,
    drivers: map<string, Driver>,
    queue: QueueState,
    deliveries: map<nat, Delivery>,
    results: Results,
    completed: set<nat>,
    completedOrder: seq<nat>,
    nextId: nat,
    commits: set<(nat, nat, nat)>)

  datatype Reply =
    | Done
    | Replied(results: seq<Resource>)
    | Claimed(ids: set<nat>)
    | AlreadyCompleted
    | NotFound
    | Conflict
    | Refused

  // ---- Documents ----

  /** The documents of a row as it is first inserted. */
  datatype Planned = Planned(
    path: string, manifest: string, name: string, managedBy: string, package: string, packageRevision: nat,
    state: string, spec: Json, statusState: string, statusSpec: Json)

  function Inserted(p: Planned): Resource {
    var metadata := Metadata(p.manifest, p.name, p.state, 0, 0, false, p.managedBy, p.package, p.packageRevision);
    Resource(p.path, Document(metadata, map[], p.spec), Document(metadata.(state := p.statusState), map[], p.statusSpec))
  }

  function Revised(resource: Resource, state: Option<string>, spec: Json): Resource {
    var metadata := resource.desired.metadata;
    resource.(desired := resource.desired.(
    spec := spec,
    metadata := metadata.(state := if state.Some? then state.value else metadata.state, revision := metadata.revision + 1)))
  }

  function MarkedDeleted(resource: Resource): Resource {
    Revised(resource, Some(STATE_DELETED), resource.desired.spec)
  }

  function StatusAsDesired(resource: Resource): Resource {
    resource.(status := resource.desired.(observed := resource.status.observed))
  }

  /** `normalize_submitted_status`: a Driver chooses the state and the spec only. */
  function SubmittedStatus(resource: Resource, state: string, spec: Json): Resource {
    resource.(status := Document(resource.desired.metadata.(state := state), resource.status.observed, spec))
  }

  predicate AllObserved(resource: Resource) {
    forall d | d in resource.desired.observed :: Has(resource.status.observed, d, resource.desired.observed[d])
  }

  /** The condition under which `maybe_finish_deleted_resource` removes a row. */
  predicate Finished(resource: Resource) {
    && resource.desired.metadata.state == STATE_DELETED && resource.status.metadata.state == STATE_DELETED
    && AllObserved(resource)
  }

  function Drop(t: Tables, path: string): Tables {
    Tables(t.rows - {path}, map run | run in t.runs && t.runs[run].resource != path :: t.runs[run])
  }

  function PutOrFinish(t: Tables, resource: Resource): Tables {
    if Finished(resource) then Drop(t, resource.path) else t.(rows := t.rows[resource.path := resource])
  }

  predicate Owned(drivers: map<string, Driver>, manifest: string) {
    exists d | d in drivers :: Manages(drivers[d], manifest)
  }

  /** What a deletion writes. The branch for Resources without an owner saves the row
      it read before the observations were recomputed, and so takes them back. */
  function Deleted(t: Tables, drivers: map<string, Driver>, resource: Resource): Tables {
    var marked := MarkedDeleted(resource);
    if Owned(drivers, resource.Manifest()) then
      t.(rows := t.rows[resource.path := Reobserve(drivers, marked)])
    else
      PutOrFinish(t, StatusAsDesired(marked))
  }

  // ---- Scheduling ----

  ghost function SchedulePath(rows: map<string, Resource>, q: QueueState, path: string): QueueState {
    if path in rows then Scheduled(q, rows[path]) else Removed(q, path)
  }

  ghost function SchedulePaths(rows: map<string, Resource>, q: QueueState, paths: seq<string>): QueueState {
    if paths == [] then q
    else
      var last := |paths| - 1;
      SchedulePath(rows, SchedulePaths(rows, q, paths[..last]), paths[last])
  }

  /** New tables, and the scheduling of the paths the call touched. */
  ghost function Settle(s: StoreState, t: Tables, paths: seq<string>): StoreState {
    s.(rows := t.rows, runs := t.runs, queue := SchedulePaths(t.rows, s.queue, paths))
  }

  function TablesOf(s: StoreState): Tables {
    Tables(s.rows, s.runs)
  }

  // ---- Writes of users ----

  ghost function Create(s: StoreState, planned: Planned): (StoreState, Reply) {
    if planned.manifest !in s.registry then (s, NotFound)
    else if planned.path in s.rows then (s, Conflict)
    else
      var row := Reobserve(s.drivers, Inserted(planned));
      (Settle(s, TablesOf(s).(rows := s.rows[planned.path := row]), [planned.path]), Done)
  }

  ghost function Write(s: StoreState, path: string, expectedRevision: nat, state: Option<string>,
                       spec: Json): (StoreState, Reply) {
    if path !in s.rows then (s, NotFound)
    else if s.rows[path].Revision() != expectedRevision || s.rows[path].desired.metadata.isProtected then (s, Conflict)
    else
      var row := Reobserve(s.drivers, Revised(s.rows[path], state, spec));
      (Settle(s, TablesOf(s).(rows := s.rows[path := row]), [path]), Done)
  }

  ghost function Delete(s: StoreState, path: string, expectedRevision: nat): (StoreState, Reply) {
    if path !in s.rows then (s, NotFound)
    else if s.rows[path].Revision() != expectedRevision || s.rows[path].desired.metadata.isProtected then (s, Conflict)
    else (Settle(s, Deleted(TablesOf(s), s.drivers, s.rows[path]), [path]), Done)
  }

  // ---- Mutations of Drivers ----

  datatype Mutation =
    | CreateResource(planned: Planned)
    | UpdateResource(path: string, expectedRevision: nat, state: Option<string>, spec: Json)
    | DeleteResource(path: string, expectedRevision: nat)
    | UpdateResourceStatus(path: string, expectedRevision: nat, statusState: string, statusSpec: Json)

  datatype Applied = Committed(tables: Tables, results: seq<Resource>) | Rejected(reply: Reply)

  predicate Current(drivers: map<string, Driver>, d: string, generation: nat) {
    d in drivers && drivers[d].generation == generation && drivers[d].status == Running
  }

  function ApplyMutation(t: Tables, registry: seq<string>, drivers: map<string, Driver>, d: string, generation: nat,
                         m: Mutation): Applied {
    match m
    case CreateResource(planned) =>
      if planned.manifest !in registry then Rejected(NotFound)
      else if planned.path in t.rows then Rejected(Conflict)
      else
        var row := Inserted(planned);
        Committed(t.(rows := t.rows[planned.path := Reobserve(drivers, row)]), [row])
    case UpdateResource(path, expectedRevision, state, spec) =>
      if path !in t.rows then Rejected(NotFound)
      else if t.rows[path].Revision() != expectedRevision then Rejected(Conflict)
      else
        var row := Revised(t.rows[path], state, spec);
        Committed(t.(rows := t.rows[path := Reobserve(drivers, row)]), [row])
    case DeleteResource(path, expectedRevision) =>
      if path !in t.rows then Rejected(NotFound)
      else if t.rows[path].Revision() != expectedRevision then Rejected(Conflict)
      else
        var marked := MarkedDeleted(t.rows[path]);
        Committed(Deleted(t, drivers, t.rows[path]),
                  [if Owned(drivers, marked.Manifest()) then marked else StatusAsDesired(marked)])
    case UpdateResourceStatus(path, expectedRevision, state, spec) =>
      if !Current(drivers, d, generation) then Rejected(Conflict)
      else if path !in t.rows then Rejected(NotFound)
      else if !Owns(drivers, d, t.rows[path].Manifest()) || t.rows[path].Revision() != expectedRevision then Rejected(Conflict)
      else
        var row := SubmittedStatus(t.rows[path], state, spec);
        Committed(PutOrFinish(t, row), [row])
  }

  /** One transaction: all the mutations, or none. */
  function ApplyMutations(t: Tables, registry: seq<string>, drivers: map<string, Driver>, d: string, generation: nat,
                          ms: seq<Mutation>): Applied {
    if ms == [] then Committed(t, [])
    else
      var last := |ms| - 1;
      match ApplyMutations(t, registry, drivers, d, generation, ms[..last])
      case Rejected(reply) => Rejected(reply)
      case Committed(t', results) =>
        match ApplyMutation(t', registry, drivers, d, generation, ms[last])
        case Rejected(reply) => Rejected(reply)
        case Committed(t'', more) => Committed(t'', results + more)
  }

  function PathsOf(results: seq<Resource>): seq<string> {
    seq(|results|, k requires 0 <= k < |results| => results[k].path)
  }

  predicate Holds(s: StoreState, id: nat, d: string, generation: nat) {
    id in s.deliveries && s.deliveries[id].driver == d && s.deliveries[id].generation == generation
  }

  /** `apply_reconciliation_mutations`: a request that was answered before gets the same answer. */
  ghost function Apply(s: StoreState, id: nat, request: nat, d: string, generation: nat,
                       ms: seq<Mutation>): (StoreState, Reply) {
    if (id, request) in s.results then (s, Replied(s.results[(id, request)]))
    else if id !in s.deliveries then (s, NotFound)
    else if !s.deliveries[id].work.Reconcile? || !Holds(s, id, d, generation) || s.deliveries[id].status != Acked then (s, Conflict)
    else
      match ApplyMutations(TablesOf(s), s.registry, s.drivers, d, generation, ms)
      case Rejected(reply) => (s, reply)
      case Committed(t, results) =>
        (Settle(s, t, PathsOf(results)).(results := s.results[(id, request) := results], commits := s.commits + {(id, request, generation)}),
         Replied(results))
  }

  function ResultsWithout(results: Results, ids: set<nat>): Results {
    map pair: (nat, nat) | pair in results && pair.0 !in ids :: results[pair]
  }

  function Evict(completed: set<nat>, order: seq<nat>): (set<nat>, seq<nat>) {
    if |order| > COMPLETED_CACHE_SIZE then Evict(completed - {order[0]}, order[1..]) else (completed, order)
  }

  function Remember(completed: set<nat>, order: seq<nat>, id: nat): (set<nat>, seq<nat>) {
    if id in completed then Evict(completed, order) else Evict(completed + {id}, order + [id])
  }

  /** `remove_completed_delivery`. */
  ghost function Forget(s: StoreState, id: nat): StoreState {
    var (completed, order) := Remember(s.completed, s.completedOrder, id);
    s.(deliveries := s.deliveries - {id}, results := ResultsWithout(s.results, {id}), completed := completed, completedOrder := order)
  }

  function ObservationOf(work: Work): Observation
    requires work.Reconcile?
  {
    Observation(work.driverRevision, work.resource.Revision())
  }

  /** The row after a completion: the owner's package is confirmed, the observation
      recorded, and whatever is no longer expected forgotten. */
  function CompletedRow(drivers: map<string, Driver>, resource: Resource, d: string,
                        observation: Observation): Resource {
    var metadata := if Owns(drivers, d, resource.Manifest())
                    then resource.status.metadata.(package := resource.desired.metadata.package,
                            packageRevision := resource.desired.metadata.packageRevision)
                    else resource.status.metadata;
    Reobserve(drivers, resource.(status := resource.status.(metadata := metadata, observed := resource.status.observed[d := observation])))
  }

  ghost function Complete(s: StoreState, id: nat, d: string, generation: nat): (StoreState, Reply) {
    if id in s.completed then (s, AlreadyCompleted)
    else if !Holds(s, id, d, generation) || s.deliveries[id].status != Acked || !s.deliveries[id].work.Reconcile? then (s, Conflict)
    else
      var work := s.deliveries[id].work;
      var path := work.resource.path;
      var t := if path in s.rows
               then PutOrFinish(TablesOf(s), CompletedRow(s.drivers, s.rows[path], d, ObservationOf(work)))
               else TablesOf(s);
      (Settle(Forget(s, id), t, [path]), Done)
  }

  ghost function Abandon(s: StoreState, id: nat, d: string, generation: nat): (StoreState, Reply) {
    if !Holds(s, id, d, generation) || !s.deliveries[id].work.Reconcile? then (s, Conflict)
    else
      (Settle(s.(deliveries := s.deliveries - {id}, results := ResultsWithout(s.results, {id})),
       TablesOf(s), [s.deliveries[id].work.resource.path]), Done)
  }

  function Acknowledge(s: StoreState, id: nat, d: string, generation: nat, now: int): (StoreState, Reply) {
    if !Holds(s, id, d, generation) then (s, Conflict)
    else
      (s.(deliveries := s.deliveries[id := s.deliveries[id].(status := Acked, leaseExpires := now + LEASE_SECONDS)]), Done)
  }

  function ResetLeases(s: StoreState, d: string, generation: nat, now: int): (StoreState, Reply) {
    if d !in s.drivers then (s, NotFound)
    else if s.drivers[d].generation != generation then (s, Conflict)
    else
      (s.(deliveries := map id | id in s.deliveries ::
       if Holds(s, id, d, generation) then s.deliveries[id].(leaseExpires := now) else s.deliveries[id]), Done)
  }

  /** The leases before the first stale id stay renewed. */
  function RenewLeases(s: StoreState, d: string, generation: nat, ids: seq<nat>, now: int): (StoreState, Reply) {
    if ids == [] then (s, Done)
    else
      var last := |ids| - 1;
      var (s', reply) := RenewLeases(s, d, generation, ids[..last], now);
      if reply == Conflict || !Holds(s', ids[last], d, generation) then (s', Conflict)
      else
        (s'.(deliveries := s'.deliveries[ids[last] := s'.deliveries[ids[last]].(leaseExpires := now + LEASE_SECONDS)]), Done)
  }

  // ---- Runs ----

  function EnqueueRun(s: StoreState, run: string, target: string, d: string): (StoreState, Reply) {
    if target !in s.rows || !Owns(s.drivers, d, s.rows[target].Manifest()) then (s, NotFound)
    else if run in s.runs then (s, Conflict)
    else (s.(runs := s.runs[run := Run(d, target, None, RunQueued)]), Done)
  }

  /** The batch that ends a Run: mutations, then `complete_run`, in one transaction. */
  ghost function FinishRun(s: StoreState, id: nat, d: string, generation: nat, ms: seq<Mutation>,
                           succeeded: bool): (StoreState, Reply) {
    if id !in s.deliveries then (s, NotFound)
    else if !s.deliveries[id].work.Execute? || !Holds(s, id, d, generation) || s.deliveries[id].status != Acked then (s, Conflict)
    else
      match ApplyMutations(TablesOf(s), s.registry, s.drivers, d, generation, ms)
      case Rejected(reply) => (s, reply)
      case Committed(t, results) =>
        var run := s.deliveries[id].work.run;
        if run !in t.runs then (s, NotFound)
        else if t.runs[run].generation != Some(generation) || t.runs[run].driver != d then (s, Conflict)
        else
          var finished := t.runs[run].(state := if succeeded then RunSucceeded else RunFailed);
          (Settle(Forget(s, id), t.(runs := t.runs[run := finished]), PathsOf(results)).(commits := s.commits + {(id, id, generation)}),
           Replied(results))
  }

  // ---- Drivers ----

  /** The rows after one Driver document was replaced: only affected partitions change. */
  ghost function Repartitioned(s: StoreState, driver: Driver): map<string, Resource>
    requires driver.path in s.drivers
  {
    var d := driver.path;
    map p | p in s.rows ::
      if Affected(SnapshotOf(Some(s.drivers[d])), SnapshotOf(Some(driver)), s.registry, s.rows[p].Manifest())
      then UpdateRow(d, Some(driver), s.rows[p]) else s.rows[p]
  }

  ghost function Changed(before: map<string, Resource>, after: map<string, Resource>): set<string> {
    set p | p in before && p in after && before[p] != after[p]
  }

  /** The owners after `refresh_drivers`: the running manager of each Manifest. */
  ghost predicate OwnersOk(owners: map<string, string>, drivers: map<string, Driver>) {
    forall manifest, d :: Has(owners, manifest, d) <==> Owns(drivers, d, manifest) && drivers[d].state == RUNNING
  }

  /** Replace a Driver document, refresh the owners, and schedule the changed rows. */
  ghost function ReplaceDriver(s: StoreState, driver: Driver, owners: map<string, string>,
                               order: seq<string>): StoreState
    requires driver.path in s.drivers
  {
    Settle(s.(drivers := s.drivers[driver.path := driver], queue := s.queue.(owners := owners)),
           Tables(Repartitioned(s, driver), s.runs), order)
  }

  function StartedDriver(driver: Driver): Driver {
    var driver := if driver.state == RUNNING then driver else driver.(state := RUNNING, revision := driver.revision + 1);
    driver.(generation := driver.generation + 1, status := Starting)
  }

  function StoppedDriver(driver: Driver): Driver {
    var driver' := if driver.state == STOPPED then driver else driver.(state := STOPPED, revision := driver.revision + 1);
    if driver.status == Starting || driver.status == Running then driver'.(status := Stopping) else driver'
  }

  /** A restart keeps the reconciliations whose observation is still expected. */
  predicate Keeps(rows: map<string, Resource>, delivery: Delivery) {
    && delivery.work.Reconcile?
    && delivery.work.resource.path in rows
    && Has(rows[delivery.work.resource.path].desired.observed, delivery.driver, ObservationOf(delivery.work))
  }

  function Restamped(rows: map<string, Resource>, deliveries: map<nat, Delivery>, d: string, generation: nat,
                     now: int): map<nat, Delivery> {
    map id | id in deliveries && (deliveries[id].driver == d ==> Keeps(rows, deliveries[id])) ::
      if deliveries[id].driver == d
      then deliveries[id].(generation := generation, status := Pending, leaseExpires := now)
      else deliveries[id]
  }

  function DeliveriesOf(deliveries: map<nat, Delivery>, d: string): set<nat> {
    set id | id in deliveries && deliveries[id].driver == d
  }

  ghost function StartDriver(s: StoreState, d: string, now: int, owners: map<string, string>,
                             order: seq<string>): (StoreState, Reply) {
    if d !in s.drivers || s.drivers[d].path != d then (s, NotFound)
    else if s.drivers[d].status != Stopped && s.drivers[d].status != Failed then (s, Conflict)
    else
      var driver := StartedDriver(s.drivers[d]);
      var rows := Repartitioned(s, driver);
      (ReplaceDriver(s.(deliveries := Restamped(rows, s.deliveries, d, driver.generation, now),
       results := ResultsWithout(s.results, DeliveriesOf(s.deliveries, d))), driver, owners, order), Done)
  }

  ghost function StopDriver(s: StoreState, d: string, owners: map<string, string>,
                            order: seq<string>): (StoreState, Reply) {
    if d !in s.drivers || s.drivers[d].path != d then (s, NotFound)
    else (ReplaceDriver(s, StoppedDriver(s.drivers[d]), owners, order), Done)
  }

  /** `validate_manifest_selector`. */
  predicate ValidSelector(selector: ManifestSelector) {
    match selector
    case One(pattern) => pattern == "*" || ValidPattern(pattern)
    case Many(patterns) => patterns != [] && forall pattern | pattern in patterns :: pattern == "*" || ValidPattern(pattern)
  }

  predicate ValidWatch(watch: DriverWatch) {
    ValidSelector(watch.manifest) && forall pattern | pattern in watch.paths :: ValidPattern(pattern)
  }

  /** Another Driver whose specification stands in the way of this one. */
  predicate Rivals(other: Driver, spec: DriverSpec) {
    || other.spec.None?
    || other.spec.value.serviceAccount == spec.serviceAccount
    || exists manifest | manifest in spec.manages :: Manages(other, manifest)
  }

  /** What `project_driver_manifests` demands of a Driver's specification. */
  predicate Projects(registry: seq<string>, drivers: map<string, Driver>, d: string, spec: DriverSpec) {
    && ValidPath(spec.serviceAccount)
    && (forall manifest | manifest in spec.manages :: ValidPath(manifest) && manifest in registry)
    && (forall watch | watch in spec.watches :: ValidWatch(watch))
    && spec.manages != []
    && (forall i, j | 0 <= i < j < |spec.manages| :: spec.manages[i] != spec.manages[j])
    && (forall e | e in drivers && e != d :: !Rivals(drivers[e], spec))
  }

  function UpdatedDriver(driver: Driver, state: string, spec: DriverSpec): Driver {
    driver.(state := state, spec := Some(spec), revision := driver.revision + 1)
  }

  /** `update_resource` on a Driver Resource. */
  ghost function UpdateDriver(s: StoreState, d: string, expectedRevision: nat, state: string, spec: DriverSpec,
                              owners: map<string, string>, order: seq<string>): (StoreState, Reply) {
    if d !in s.drivers || s.drivers[d].path != d then (s, NotFound)
    else if s.drivers[d].revision != expectedRevision || s.drivers[d].isProtected then (s, Conflict)
    else if !Projects(s.registry, s.drivers, d, spec) then (s, Refused)
    else (ReplaceDriver(s, UpdatedDriver(s.drivers[d], state, spec), owners, order), Done)
  }

  function SetStatus(s: StoreState, d: string, status: DriverState): StoreState
    requires d in s.drivers
  {
    s.(drivers := s.drivers[d := s.drivers[d].(status := status)])
  }

  function MarkReady(s: StoreState, d: string, generation: nat): (StoreState, Reply) {
    if d !in s.drivers then (s, NotFound)
    else if s.drivers[d].generation != generation || s.drivers[d].status != Starting then (s, Conflict)
    else (SetStatus(s, d, Running), Done)
  }

  function MarkFailed(s: StoreState, d: string, generation: nat): (StoreState, Reply) {
    if d !in s.drivers then (s, NotFound)
    else if s.drivers[d].generation != generation then (s, Conflict)
    else (SetStatus(s, d, Failed), Done)
  }

  function MarkStopped(s: StoreState, d: string, generation: nat): (StoreState, Reply) {
    if d !in s.drivers then (s, NotFound)
    else if s.drivers[d].generation != generation then (s, Conflict)
    else (SetStatus(s, d, Stopped), Done)
  }

  // ---- Claims ----

  function LiveIds(deliveries: map<nat, Delivery>, d: string, generation: nat): set<nat> {
    set id | id in deliveries && deliveries[id].driver == d && deliveries[id].generation == generation
  }

  function ActiveResources(deliveries: map<nat, Delivery>, d: string, generation: nat): set<string> {
    set id | id in LiveIds(deliveries, d, generation) && deliveries[id].work.Reconcile? :: deliveries[id].work.resource.path
  }

  predicate HasActiveRun(deliveries: map<nat, Delivery>, d: string, generation: nat) {
    exists id | id in LiveIds(deliveries, d, generation) :: deliveries[id].work.Execute?
  }

  function Expired(deliveries: map<nat, Delivery>, d: string, generation: nat, now: int): set<nat> {
    set id | id in LiveIds(deliveries, d, generation) && deliveries[id].leaseExpires <= now
  }

  function Renewed(deliveries: map<nat, Delivery>, ids: set<nat>, now: int): map<nat, Delivery> {
    map id | id in deliveries ::
      if id in ids then deliveries[id].(leaseExpires := now + LEASE_SECONDS) else deliveries[id]
  }

  function Deliver(s: StoreState, d: string, generation: nat, work: Work, now: int): StoreState {
    s.(deliveries := s.deliveries[s.nextId := Delivery(d, generation, work, Pending, now + LEASE_SECONDS)], nextId := s.nextId + 1)
  }

  /** A Run of the Driver that waits to be executed, or was being executed. */
  predicate Runnable(s: StoreState, d: string, run: string) {
    run in s.runs && s.runs[run].driver == d && (s.runs[run].state == RunQueued || s.runs[run].state == RunRunning)
  }

  function ClaimRun(s: StoreState, d: string, generation: nat, run: string, now: int): StoreState
    requires Runnable(s, d, run)
  {
    Deliver(s.(runs := s.runs[run := s.runs[run].(generation := Some(generation), state := RunRunning)]), d, generation, Execute(run), now)
  }

  /** A Run found waiting comes first, if there is room and none is being executed. */
  predicate TakesRun(s: StoreState, d: string, generation: nat, limit: nat, run: Option<string>) {
    && |LiveIds(s.deliveries, d, generation)| < limit && !HasActiveRun(s.deliveries, d, generation)
    && run.Some? && Runnable(s, d, run.value)
  }

  function WithRun(s: StoreState, d: string, generation: nat, limit: nat, now: int, run: Option<string>): StoreState {
    if TakesRun(s, d, generation, limit, run) then ClaimRun(s, d, generation, run.value, now) else s
  }

  /** Fill the remaining capacity from the queue. */
  function Fill(s: StoreState, d: string, generation: nat, limit: nat, now: int): StoreState
    decreases |s.queue.latest|
  {
    if |LiveIds(s.deliveries, d, generation)| >= limit then s
    else
      var (q, item) := Popped(s.queue, d, ActiveResources(s.deliveries, d, generation));
      var s' := s.(queue := q);
      if item.None? then s'
      else
        PopShrinks(s.queue, d, ActiveResources(s.deliveries, d, generation));
        if item.value.resource !in s.rows || !IsPending(q.owners, s.rows[item.value.resource], d, item.value.observation) then
          Fill(s', d, generation, limit, now)
        else
          var work := Reconcile(item.value.observation.driverRevision, s.rows[item.value.resource]);
          Fill(Deliver(s', d, generation, work, now), d, generation, limit, now)
  }

  lemma PopShrinks(q: QueueState, d: string, excluded: set<string>)
    requires Popped(q, d, excluded).1.Some?
    ensures |Popped(q, d, excluded).0.latest| < |q.latest|
  {
  }

  /** `renewed` are the expired deliveries handed out again, `run` the Run found first. */
  function Claim(s: StoreState, d: string, generation: nat, limit: nat, now: int, renewed: set<nat>,
                 run: Option<string>): (StoreState, Reply) {
    if limit == 0 then (s, Claimed({}))
    else if d !in s.drivers then (s, NotFound)
    else if !Current(s.drivers, d, generation) then (s, Conflict)
    else
      var s1 := s.(deliveries := Renewed(s.deliveries, renewed, now));
      var s2 := WithRun(s1, d, generation, limit, now, run);
      var s3 := Fill(s2, d, generation, limit, now);
      (s3, Claimed(renewed + (set id | id in s3.deliveries && s.nextId <= id < s3.nextId)))
  }

  function Least(a: nat, b: nat): nat {
    if a <= b then a else b
  }

  /** The choices a claim may make. */
  ghost predicate LegalClaim(s: StoreState, d: string, generation: nat, limit: nat, now: int, renewed: set<nat>,
                             run: Option<string>) {
    && limit <= MAX_IN_FLIGHT
    && renewed <= Expired(s.deliveries, d, generation, now)
    && |renewed| == Least(|Expired(s.deliveries, d, generation, now)|, limit)
    && (run.Some? ==> Runnable(s, d, run.value))
    && (run.None? && |LiveIds(s.deliveries, d, generation)| < limit && !HasActiveRun(s.deliveries, d, generation) ==>
          forall r :: !Runnable(s, d, r))
  }

  // ---- Opening the store ----

  /** Opening (again) what is on disk: recompute every row, rebuild the queue, and start
      with no deliveries and empty caches. Delivery ids are never used twice. */
  ghost function Reopened(s: StoreState, drivers: seq<Driver>, paths: seq<string>): StoreState
    requires forall path | path in paths :: path in s.rows
  {
    var rows := map p | p in s.rows :: Reobserve(s.drivers, s.rows[p]);
    s.(rows := rows, queue := ScheduledAll(EMPTY.(owners := OwnersOf(drivers)), seq(|paths|, k requires 0 <= k < |paths| => rows[paths[k]])),
    deliveries := map[], results := map[], completed := {}, completedOrder := [])
  }

  /** `list_drivers` lists the documents of the table. */
  ghost predicate Lists(drivers: map<string, Driver>, listing: seq<Driver>) {
    && (forall k | 0 <= k < |listing| :: listing[k].path in drivers && drivers[listing[k].path] == listing[k])
    && (forall d | d in drivers :: drivers[d] in listing)
  }

  ghost predicate Listings(s: StoreState, listing: seq<Driver>, paths: seq<string>) {
    Lists(s.drivers, listing) && forall p :: p in paths <==> p in s.rows
  }

  // ---- Runs of the whole store ----

  datatype Event =
    | Creates(planned: Planned)
    | Writes(path: string, expectedRevision: nat, state: Option<string>, spec: Json)
    | Deletes(path: string, expectedRevision: nat)
    | UpdatesDriver(d: string, expectedRevision: nat, control: string, driverSpec: DriverSpec, owners: map<string, string>, order: seq<string>)
    | Starts(d: string, now: int, owners: map<string, string>, order: seq<string>)
    | Stops(d: string, owners: map<string, string>, order: seq<string>)
    | EnqueuesRun(run: string, target: string, d: string)
    | Reopens(listing: seq<Driver>, paths: seq<string>)
    | Says(d: string, generation: nat, message: Message)

  /** What a Driver process of some generation can ask for. */
  datatype Message =
    | Ready | HasFailed | HasStopped
    | Claims(limit: nat, now: int, renewed: set<nat>, candidate: Option<string>)
    | ResetsLeases(now: int)
    | RenewsLeases(ids: seq<nat>, now: int)
    | Acks(id: nat, now: int)
    | Mutates(id: nat, request: nat, ms: seq<Mutation>)
    | FinishesRun(id: nat, ms: seq<Mutation>, succeeded: bool)
    | Completes(id: nat)
    | Abandons(id: nat)

  ghost function Hear(s: StoreState, d: string, g: nat, message: Message): (StoreState, Reply) {
    match message
    case Ready => MarkReady(s, d, g)
    case HasFailed => MarkFailed(s, d, g)
    case HasStopped => MarkStopped(s, d, g)
    case Claims(limit, now, renewed, candidate) => Claim(s, d, g, limit, now, renewed, candidate)
    case ResetsLeases(now) => ResetLeases(s, d, g, now)
    case RenewsLeases(ids, now) => RenewLeases(s, d, g, ids, now)
    case Acks(id, now) => Acknowledge(s, id, d, g, now)
    case Mutates(id, request, ms) => Apply(s, id, request, d, g, ms)
    case FinishesRun(id, ms, succeeded) => FinishRun(s, id, d, g, ms, succeeded)
    case Completes(id) => Complete(s, id, d, g)
    case Abandons(id) => Abandon(s, id, d, g)
  }

  ghost function Step(s: StoreState, e: Event): (StoreState, Reply) {
    match e
    case Creates(planned) => Create(s, planned)
    case Writes(path, expectedRevision, state, spec) => Write(s, path, expectedRevision, state, spec)
    case Deletes(path, expectedRevision) => Delete(s, path, expectedRevision)
    case UpdatesDriver(d, expectedRevision, control, spec, owners, order) => UpdateDriver(s, d, expectedRevision, control, spec, owners, order)
    case Starts(d, now, owners, order) => StartDriver(s, d, now, owners, order)
    case Stops(d, owners, order) => StopDriver(s, d, owners, order)
    case EnqueuesRun(run, target, d) => EnqueueRun(s, run, target, d)
    case Reopens(listing, paths) => if Listings(s, listing, paths) then (Reopened(s, listing, paths), Done) else (s, Conflict)
    case Says(d, g, message) => Hear(s, d, g, message)
  }
}
