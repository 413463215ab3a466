/** The dialogue of the control plane (apps/kas-api/src/lib.rs) and its Drivers (crates/kas-driver/src/lib.rs). */
module Sessions {
  import opened Wrappers
  import opened Resources
  import opened Queue
  import opened Control
  import opened Invariants
  import opened Bookkeeping
  import opened Claims
  import opened Safety
  import opened History
  import opened Progress

  // One transition system: the server end and the client end of every connection, the
  // messages between them, and the store all of them work on.

  // ---- Runs in pieces ----

  lemma AfterOne(s: StoreState, e: Event)
    ensures After(s, [e]) == Step(s, e).0
    ensures AllAdmissible(s, [e]) <==> Admissible(s, e)
  {
    hide Step, Admissible;
    assert [e][..0] == [] && After(s, []) == s;
  }

  lemma AfterTwo(s: StoreState, e: Event, f: Event)
    ensures After(s, [e, f]) == Step(Step(s, e).0, f).0
    ensures AllAdmissible(s, [e, f]) <==> Admissible(s, e) && Admissible(Step(s, e).0, f)
  {
    hide Step, Admissible;
    assert [e, f][..1] == [e];
    AfterOne(s, e);
  }

  lemma {:induction false} AfterConcat(s: StoreState, es: seq<Event>, fs: seq<Event>)
    requires AllAdmissible(s, es) && AllAdmissible(After(s, es), fs)
    ensures After(s, es + fs) == After(After(s, es), fs) && AllAdmissible(s, es + fs)
  {
    hide Step, Admissible;
    if fs == [] {
      assert es + fs == es;
    } else {
      AfterConcat(s, es, fs[..|fs| - 1]);
      assert (es + fs)[..|es + fs| - 1] == es + fs[..|fs| - 1];
    }
  }

  lemma {:induction false} RunGrows(s: StoreState, es: seq<Event>)
    requires BooksOk(s) && AllAdmissible(s, es)
    ensures Grows(s, After(s, es)) && BooksOk(After(s, es))
    ensures Recorded(s) ==> Recorded(After(s, es))
  {
    hide BooksOk, Step, Admissible, Recorded;
    if es != [] {
      var front := es[..|es| - 1];
      RunGrows(s, front);
      StepGrows(After(s, front), es[|es| - 1]);
      StepBooks(After(s, front), es[|es| - 1]);
      GrowsTransitive(s, After(s, front), After(s, es));
    }
  }

  // ---- Messages ----

  datatype FromServer =
    | Delivered(id: nat, isRun: bool)
    | MutationResult(request: nat, committed: bool)
    | ReconcileCompleteResult(id: nat)

  /** `outcome` is the `complete_run` that ends the batch of a Run. */
  datatype FromClient =
    | Ack(id: nat)
    | MutationBatch(request: nat, id: nat, generation: nat, ms: seq<Mutation>, outcome: Option<bool>)
    | ReconcileComplete(id: nat, generation: nat)
    | Heartbeat(ids: seq<nat>)

  // ---- The server end ----

  /** What handling a message comes to: calls of the store, the deliveries in flight, and
      a response; or the connection is closed. */
  datatype Handled = Handled(events: seq<Event>, inFlight: set<nat>, open: bool, response: Option<FromServer>)

  ghost function HandleAck(s: StoreState, d: string, g: nat, inFlight: set<nat>, id: nat, now: int): Handled {
    var e := Says(d, g, Acks(id, now));
    if id !in inFlight then Handled([], inFlight, false, None)
    else Handled([e], inFlight, Step(s, e).1 == Done, None)
  }

  function Within(ids: seq<nat>, inFlight: set<nat>): seq<nat> {
    if ids == [] then []
    else
      var last := |ids| - 1;
      Within(ids[..last], inFlight) + (if ids[last] in inFlight then [ids[last]] else [])
  }

  /** The leases of what is in flight; then `heartbeat_driver` refuses a Driver that does
      not run in this generation. */
  ghost function HandleHeartbeat(s: StoreState, d: string, g: nat, inFlight: set<nat>, ids: seq<nat>,
                                 now: int): Handled {
    var e := Says(d, g, RenewsLeases(Within(ids, inFlight), now));
    Handled([e], inFlight, Step(s, e).1 == Done && Current(s.drivers, d, g), None)
  }

  /** The batch goes to the store only if it is of this generation, for a delivery in
      flight that is live and still this Driver's, and of the kind the delivery asks for. */
  predicate Accepts(s: StoreState, d: string, g: nat, inFlight: set<nat>, batch: FromClient, authorized: bool)
    requires batch.MutationBatch?
  {
    && batch.generation == g && batch.id in inFlight && Holds(s, batch.id, d, g) && authorized
    && (s.deliveries[batch.id].work.Execute? <==> batch.outcome.Some?)
  }

  function BatchEvent(d: string, g: nat, batch: FromClient): Event
    requires batch.MutationBatch?
  {
    Says(d, g, if batch.outcome.Some? then FinishesRun(batch.id, batch.ms, batch.outcome.value)
    else Mutates(batch.id, batch.request, batch.ms))
  }

  /** A Run ends with its batch. A conflict gives the delivery back to the queue. */
  ghost function HandleBatch(s: StoreState, d: string, g: nat, inFlight: set<nat>, batch: FromClient,
                             authorized: bool): Handled
    requires batch.MutationBatch?
  {
    var rejected := Some(MutationResult(batch.request, false));
    if !Accepts(s, d, g, inFlight, batch, authorized) then Handled([], inFlight, true, rejected)
    else
      var e := BatchEvent(d, g, batch);
      var (s', reply) := Step(s, e);
      if reply.Replied? then
        Handled([e], if batch.outcome.Some? then inFlight - {batch.id} else inFlight, true, Some(MutationResult(batch.request, true)))
      else if reply == Conflict then
        var f := Says(d, g, Abandons(batch.id));
        Handled([e, f], if Step(s', f).1 == Done then inFlight - {batch.id} else inFlight, true, rejected)
      else Handled([e], inFlight, true, rejected)
  }

  ghost function HandleComplete(s: StoreState, d: string, g: nat, inFlight: set<nat>, id: nat,
                                generation: nat): Handled {
    var e := Says(d, g, Completes(id));
    if generation != g then Handled([], inFlight, false, None)
    else if Step(s, e).1 == Done || Step(s, e).1 == AlreadyCompleted then
      Handled([e], inFlight - {id}, true, Some(ReconcileCompleteResult(id)))
    else Handled([e], inFlight, false, None)
  }

  ghost function Handle(s: StoreState, d: string, g: nat, inFlight: set<nat>, m: FromClient, now: int,
                        authorized: bool): Handled {
    match m
    case Ack(id) => HandleAck(s, d, g, inFlight, id, now)
    case Heartbeat(ids) => HandleHeartbeat(s, d, g, inFlight, ids, now)
    case MutationBatch(_, _, _, _, _) => HandleBatch(s, d, g, inFlight, m, authorized)
    case ReconcileComplete(id, generation) => HandleComplete(s, d, g, inFlight, id, generation)
  }

  /** The server claims what fits into the window of the connection. */
  predicate HasRoom(s: StoreState, d: string, g: nat, inFlight: set<nat>) {
    |inFlight| < MAX_IN_FLIGHT && Current(s.drivers, d, g)
  }

  function ClaimEvent(d: string, g: nat, inFlight: set<nat>, now: int, renewed: set<nat>,
                      candidate: Option<string>): Event
    requires |inFlight| < MAX_IN_FLIGHT
  {
    Says(d, g, Claims(MAX_IN_FLIGHT - |inFlight|, now, renewed, candidate))
  }

  /** And sends what is not in flight already. */
  ghost function Sending(s: StoreState, d: string, g: nat, inFlight: set<nat>, now: int, renewed: set<nat>,
                         candidate: Option<string>): set<nat>
    requires HasRoom(s, d, g, inFlight)
  {
    Claim(s, d, g, MAX_IN_FLIGHT - |inFlight|, now, renewed, candidate).1.ids - inFlight
  }

  // ---- The client end ----

  /** A task at work on a delivery. A task that is over is not in the table. */
  datatype Task = Reconciling | Executing | Asking(isRun: bool) | Answered | Completing

  /** The table after a message: a delivery starts a task only if none is at work on it,
      and an answer goes to whoever waits for it. */
  function Told(tasks: map<nat, Task>, m: FromServer): map<nat, Task> {
    match m
    case Delivered(id, isRun) => if id in tasks then tasks else tasks[id := if isRun then Executing else Reconciling]
    case MutationResult(request, committed) =>
      if !(request in tasks && tasks[request].Asking?) then tasks
      else if committed && !tasks[request].isRun then tasks[request := Answered]
      else tasks - {request}
    case ReconcileCompleteResult(id) =>
      if id in tasks && tasks[id].Completing? then tasks - {id} else tasks
  }

  /** What the implementation of a Driver makes of a Resource: mutations, or an error. */
  datatype Product = Produced(ms: seq<Mutation>) | Erred

  /** What a task does when it is not waiting for an answer: the table, and what it sends. */
  function Next(tasks: map<nat, Task>, g: nat, id: nat, product: Product): (map<nat, Task>, Option<FromClient>)
    requires id in tasks
  {
    match tasks[id]
    case Reconciling =>
      if product.Erred? then (tasks - {id}, None)
      else if product.ms == [] then (tasks[id := Completing], Some(ReconcileComplete(id, g)))
      else (tasks[id := Asking(false)], Some(MutationBatch(id, id, g, product.ms, None)))
    case Executing =>
      (tasks[id := Asking(true)],
       Some(if product.Erred? then MutationBatch(id, id, g, [], Some(false)) else MutationBatch(id, id, g, product.ms, Some(true))))
    case Answered => (tasks[id := Completing], Some(ReconcileComplete(id, g)))
    case Asking(_) => (tasks, None)
    case Completing => (tasks, None)
  }

  // ---- Everything together ----

  /** One connection: the server end, the client end, and the messages under way. The last
      three are histories: the deliveries ever sent on it, those for which a task was
      started, and those for which a batch was sent. */
  datatype Session = Session(
    driver: string,
    generation: nat,
    serving: bool,
    inFlight: set<nat>,
    down: multiset<FromServer>,
    connected: bool,
    tasks: map<nat, Task>,
    up: multiset<FromClient>,
    sent: set<nat>,
    started: set<nat>,
    asked: set<nat>)

  /** The store, all connections there ever were, and the calls made so far. */
  datatype World = World(store: StoreState, sessions: seq<Session>, trace: seq<Event>)

  datatype Move =
    | Connects(d: string, generation: nat, now: int)
    | Claiming(k: nat, now: int, renewed: set<nat>, candidate: Option<string>)
    | Hearing(k: nat, now: int, said: FromClient, authorized: bool)
    | Receiving(k: nat, told: FromServer)
    | Working(k: nat, id: nat, product: Product)
    | Beating(k: nat, ids: seq<nat>)
    | HangsUp(k: nat)
    | Drops(k: nat)
    | Elsewhere(e: Event)

  /** Only connections talk to the store about deliveries. */
  predicate FromElsewhere(e: Event) {
    e.Says? ==> e.message.Ready? || e.message.HasFailed? || e.message.HasStopped?
  }

  /** Messages may overtake one another and may get lost, ends may close at any time, and
      an old connection may still be served when a new one is there. */
  ghost predicate Possible(w: World, m: Move) {
    && (!m.Connects? && !m.Elsewhere? ==> m.k < |w.sessions|)
    && match m
       case Connects(d, g, _) =>
         && d in w.store.drivers && w.store.drivers[d].generation == g
         && w.store.drivers[d].status in {Starting, Running, Stopping}
       case Claiming(k, now, renewed, candidate) =>
         var c := w.sessions[k];
         && c.serving && HasRoom(w.store, c.driver, c.generation, c.inFlight)
         && LegalClaim(w.store, c.driver, c.generation, MAX_IN_FLIGHT - |c.inFlight|, now, renewed, candidate)
       case Hearing(k, _, said, _) => w.sessions[k].serving && said in w.sessions[k].up
       case Receiving(k, told) => w.sessions[k].connected && told in w.sessions[k].down
       case Working(k, id, _) => w.sessions[k].connected && id in w.sessions[k].tasks
       case Beating(k, ids) => w.sessions[k].connected && ids != [] && forall id :: id in ids <==> id in w.sessions[k].tasks
       case HangsUp(_) => true
       case Drops(_) => true
       case Elsewhere(e) => FromElsewhere(e) && Admissible(w.store, e)
  }

  ghost function Does(w: World, m: Move): seq<Event>
    requires Possible(w, m)
  {
    match m
    case Connects(d, g, now) => [Says(d, g, ResetsLeases(now))]
    case Claiming(k, now, renewed, candidate) =>
      var c := w.sessions[k];
      [ClaimEvent(c.driver, c.generation, c.inFlight, now, renewed, candidate)]
    case Hearing(k, now, said, authorized) =>
      var c := w.sessions[k];
      Handle(w.store, c.driver, c.generation, c.inFlight, said, now, authorized).events
    case Elsewhere(e) => [e]
    case _ => []
  }

  ghost function WithSent(s: StoreState, c: Session, sending: set<nat>): Session {
    c.(inFlight := c.inFlight + sending, sent := c.sent + sending,
    down := c.down + multiset(set id | id in sending && id in s.deliveries :: Delivered(id, s.deliveries[id].work.Execute?)))
  }

  ghost function Turned(s: StoreState, c: Session, now: int, renewed: set<nat>, candidate: Option<string>): Session
    requires HasRoom(s, c.driver, c.generation, c.inFlight)
  {
    WithSent(Claim(s, c.driver, c.generation, MAX_IN_FLIGHT - |c.inFlight|, now, renewed, candidate).0, c,
             Sending(s, c.driver, c.generation, c.inFlight, now, renewed, candidate))
  }

  function Sends<T>(under: multiset<T>, message: Option<T>): multiset<T> {
    if message.Some? then under + multiset{message.value} else under
  }

  ghost function Heard(s: StoreState, c: Session, said: FromClient, now: int, authorized: bool): Session {
    var h := Handle(s, c.driver, c.generation, c.inFlight, said, now, authorized);
    c.(up := c.up - multiset{said}, inFlight := h.inFlight, serving := h.open, down := Sends(c.down, h.response))
  }

  function Received(c: Session, told: FromServer): Session {
    c.(down := c.down - multiset{told}, tasks := Told(c.tasks, told),
    started := if told.Delivered? then c.started + {told.id} else c.started,
    up := Sends(c.up, if told.Delivered? then Some(Ack(told.id)) else None))
  }

  function Worked(c: Session, id: nat, product: Product): Session
    requires id in c.tasks
  {
    var (tasks, message) := Next(c.tasks, c.generation, id, product);
    c.(tasks := tasks, up := Sends(c.up, message),
    asked := if message.Some? && message.value.MutationBatch? then c.asked + {id} else c.asked)
  }

  ghost function SessionAfter(w: World, m: Move): Session
    requires Possible(w, m) && !m.Connects? && !m.Elsewhere?
  {
    var c := w.sessions[m.k];
    match m
    case Claiming(_, now, renewed, candidate) => Turned(w.store, c, now, renewed, candidate)
    case Hearing(_, now, said, authorized) => Heard(w.store, c, said, now, authorized)
    case Receiving(_, told) => Received(c, told)
    case Working(_, id, product) => Worked(c, id, product)
    case Beating(_, ids) => c.(up := c.up + multiset{Heartbeat(ids)})
    case HangsUp(_) => c.(serving := false)
    case Drops(_) => c.(connected := false, tasks := map[])
  }

  ghost function Moved(w: World, m: Move): World
    requires Possible(w, m)
  {
    World(After(w.store, Does(w, m)),
          match m
          case Connects(d, g, _) => w.sessions + [Session(d, g, true, {}, multiset{}, true, map[], multiset{}, {}, {}, {})]
          case Elsewhere(_) => w.sessions
          case _ => w.sessions[m.k := SessionAfter(w, m)],
          w.trace + Does(w, m))
  }

  // ---- What always holds ----

  /** The server end: what was sent is in flight, or gone for good; and it is sent once. */
  ghost predicate ServerOk(s: StoreState, c: Session) {
    && |c.inFlight| <= MAX_IN_FLIGHT && c.inFlight <= c.sent
    && (forall id | id in c.sent :: id < s.nextId && (id in s.deliveries ==> id in c.inFlight))
  }

  /** The deliveries under way were not received before. */
  ghost predicate WireOk(c: Session) {
    && c.started <= c.sent
    && (forall id, isRun | Delivered(id, isRun) in c.down ::
          && id in c.sent && id !in c.started && c.down[Delivered(id, isRun)] == 1 && Delivered(id, !isRun) !in c.down)
  }

  /** The client end: a task sends one batch, under the id of its delivery, and says that
      it is done after everything else. */
  ghost predicate ClientOk(c: Session) {
    && c.asked <= c.started && c.tasks.Keys <= c.started
    && (forall id | id in c.tasks ::
          && (c.tasks[id].Reconciling? || c.tasks[id].Executing? ==> id !in c.asked)
          && (c.tasks[id].Asking? || c.tasks[id].Answered? ==> id in c.asked))
    && (forall m | m in c.up && m.MutationBatch? :: m.request == m.id && m.generation == c.generation && m.id in c.asked)
    && (forall m | m in c.up && m.ReconcileComplete? ::
          m.generation == c.generation && m.id in c.started && (m.id in c.tasks ==> c.tasks[m.id].Completing?))
  }

  ghost predicate Effective(s: StoreState, c: Session, id: nat) {
    (id, id, c.generation) in s.commits
  }

  /** What a client is told to be committed is; and no task that sent a batch says that
      it is done before. */
  ghost predicate Truthful(s: StoreState, c: Session) {
    && (forall m | m in c.down && m.MutationResult? && m.committed :: Effective(s, c, m.request))
    && (forall id | id in c.tasks && (c.tasks[id].Answered? || (c.tasks[id].Completing? && id in c.asked)) :: Effective(s, c, id))
    && (forall m | m in c.up && m.ReconcileComplete? && m.id in c.asked :: Effective(s, c, m.id))
  }

  ghost predicate SessionOk(s: StoreState, c: Session) {
    ServerOk(s, c) && WireOk(c) && ClientOk(c) && Truthful(s, c)
  }

  predicate StableRequests(es: seq<Event>) {
    forall e | e in es && e.Says? && e.message.Mutates? :: e.message.request == e.message.id
  }

  ghost predicate WorldOk(s0: StoreState, w: World) {
    && BooksOk(w.store) && Recorded(w.store)
    && AllAdmissible(s0, w.trace) && w.store == After(s0, w.trace) && StableRequests(w.trace)
    && forall k | 0 <= k < |w.sessions| :: SessionOk(w.store, w.sessions[k])
  }

  /** Whatever happens elsewhere, a connection stays as it should be. */
  lemma SessionGrows(s: StoreState, s': StoreState, c: Session)
    requires SessionOk(s, c) && Grows(s, s')
    ensures SessionOk(s', c)
  {
  }

  // ---- The calls a connection makes ----

  /** Everything a connection does to the store is said by its own Driver, in its own generation. */
  predicate SaidBy(es: seq<Event>, d: string, g: nat) {
    forall e | e in es :: e.Says? && e.d == d && e.generation == g
  }

  lemma HandleSays(s: StoreState, d: string, g: nat, inFlight: set<nat>, m: FromClient, now: int, authorized: bool)
    ensures var es := Handle(s, d, g, inFlight, m, now, authorized).events;
            && SaidBy(es, d, g) && AllAdmissible(s, es)
            && (m.MutationBatch? && m.request == m.id ==> StableRequests(es))
            && (!m.MutationBatch? ==> StableRequests(es))
  {
    hide Step;
    var es := Handle(s, d, g, inFlight, m, now, authorized).events;
    if |es| == 1 {
      assert es == [es[0]];
      AfterOne(s, es[0]);
    } else if |es| == 2 {
      assert es == [es[0], es[1]];
      AfterTwo(s, es[0], es[1]);
    }
  }

  /** A connection of an earlier generation cannot change the store any more. */
  lemma {:induction false} OldConnectionsAreFencedOff(s: StoreState, es: seq<Event>, d: string, g: nat)
    requires BooksOk(s) && SaidBy(es, d, g) && !(d in s.drivers && s.drivers[d].generation == g)
    ensures After(s, es) == s
  {
    hide BooksOk, Hear;
    if es != [] {
      OldConnectionsAreFencedOff(s, es[..|es| - 1], d, g);
      var last := es[|es| - 1];
      assert last in es;
      StaleMessagesDoNothing(s, d, g, last.message);
    }
  }

  // ---- Each end keeps its part ----

  lemma OneOrTheOther(told: FromServer, id: nat, isRun: bool)
    ensures told.Delivered? && told.id == id ==> told == Delivered(id, isRun) || told == Delivered(id, !isRun)
  {
  }

  lemma ReceivedWire(c: Session, told: FromServer)
    requires WireOk(c) && told in c.down
    ensures WireOk(Received(c, told))
  {
    hide Told;
    var c' := Received(c, told);
    forall id, isRun | Delivered(id, isRun) in c'.down
      ensures id in c'.sent && id !in c'.started && c'.down[Delivered(id, isRun)] == 1 && Delivered(id, !isRun) !in c'.down
    {
      assert Delivered(id, isRun) in c.down;
      OneOrTheOther(told, id, isRun);
    }
  }

  lemma ReceivedClient(c: Session, told: FromServer)
    requires WireOk(c) && ClientOk(c) && told in c.down
    ensures ClientOk(Received(c, told))
  {
    match told
    case Delivered(id, isRun) =>
    case MutationResult(request, committed) =>
    case ReconcileCompleteResult(id) =>
  }

  lemma ReceivedTruthful(s: StoreState, c: Session, told: FromServer)
    requires ClientOk(c) && Truthful(s, c) && told in c.down
    ensures Truthful(s, Received(c, told))
  {
    match told
    case Delivered(id, isRun) =>
    case MutationResult(request, committed) =>
    case ReconcileCompleteResult(id) =>
  }

  lemma ReceivedKeeps(s: StoreState, c: Session, told: FromServer)
    requires SessionOk(s, c) && told in c.down
    ensures SessionOk(s, Received(c, told))
  {
    hide WireOk, ClientOk, Truthful;
    ReceivedWire(c, told);
    ReceivedClient(c, told);
    ReceivedTruthful(s, c, told);
  }

  lemma WorkedClient(c: Session, id: nat, product: Product)
    requires ClientOk(c) && id in c.tasks
    ensures ClientOk(Worked(c, id, product))
  {
  }

  lemma WorkedTruthful(s: StoreState, c: Session, id: nat, product: Product)
    requires ClientOk(c) && Truthful(s, c) && id in c.tasks
    ensures Truthful(s, Worked(c, id, product))
  {
  }

  lemma WorkedKeeps(s: StoreState, c: Session, id: nat, product: Product)
    requires SessionOk(s, c) && id in c.tasks
    ensures SessionOk(s, Worked(c, id, product))
  {
    hide ClientOk, Truthful;
    WorkedClient(c, id, product);
    WorkedTruthful(s, c, id, product);
  }

  /** The call of the store behind each message. */
  lemma StepOf(s: StoreState, e: Event)
    requires e.Says?
    ensures e.message.Acks? ==> Step(s, e) == Acknowledge(s, e.message.id, e.d, e.generation, e.message.now)
    ensures e.message.RenewsLeases? ==> Step(s, e) == RenewLeases(s, e.d, e.generation, e.message.ids, e.message.now)
    ensures e.message.Mutates? ==> Step(s, e) == Apply(s, e.message.id, e.message.request, e.d, e.generation, e.message.ms)
    ensures e.message.FinishesRun? ==>
              Step(s, e) == FinishRun(s, e.message.id, e.d, e.generation, e.message.ms, e.message.succeeded)
    ensures e.message.Completes? ==> Step(s, e) == Complete(s, e.message.id, e.d, e.generation)
    ensures e.message.Abandons? ==> Step(s, e) == Abandon(s, e.message.id, e.d, e.generation)
  {
    hide Acknowledge, RenewLeases, Apply, FinishRun, Complete, Abandon;
  }

  lemma StepClaims(s: StoreState, e: Event)
    requires e.Says? && e.message.Claims?
    ensures Step(s, e) == Claim(s, e.d, e.generation, e.message.limit, e.message.now, e.message.renewed, e.message.candidate)
  {
    hide Claim;
  }

  lemma AbandonedIsGone(s: StoreState, id: nat, d: string, g: nat)
    ensures Abandon(s, id, d, g).1 == Done ==> id !in Abandon(s, id, d, g).0.deliveries
  {
  }

  lemma CompletedIsGone(s: StoreState, id: nat, d: string, g: nat)
    requires BooksOk(s)
    ensures var (s', reply) := Complete(s, id, d, g); reply == Done || reply == AlreadyCompleted ==> id !in s'.deliveries
  {
    hide DeliveriesOk, HistoryOk, SchedulePaths, Remember;
  }

  /** A batch answered as committed is: it took effect now, or before in this generation. */
  lemma BatchCommits(s: StoreState, id: nat, d: string, g: nat, ms: seq<Mutation>)
    requires Recorded(s) && Holds(s, id, d, g)
    ensures Apply(s, id, id, d, g, ms).1.Replied? ==> (id, id, g) in Apply(s, id, id, d, g, ms).0.commits
  {
    hide ApplyMutations, SchedulePaths;
    RefusalsAreNotReplies(TablesOf(s), s.registry, s.drivers, d, g, ms);
  }

  lemma RunCommits(s: StoreState, id: nat, d: string, g: nat, ms: seq<Mutation>, succeeded: bool)
    ensures var (s', reply) := FinishRun(s, id, d, g, ms, succeeded);
            reply.Replied? ==> (id, id, g) in s'.commits && id !in s'.deliveries
  {
    hide ApplyMutations, SchedulePaths, Remember;
    RefusalsAreNotReplies(TablesOf(s), s.registry, s.drivers, d, g, ms);
  }

  lemma HandlingBatch(s: StoreState, d: string, g: nat, inFlight: set<nat>, batch: FromClient, authorized: bool)
    requires BooksOk(s) && Recorded(s) && batch.MutationBatch? && batch.request == batch.id
    ensures var h := HandleBatch(s, d, g, inFlight, batch, authorized);
            var s' := After(s, h.events);
            && (h.inFlight == inFlight || (h.inFlight == inFlight - {batch.id} && batch.id !in s'.deliveries))
            && h.response.Some? && h.response.value.MutationResult? && h.response.value.request == batch.id
            && (h.response.value.committed ==> (batch.id, batch.id, g) in s'.commits)
  {
    hide Step, Apply, FinishRun, Abandon, BooksOk, Recorded;
    if Accepts(s, d, g, inFlight, batch, authorized) {
      var e := BatchEvent(d, g, batch);
      AfterOne(s, e);
      StepOf(s, e);
      if batch.outcome.Some? {
        RunCommits(s, batch.id, d, g, batch.ms, batch.outcome.value);
      } else {
        BatchCommits(s, batch.id, d, g, batch.ms);
      }
      var f := Says(d, g, Abandons(batch.id));
      AfterTwo(s, e, f);
      StepOf(Step(s, e).0, f);
      AbandonedIsGone(Step(s, e).0, batch.id, d, g);
    }
  }

  lemma ResponseKeeps(s: StoreState, c: Session, said: FromClient, h: Handled)
    requires SessionOk(s, c)
    requires h.inFlight <= c.inFlight && forall id | id in c.inFlight && id !in h.inFlight :: id !in s.deliveries
    requires h.response.Some? ==> !h.response.value.Delivered?
    requires h.response.Some? && h.response.value.MutationResult? && h.response.value.committed ==>
               Effective(s, c, h.response.value.request)
    ensures SessionOk(s, c.(up := c.up - multiset{said}, inFlight := h.inFlight, serving := h.open, down := Sends(c.down, h.response)))
  {
    SubsetSize(h.inFlight, c.inFlight);
  }

  /** The server keeps its part whatever it hears, if the client has kept its own. */
  lemma HeardKeeps(s: StoreState, c: Session, said: FromClient, now: int, authorized: bool)
    requires BooksOk(s) && Recorded(s) && SessionOk(s, c) && said in c.up
    ensures SessionOk(After(s, Handle(s, c.driver, c.generation, c.inFlight, said, now, authorized).events),
                      Heard(s, c, said, now, authorized))
  {
    hide BooksOk, Recorded, Step, After, AllAdmissible, Grows, HandleBatch, ServerOk, WireOk, Truthful, HandleComplete;
    var h := Handle(s, c.driver, c.generation, c.inFlight, said, now, authorized);
    HandleSays(s, c.driver, c.generation, c.inFlight, said, now, authorized);
    RunGrows(s, h.events);
    SessionGrows(s, After(s, h.events), c);
    match said {
      case MutationBatch(_, _, _, _, _) => HandlingBatch(s, c.driver, c.generation, c.inFlight, said, authorized);
      case ReconcileComplete(id, generation) => HandlingComplete(s, c.driver, c.generation, c.inFlight, id, generation);
      case _ =>
    }
    ResponseKeeps(After(s, h.events), c, said, h);
  }

  lemma HandlingComplete(s: StoreState, d: string, g: nat, inFlight: set<nat>, id: nat, generation: nat)
    requires BooksOk(s)
    ensures var h := HandleComplete(s, d, g, inFlight, id, generation);
            && (h.inFlight == inFlight || (h.inFlight == inFlight - {id} && id !in After(s, h.events).deliveries))
            && (h.response.Some? ==> h.response.value.ReconcileCompleteResult?)
  {
    hide BooksOk, Complete;
    AfterOne(s, Says(d, g, Completes(id)));
    CompletedIsGone(s, id, d, g);
  }

  lemma RoomIsClaimed(s: StoreState, d: string, g: nat, inFlight: set<nat>, now: int, renewed: set<nat>,
                      candidate: Option<string>)
    requires HasRoom(s, d, g, inFlight)
    ensures Claim(s, d, g, MAX_IN_FLIGHT - |inFlight|, now, renewed, candidate).1.Claimed?
  {
    hide Fill, ClaimRun, LiveIds, HasActiveRun;
  }

  lemma SentKeeps(s: StoreState, c: Session, sending: set<nat>)
    requires SessionOk(s, c) && |c.inFlight + sending| <= MAX_IN_FLIGHT && sending !! c.sent
    requires forall id | id in sending :: id in s.deliveries && id < s.nextId
    ensures SessionOk(s, WithSent(s, c, sending))
  {
    hide ClientOk, WireOk, Truthful;
    SentWire(s, c, sending);
    SentClient(s, c, sending);
    SentTruthful(s, c, sending);
  }

  lemma SentWire(s: StoreState, c: Session, sending: set<nat>)
    requires WireOk(c) && sending !! c.sent && forall id | id in sending :: id in s.deliveries
    ensures WireOk(WithSent(s, c, sending))
  {
  }

  lemma SentTruthful(s: StoreState, c: Session, sending: set<nat>)
    requires Truthful(s, c)
    ensures Truthful(s, WithSent(s, c, sending))
  {
  }

  lemma SentClient(s: StoreState, c: Session, sending: set<nat>)
    requires ClientOk(c)
    ensures ClientOk(WithSent(s, c, sending))
  {
  }

  /** A turn sends nothing that was sent before on this connection. */
  lemma TurnedKeeps(s: StoreState, c: Session, now: int, renewed: set<nat>, candidate: Option<string>)
    requires BooksOk(s) && SessionOk(s, c) && HasRoom(s, c.driver, c.generation, c.inFlight)
    requires LegalClaim(s, c.driver, c.generation, MAX_IN_FLIGHT - |c.inFlight|, now, renewed, candidate)
    ensures SessionOk(Claim(s, c.driver, c.generation, MAX_IN_FLIGHT - |c.inFlight|, now, renewed, candidate).0,
                      Turned(s, c, now, renewed, candidate))
    ensures Sending(s, c.driver, c.generation, c.inFlight, now, renewed, candidate) !! c.sent
  {
    hide Claim, BooksOk, LegalClaim, WireOk, ClientOk, Truthful, WithSent;
    RoomIsClaimed(s, c.driver, c.generation, c.inFlight, now, renewed, candidate);
    var limit := MAX_IN_FLIGHT - |c.inFlight|;
    var (s', reply) := Claim(s, c.driver, c.generation, limit, now, renewed, candidate);
    ClaimBound(s, c.driver, c.generation, limit, now, renewed, candidate);
    ClaimBooks(s, c.driver, c.generation, limit, now, renewed, candidate);
    ClaimGrows(s, c.driver, c.generation, limit, now, renewed, candidate);
    SessionGrows(s, s', c);
    var sending := reply.ids - c.inFlight;
    SubsetSize(sending, reply.ids);
    assert |c.inFlight + sending| == |c.inFlight| + |sending|;
    forall id | id in sending ensures id in s'.deliveries && id < s'.nextId {
      BooksBound(s', id);
    }
    SentKeeps(s', c, sending);
  }

  // ---- Every move ----

  lemma DoesSays(w: World, m: Move, s0: StoreState)
    requires WorldOk(s0, w) && Possible(w, m)
    ensures AllAdmissible(w.store, Does(w, m)) && StableRequests(Does(w, m))
  {
    hide Step, BooksOk, Recorded, LegalClaim, Handle, StableRequests;
    var es := Does(w, m);
    match m
    case Connects(_, _, _) => AfterOne(w.store, es[0]); NoRequests(es);
    case Claiming(_, _, _, _) => AfterOne(w.store, es[0]); NoRequests(es);
    case Elsewhere(e) => AfterOne(w.store, e); NoRequests(es);
    case Hearing(k, now, said, authorized) =>
      var c := w.sessions[k];
      assert SessionOk(w.store, c);
      HandleSays(w.store, c.driver, c.generation, c.inFlight, said, now, authorized);
    case _ => NoRequests(es);
  }

  lemma NoRequests(es: seq<Event>)
    requires forall e | e in es && e.Says? :: !e.message.Mutates?
    ensures StableRequests(es)
  {
  }

  lemma SessionAfterOk(s0: StoreState, w: World, m: Move)
    requires WorldOk(s0, w) && Possible(w, m) && !m.Connects? && !m.Elsewhere?
    ensures SessionOk(After(w.store, Does(w, m)), SessionAfter(w, m))
  {
    hide Step, BooksOk, Recorded, LegalClaim, Handle, SessionOk, Claim, Turned, Received, Worked, Heard;
    var c := w.sessions[m.k];
    assert SessionOk(w.store, c);
    match m
    case Claiming(_, now, renewed, candidate) =>
      TurnedKeeps(w.store, c, now, renewed, candidate);
      AfterOne(w.store, Does(w, m)[0]);
      StepClaims(w.store, Does(w, m)[0]);
    case Hearing(_, now, said, authorized) => HeardKeeps(w.store, c, said, now, authorized);
    case Receiving(_, told) => ReceivedKeeps(w.store, c, told);
    case Working(_, id, product) => WorkedKeeps(w.store, c, id, product);
    case Beating(_, ids) => EndsKeep(w.store, c, Heartbeat(ids));
    case HangsUp(_) => EndsKeep(w.store, c, Heartbeat([]));
    case Drops(_) => EndsKeep(w.store, c, Heartbeat([]));
  }

  lemma EndsKeep(s: StoreState, c: Session, beat: FromClient)
    requires SessionOk(s, c) && beat.Heartbeat?
    ensures SessionOk(s, c.(up := c.up + multiset{beat})) && SessionOk(s, c.(serving := false))
            && SessionOk(s, c.(connected := false, tasks := map[]))
  {
  }

  lemma NewSessionOk(s: StoreState, d: string, g: nat)
    ensures SessionOk(s, Session(d, g, true, {}, multiset{}, true, map[], multiset{}, {}, {}, {}))
  {
  }

  lemma MoveKeeps(s0: StoreState, w: World, m: Move)
    requires WorldOk(s0, w) && Possible(w, m)
    ensures WorldOk(s0, Moved(w, m)) && Grows(w.store, Moved(w, m).store)
  {
    hide Step, BooksOk, Recorded, Does, SessionOk, SessionAfter, Grows, After, AllAdmissible, StableRequests, HasRoom, LegalClaim, Admissible;
    var es := Does(w, m);
    var w' := Moved(w, m);
    DoesSays(w, m, s0);
    RunGrows(w.store, es);
    AfterConcat(s0, w.trace, es);
    OthersGrow(w, w'.store);
    RequestsConcat(w.trace, es);
    match m
    case Connects(d, g, _) =>
      NewSessionOk(w'.store, d, g);
      assert forall k | 0 <= k < |w.sessions| :: w'.sessions[k] == w.sessions[k];
    case Elsewhere(_) =>
    case _ => SessionAfterOk(s0, w, m);
  }

  lemma RequestsConcat(es: seq<Event>, fs: seq<Event>)
    requires StableRequests(es) && StableRequests(fs)
    ensures StableRequests(es + fs)
  {
  }

  lemma OthersGrow(w: World, s': StoreState)
    requires Grows(w.store, s') && forall k | 0 <= k < |w.sessions| :: SessionOk(w.store, w.sessions[k])
    ensures forall k | 0 <= k < |w.sessions| :: SessionOk(s', w.sessions[k])
  {
    hide SessionOk, Grows;
    forall k | 0 <= k < |w.sessions| ensures SessionOk(s', w.sessions[k]) {
      SessionGrows(w.store, s', w.sessions[k]);
    }
  }

  // ---- Over every run of the dialogue ----

  /** The world after all moves, if each was possible when it came. */
  ghost function AfterMoves(w: World, moves: seq<Move>): Option<World> {
    if moves == [] then Some(w)
    else
      var before := AfterMoves(w, moves[..|moves| - 1]);
      if before.Some? && Possible(before.value, moves[|moves| - 1]) then Some(Moved(before.value, moves[|moves| - 1])) else None
  }

  /** A control plane that was just started, on whatever is on disk. */
  ghost function Opened(disk: StoreState, listing: seq<Driver>, paths: seq<string>): World
    requires Listings(disk, listing, paths)
  {
    World(Reopened(disk, listing, paths), [], [])
  }

  ghost predicate Reaches(disk: StoreState, listing: seq<Driver>, paths: seq<string>, moves: seq<Move>, w: World) {
    && Keyed(disk.rows) && Listings(disk, listing, paths)
    && (forall id, request, g | (id, request, g) in disk.commits :: id < disk.nextId)
    && AfterMoves(Opened(disk, listing, paths), moves) == Some(w)
  }

  lemma {:induction false} WorldsAreOk(s0: StoreState, w: World, moves: seq<Move>)
    requires WorldOk(s0, w) && AfterMoves(w, moves).Some?
    ensures WorldOk(s0, AfterMoves(w, moves).value)
  {
    hide WorldOk, Possible, Moved;
    if moves != [] {
      WorldsAreOk(s0, w, moves[..|moves| - 1]);
      MoveKeeps(s0, AfterMoves(w, moves[..|moves| - 1]).value, moves[|moves| - 1]);
    }
  }

  lemma Reached(disk: StoreState, listing: seq<Driver>, paths: seq<string>, moves: seq<Move>, w: World)
    requires Reaches(disk, listing, paths, moves, w)
    ensures WorldOk(Reopened(disk, listing, paths), w) && BooksOk(Reopened(disk, listing, paths))
  {
    hide BooksOk, AfterMoves;
    var s0 := Reopened(disk, listing, paths);
    ReopenBooks(disk, listing, paths);
    assert Recorded(s0);
    WorldsAreOk(s0, Opened(disk, listing, paths), moves);
  }

  lemma {:induction false} EffectsOfStableRequests(s: StoreState, es: seq<Event>)
    requires StableRequests(es)
    ensures forall effect | effect in Effects(s, es) :: effect.0 == effect.1
  {
    hide Step;
    if es != [] {
      EffectsOfStableRequests(s, es[..|es| - 1]);
      assert es[|es| - 1] in es;
    }
  }

  lemma StableRequestsCommitOnce(s: StoreState, es: seq<Event>, i: nat, j: nat)
    requires BooksOk(s) && AllAdmissible(s, es) && StableRequests(es)
    requires i < j < |Effects(s, es)|
    ensures Effects(s, es)[i].0 != Effects(s, es)[j].0 || Effects(s, es)[i].2 != Effects(s, es)[j].2
  {
    hide BooksOk, AllAdmissible, Effects, After;
    EffectsOfStableRequests(s, es);
    MutationsCommitAtMostOnce(s, es, i, j);
    assert Effects(s, es)[i] in Effects(s, es) && Effects(s, es)[j] in Effects(s, es);
  }

  /** A delivery changes Resources by mutations at most once in each generation of its
      Driver, over every run: however often it is sent, however often a Driver loses its
      connection, reconnects and works on it again, and whatever else happens. */
  lemma OneEffectPerDelivery(disk: StoreState, listing: seq<Driver>, paths: seq<string>, moves: seq<Move>, w: World,
                             i: nat, j: nat)
    requires Reaches(disk, listing, paths, moves, w)
    requires i < j < |Effects(Reopened(disk, listing, paths), w.trace)|
    ensures var effects := Effects(Reopened(disk, listing, paths), w.trace);
            effects[i].0 != effects[j].0 || effects[i].2 != effects[j].2
  {
    hide BooksOk, Recorded, AllAdmissible, Effects, After, SessionOk, Reopened, AfterMoves;
    Reached(disk, listing, paths, moves, w);
    StableRequestsCommitOnce(Reopened(disk, listing, paths), w.trace, i, j);
  }

  lemma SessionsAreOk(disk: StoreState, listing: seq<Driver>, paths: seq<string>, moves: seq<Move>, w: World, k: nat)
    requires Reaches(disk, listing, paths, moves, w) && k < |w.sessions|
    ensures SessionOk(w.store, w.sessions[k]) && BooksOk(w.store)
  {
    hide BooksOk, Recorded, AllAdmissible, After, SessionOk, Reaches;
    Reached(disk, listing, paths, moves, w);
  }

  /** On every connection a delivery is sent at most once, so it starts at most one task,
      and that task sends at most one batch. */
  lemma WorkedOnOnce(disk: StoreState, listing: seq<Driver>, paths: seq<string>, moves: seq<Move>, w: World, m: Move)
    requires Reaches(disk, listing, paths, moves, w) && Possible(w, m)
    ensures m.Claiming? ==> Moved(w, m).sessions[m.k].inFlight * w.sessions[m.k].sent == w.sessions[m.k].inFlight
    ensures m.Receiving? && m.told.Delivered? ==> m.told.id !in w.sessions[m.k].started && m.told.id !in w.sessions[m.k].tasks
    ensures m.Working? ==>
              var message := Next(w.sessions[m.k].tasks, w.sessions[m.k].generation, m.id, m.product).1;
              message.Some? && message.value.MutationBatch? ==> m.id !in w.sessions[m.k].asked
  {
    hide BooksOk, After, Reaches, Claim, LegalClaim, Truthful, Admissible, Handle;
    if !m.Connects? && !m.Elsewhere? {
      SessionsAreOk(disk, listing, paths, moves, w, m.k);
    }
    match m
    case Claiming(k, now, renewed, candidate) => TurnedKeeps(w.store, w.sessions[k], now, renewed, candidate);
    case _ =>
  }

  /** A task told that its batch is committed can rely on it: the batch took effect, in
      this generation. And a connection that sent a batch for a delivery completes that
      delivery only after the batch took effect. */
  lemma CompletedAfterItsBatch(disk: StoreState, listing: seq<Driver>, paths: seq<string>, moves: seq<Move>, w: World,
                               k: nat, id: nat)
    requires Reaches(disk, listing, paths, moves, w) && k < |w.sessions|
    ensures var c := w.sessions[k];
            && (id in c.tasks && c.tasks[id].Answered? ==> Effective(w.store, c, id))
            && (id in c.asked && ReconcileComplete(id, c.generation) in c.up ==> Effective(w.store, c, id))
            && |c.inFlight| <= MAX_IN_FLIGHT
  {
    hide BooksOk, Reaches;
    SessionsAreOk(disk, listing, paths, moves, w, k);
  }

  /** Whatever a connection of another generation than the current one hears, and the
      server may still hear something on it, the store stays as it is. */
  lemma StaleConnectionsDoNothing(disk: StoreState, listing: seq<Driver>, paths: seq<string>, moves: seq<Move>,
                                  w: World, m: Move)
    requires Reaches(disk, listing, paths, moves, w) && Possible(w, m) && m.Hearing?
    requires var c := w.sessions[m.k]; !(c.driver in w.store.drivers && w.store.drivers[c.driver].generation == c.generation)
    ensures Moved(w, m).store == w.store
  {
    hide BooksOk, Recorded, AllAdmissible, Effects, After, Reaches, Handle, SessionOk;
    Reached(disk, listing, paths, moves, w);
    var c := w.sessions[m.k];
    HandleSays(w.store, c.driver, c.generation, c.inFlight, m.said, m.now, m.authorized);
    OldConnectionsAreFencedOff(w.store, Does(w, m), c.driver, c.generation);
  }
}
