/** What the two ends of a connection do for each other, in terms of the store's tables and
    the messages they exchange. */
module Service {
  import opened Wrappers
  import opened Resources
  import opened Queue
  import opened Control
  import opened Invariants
  import opened Bookkeeping
  import opened Safety
  import opened History
  import opened Protocol
  import opened Effects
  import opened Sessions

  // ---- The server ----

  /** An acknowledgement counts if the delivery was sent on this connection and is still the
      Driver's; otherwise the connection closes and nothing changes. */
  lemma AcksCount(s: StoreState, d: string, g: nat, inFlight: set<nat>, id: nat, now: int)
    ensures var h := Handle(s, d, g, inFlight, Ack(id), now, true);
            && h.open == (id in inFlight && Holds(s, id, d, g)) && h.inFlight == inFlight && h.response.None?
            && After(s, h.events)
               == if h.open then s.(deliveries := s.deliveries[id := Delivery(d, g, s.deliveries[id].work, Acked, now + 15)]) else s
  {
    var e := Says(d, g, Acks(id, now));
    AfterOne(s, e);
    assert After(s, []) == s;
  }

  lemma {:induction false} WithinExactly(ids: seq<nat>, inFlight: set<nat>)
    ensures forall id :: id in Within(ids, inFlight) <==> id in ids && id in inFlight
  {
    if ids != [] {
      WithinExactly(ids[..|ids| - 1], inFlight);
      assert ids == ids[..|ids| - 1] + [ids[|ids| - 1]];
    }
  }

  /** A heartbeat renews what it names of what is in flight. The connection stays open as long
      as all of that is the Driver's and the Driver runs in this generation. */
  lemma HeartbeatsRenew(s: StoreState, d: string, g: nat, inFlight: set<nat>, ids: seq<nat>, now: int)
    ensures var h := Handle(s, d, g, inFlight, Heartbeat(ids), now, true);
            var s' := After(s, h.events);
            && h.inFlight == inFlight && h.response.None?
            && (h.open <==> && (forall id | id in ids && id in inFlight :: Holds(s, id, d, g))
                            && d in s.drivers && s.drivers[d].generation == g && s.drivers[d].status == Running)
            && s' == s.(deliveries := s'.deliveries) && s'.deliveries.Keys == s.deliveries.Keys
            && (forall id | id in s.deliveries ::
                  && s'.deliveries[id].(leaseExpires := 0) == s.deliveries[id].(leaseExpires := 0)
                  && (!(id in ids && id in inFlight && Holds(s, id, d, g)) ==> s'.deliveries[id] == s.deliveries[id])
                  && (h.open && id in ids && id in inFlight ==> s'.deliveries[id].leaseExpires == now + 15))
  {
    var within := Within(ids, inFlight);
    var e := Says(d, g, RenewsLeases(within, now));
    hide RenewLeases;
    WithinExactly(ids, inFlight);
    hide Within;
    AfterOne(s, e);
    StepOf(s, e);
    RenewalExtends(s, d, g, within, now);
    RenewLeasesSameWorks(s, d, g, within, now);
  }

  /** A batch reaches the store only if it is authorized, of this generation, for a delivery
      sent on this connection that is still the Driver's, and of the kind the delivery asks
      for. Otherwise nothing changes and it is answered as rejected. */
  lemma OnlyAcceptableBatchesAct(s: StoreState, d: string, g: nat, inFlight: set<nat>, batch: FromClient, now: int,
                                 authorized: bool)
    requires batch.MutationBatch?
    requires !(authorized && batch.generation == g && batch.id in inFlight && Holds(s, batch.id, d, g)
               && (s.deliveries[batch.id].work.Execute? <==> batch.outcome.Some?))
    ensures Handle(s, d, g, inFlight, batch, now, authorized) == Handled([], inFlight, true, Some(MutationResult(batch.request, false)))
  {
  }

  /** An acceptable batch for a Resource is applied, and answered as the store answered it;
      after a conflict the delivery is given back to the queue and leaves the flight. */
  lemma BatchesAct(s: StoreState, d: string, g: nat, inFlight: set<nat>, batch: FromClient, now: int)
    requires batch.MutationBatch? && batch.outcome.None? && batch.generation == g && batch.id in inFlight
    requires Holds(s, batch.id, d, g) && s.deliveries[batch.id].work.Reconcile?
    ensures var (s', reply) := Apply(s, batch.id, batch.request, d, g, batch.ms);
            var h := Handle(s, d, g, inFlight, batch, now, true);
            && h.open && h.response == Some(MutationResult(batch.request, reply.Replied?))
            && if reply == Conflict then
                 && After(s, h.events) == Abandon(s, batch.id, d, g).0 && batch.id !in After(s, h.events).deliveries
                 && h.inFlight == inFlight - {batch.id}
               else After(s, h.events) == s' && h.inFlight == inFlight
  {
    hide ApplyMutations, SchedulePaths;
    AppliedAsAsked(s, batch.id, batch.request, d, g, batch.ms);
    hide Apply, Abandon;
    var e, f := BatchEvent(d, g, batch), Says(d, g, Abandons(batch.id));
    AfterOne(s, e);
    AfterTwo(s, e, f);
    StepOf(s, e);
    StepOf(s, f);
    AbandonedIsGone(s, batch.id, d, g);
    AbandonGoesThrough(s, batch.id, d, g);
  }

  lemma AbandonGoesThrough(s: StoreState, id: nat, d: string, g: nat)
    requires Holds(s, id, d, g) && s.deliveries[id].work.Reconcile?
    ensures Abandon(s, id, d, g).1 == Done
  {
    hide SchedulePaths;
  }

  /** An acceptable batch for a Run ends it, as the batch says, and the delivery leaves the
      flight with it; a refused one leaves everything as it was. */
  lemma RunBatchesAct(s: StoreState, d: string, g: nat, inFlight: set<nat>, batch: FromClient, now: int)
    requires batch.MutationBatch? && batch.outcome.Some? && batch.generation == g && batch.id in inFlight
    requires Holds(s, batch.id, d, g) && s.deliveries[batch.id].work.Execute?
    ensures var (s', reply) := FinishRun(s, batch.id, d, g, batch.ms, batch.outcome.value);
            var h := Handle(s, d, g, inFlight, batch, now, true);
            && After(s, h.events) == s' && h.open && h.response == Some(MutationResult(batch.request, reply.Replied?))
            && h.inFlight == if reply.Replied? then inFlight - {batch.id} else inFlight
  {
    hide ApplyMutations, SchedulePaths, Remember;
    FinishingEnds(s, batch.id, d, g, batch.ms, batch.outcome.value);
    hide FinishRun;
    var e, f := BatchEvent(d, g, batch), Says(d, g, Abandons(batch.id));
    AfterOne(s, e);
    AfterTwo(s, e, f);
    StepOf(s, e);
    StepOf(s, f);
  }

  /** A completion is for this generation; it is answered if it went through, now or before,
      and then the delivery leaves the flight; otherwise the connection closes. */
  lemma CompletionsAct(s: StoreState, d: string, g: nat, inFlight: set<nat>, id: nat, generation: nat, now: int)
    ensures var (s', reply) := Complete(s, id, d, g);
            var h := Handle(s, d, g, inFlight, ReconcileComplete(id, generation), now, true);
            if generation == g && (reply == Done || reply == AlreadyCompleted) then
              After(s, h.events) == s' && h == Handled(h.events, inFlight - {id}, true, Some(ReconcileCompleteResult(id)))
            else After(s, h.events) == s && h == Handled(h.events, inFlight, false, None)
  {
    hide SchedulePaths, Remember, CompletedRow, PutOrFinish;
    assert Complete(s, id, d, g).1 == Conflict ==> Complete(s, id, d, g).0 == s;
    hide Complete;
    var e := Says(d, g, Completes(id));
    AfterOne(s, e);
    StepOf(s, e);
    assert After(s, []) == s;
  }

  /** One turn: what a claim of the room in the window hands out and is not in flight yet is
      sent, each delivery once and with its kind, and is in flight from then on. */
  lemma TurnSends(s: StoreState, c: Session, now: int, renewed: set<nat>, candidate: Option<string>)
    requires |c.inFlight| < 16
    requires c.driver in s.drivers && s.drivers[c.driver].generation == c.generation && s.drivers[c.driver].status == Running
    requires BooksOk(s) && LegalClaim(s, c.driver, c.generation, 16 - |c.inFlight|, now, renewed, candidate)
    ensures HasRoom(s, c.driver, c.generation, c.inFlight)
    ensures var (s', reply) := Claim(s, c.driver, c.generation, 16 - |c.inFlight|, now, renewed, candidate);
            var c' := Turned(s, c, now, renewed, candidate);
            && reply.Claimed? && reply.ids <= s'.deliveries.Keys && c'.inFlight == c.inFlight + reply.ids
            && (forall id, isRun ::
                  c'.down[Delivered(id, isRun)] == c.down[Delivered(id, isRun)]
                    + (if id in reply.ids && id !in c.inFlight && isRun == s'.deliveries[id].work.Execute? then 1 else 0))
            && (forall m: FromServer | !m.Delivered? :: c'.down[m] == c.down[m])
            && c'.up == c.up && c'.tasks == c.tasks && c'.serving == c.serving
  {
    var limit := 16 - |c.inFlight|;
    hide Claim, LegalClaim, BooksOk, WithSent;
    ClaimedAreLive(s, c.driver, c.generation, limit, now, renewed, candidate);
    var (s', reply) := Claim(s, c.driver, c.generation, limit, now, renewed, candidate);
    SentExactly(s', c, reply.ids - c.inFlight);
    assert c.inFlight + (reply.ids - c.inFlight) == c.inFlight + reply.ids;
  }

  lemma ClaimedAreLive(s: StoreState, d: string, g: nat, limit: nat, now: int, renewed: set<nat>, run: Option<string>)
    requires BooksOk(s) && LegalClaim(s, d, g, limit, now, renewed, run) && limit > 0 && Current(s.drivers, d, g)
    ensures var (s', reply) := Claim(s, d, g, limit, now, renewed, run); reply.Claimed? && reply.ids <= s'.deliveries.Keys
  {
    ClaimGives(s, d, g, limit, now, renewed, run);
    hide Claim, LegalClaim, BooksOk, FreshWork, TakesRun;
  }

  lemma SentExactly(s: StoreState, c: Session, sending: set<nat>)
    requires sending <= s.deliveries.Keys
    ensures var c' := WithSent(s, c, sending);
            && c'.inFlight == c.inFlight + sending && c'.up == c.up && c'.tasks == c.tasks && c'.serving == c.serving
            && (forall id, isRun ::
                  c'.down[Delivered(id, isRun)] == c.down[Delivered(id, isRun)]
                    + (if id in sending && isRun == s.deliveries[id].work.Execute? then 1 else 0))
            && (forall m: FromServer | !m.Delivered? :: c'.down[m] == c.down[m])
  {
    var messages := set id | id in sending && id in s.deliveries :: Delivered(id, s.deliveries[id].work.Execute?);
    forall id, isRun ensures Delivered(id, isRun) in messages <==> id in sending && isRun == s.deliveries[id].work.Execute? {
    }
  }

  // ---- The client ----

  /** The life of a reconciliation: a delivery starts a task; the task sends what the Driver
      makes of the Resource as one batch, and says that it is done once the batch is
      committed, at once if there is nothing to send; it is over when that is confirmed. A
      task that fails, or whose batch is rejected, is over and says nothing more. */
  lemma ReconciliationLives(tasks: map<nat, Task>, g: nat, id: nat, product: Product)
    requires id !in tasks
    ensures var begun := Told(tasks, Delivered(id, false));
            var (sending, batch) := Next(begun, g, id, product);
            begun == tasks[id := Reconciling]
            && match product
               case Erred => sending == tasks && batch.None?
               case Produced(ms) =>
                 if ms == [] then
                   && sending == tasks[id := Completing] && batch == Some(ReconcileComplete(id, g))
                   && Told(sending, ReconcileCompleteResult(id)) == tasks
                 else
                   && sending == tasks[id := Asking(false)] && batch == Some(MutationBatch(id, id, g, ms, None))
                   && Told(sending, MutationResult(id, false)) == tasks
                   && Told(sending, MutationResult(id, true)) == tasks[id := Answered]
                   && Next(tasks[id := Answered], g, id, product) == (tasks[id := Completing], Some(ReconcileComplete(id, g)))
                   && Told(tasks[id := Completing], ReconcileCompleteResult(id)) == tasks
  {
    assert tasks[id := Reconciling] - {id} == tasks;
    assert tasks[id := Asking(false)] - {id} == tasks;
    assert tasks[id := Completing] - {id} == tasks;
    assert tasks[id := Reconciling][id := Completing] == tasks[id := Completing];
    assert tasks[id := Reconciling][id := Asking(false)] == tasks[id := Asking(false)];
    assert tasks[id := Asking(false)][id := Answered] == tasks[id := Answered];
    assert tasks[id := Answered][id := Completing] == tasks[id := Completing];
  }

  /** The life of a Run: one batch, which says how it ended, and any answer ends the task. */
  lemma ExecutionLives(tasks: map<nat, Task>, g: nat, id: nat, product: Product, committed: bool)
    requires id !in tasks
    ensures var begun := Told(tasks, Delivered(id, true));
            var (sending, batch) := Next(begun, g, id, product);
            && begun == tasks[id := Executing] && sending == tasks[id := Asking(true)]
            && batch == Some(MutationBatch(id, id, g, if product.Produced? then product.ms else [], Some(product.Produced?)))
            && Told(sending, MutationResult(id, committed)) == tasks
  {
    assert tasks[id := Executing][id := Asking(true)] == tasks[id := Asking(true)];
    assert tasks[id := Asking(true)] - {id} == tasks;
  }

  /** Nobody else is disturbed: a message changes the task it is for and no other, a delivery
      for which a task is at work starts none, and an answer nobody waits for is dropped. */
  lemma TasksAreSeparate(tasks: map<nat, Task>, g: nat, told: FromServer, id: nat, other: nat, product: Product)
    requires id in tasks
    ensures var after := Told(tasks, told);
            && (told.Delivered? ==> id in after && after[id] == tasks[id])
            && (told.MutationResult? && (told.request != id || !tasks[id].Asking?) ==> id in after && after[id] == tasks[id])
            && (told.ReconcileCompleteResult? && (told.id != id || !tasks[id].Completing?) ==> id in after && after[id] == tasks[id])
            && (forall started | started in after && started !in tasks :: told.Delivered? && told.id == started)
    ensures other != id ==> var after := Next(tasks, g, id, product).0;
              (other in after <==> other in tasks) && (other in tasks ==> after[other] == tasks[other])
    ensures tasks[id].Asking? || tasks[id].Completing? ==> Next(tasks, g, id, product) == (tasks, None)
  {
  }

  // ---- Both ends ----

  /** A message that is heard is off the wire; its answer, if there is one, is on it; and each
      delivery that arrives is acknowledged. */
  lemma MessagesTravel(s: StoreState, c: Session, said: FromClient, told: FromServer, now: int, authorized: bool)
    ensures var h := Handle(s, c.driver, c.generation, c.inFlight, said, now, authorized);
            var c' := Heard(s, c, said, now, authorized);
            && c'.up == c.up - multiset{said} && c'.inFlight == h.inFlight && c'.serving == h.open
            && c'.down == (if h.response.Some? then c.down + multiset{h.response.value} else c.down) && c'.tasks == c.tasks
    ensures var c' := Received(c, told);
            && c'.down == c.down - multiset{told} && c'.tasks == Told(c.tasks, told)
            && c'.up == (if told.Delivered? then c.up + multiset{Ack(told.id)} else c.up) && c'.inFlight == c.inFlight
  {
    hide Handle, Told;
  }

  /** Nothing without authorization: hearing an unauthorized batch leaves the store and the
      calls made as they were, and the client is told that it was rejected. */
  lemma UnauthorizedDoesNothing(w: World, k: nat, now: int, batch: FromClient)
    requires batch.MutationBatch? && Possible(w, Hearing(k, now, batch, false))
    ensures var w' := Moved(w, Hearing(k, now, batch, false));
            && w'.store == w.store && w'.trace == w.trace
            && MutationResult(batch.request, false) in w'.sessions[k].down
            && w'.sessions[k].tasks == w.sessions[k].tasks && w'.sessions[k].inFlight == w.sessions[k].inFlight
  {
    var c := w.sessions[k];
    OnlyAcceptableBatchesAct(w.store, c.driver, c.generation, c.inFlight, batch, now, false);
    assert After(w.store, []) == w.store;
    MessagesTravel(w.store, c, batch, MutationResult(batch.request, false), now, false);
  }

  // ---- The whole ----

  /** Nobody but connection `k` is concerned. */
  ghost predicate OthersUntouched(w: World, w': World, k: nat) {
    |w'.sessions| == |w.sessions| && forall other | 0 <= other < |w.sessions| && other != k :: w'.sessions[other] == w.sessions[other]
  }

  /** What a client does on its own leaves the store alone. A delivery that arrives is taken
      in and acknowledged; a task that goes on sends what it says; a heartbeat names the tasks
      at work; a connection that was dropped has lost them; one that was hung up is not
      served any more. */
  lemma ClientsMove(w: World, m: Move)
    requires Possible(w, m) && (m.Receiving? || m.Working? || m.Beating? || m.HangsUp? || m.Drops?)
    ensures var w' := Moved(w, m);
            w'.store == w.store && w'.trace == w.trace && OthersUntouched(w, w', m.k)
            && var c, c' := w.sessions[m.k], w'.sessions[m.k];
               match m
               case Receiving(_, told) =>
                 && c'.down == c.down - multiset{told} && c'.tasks == Told(c.tasks, told)
                 && c'.up == (if told.Delivered? then c.up + multiset{Ack(told.id)} else c.up)
                 && c'.started == (if told.Delivered? then c.started + {told.id} else c.started)
               case Working(_, id, product) =>
                 var (tasks, message) := Next(c.tasks, c.generation, id, product);
                 && c'.tasks == tasks && c'.up == (if message.Some? then c.up + multiset{message.value} else c.up)
                 && c'.asked == (if message.Some? && message.value.MutationBatch? then c.asked + {id} else c.asked)
               case Beating(_, ids) => c' == c.(up := c.up + multiset{Heartbeat(ids)}) && forall id :: id in ids <==> id in c.tasks
               case HangsUp(_) => c' == c.(serving := false)
               case Drops(_) => c' == c.(connected := false, tasks := map[])
  {
    assert After(w.store, []) == w.store && w.trace + [] == w.trace;
    hide Told, Next, After;
  }

  /** A Driver that connects, while it is starting, running or stopping, gets a connection of
      its own, with nothing in flight, and everything it had can be claimed again; the other
      connections stay. A call made elsewhere is a step of the store and no more. */
  lemma OthersMove(w: World, m: Move)
    requires Possible(w, m) && (m.Connects? || m.Elsewhere?)
    ensures var w' := Moved(w, m);
            match m
            case Connects(d, g, now) =>
              && w'.store == ResetLeases(w.store, d, g, now).0 && ResetLeases(w.store, d, g, now).1 == Done
              && |w'.sessions| == |w.sessions| + 1 && w'.sessions[..|w.sessions|] == w.sessions
              && w'.sessions[|w.sessions|] == Session(d, g, true, {}, multiset{}, true, map[], multiset{}, {}, {}, {})
            case Elsewhere(e) => w'.store == Step(w.store, e).0 && w'.sessions == w.sessions && w'.trace == w.trace + [e]
  {
    match m
    case Connects(d, g, now) =>
      AfterOne(w.store, Says(d, g, ResetsLeases(now)));
    case Elsewhere(e) =>
      AfterOne(w.store, e);
  }

  /** And what the server does is a claim, if there is room, or the handling of one message. */
  lemma ServerMoves(w: World, m: Move)
    requires Possible(w, m) && (m.Claiming? || m.Hearing?)
    ensures var w' := Moved(w, m);
            var c := w.sessions[m.k];
            OthersUntouched(w, w', m.k)
            && match m
               case Claiming(_, now, renewed, candidate) =>
                 && |c.inFlight| < 16 && Current(w.store.drivers, c.driver, c.generation)
                 && w'.store == Claim(w.store, c.driver, c.generation, 16 - |c.inFlight|, now, renewed, candidate).0
                 && w'.sessions[m.k] == Turned(w.store, c, now, renewed, candidate)
               case Hearing(_, now, said, authorized) =>
                 && w'.store == After(w.store, Handle(w.store, c.driver, c.generation, c.inFlight, said, now, authorized).events)
                 && w'.sessions[m.k] == Heard(w.store, c, said, now, authorized)
  {
    hide Handle, Claim, Turned, Heard;
    if m.Claiming? {
      var c := w.sessions[m.k];
      var e := ClaimEvent(c.driver, c.generation, c.inFlight, m.now, m.renewed, m.candidate);
      AfterOne(w.store, e);
      StepClaims(w.store, e);
    }
  }
}
