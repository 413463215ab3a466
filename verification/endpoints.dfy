/** The two ends of a connection as the programs hold them: each method performs one step
    of the dialogue. */
module Endpoints {
  import opened Wrappers
  import opened Resources
  import opened Queue
  import opened Control
  import opened Invariants
  import opened Safety
  import opened Stores
  import opened Sessions

  class Connection {
    const store: Store
    const driver: string
    const generation: nat
    var inFlight: set<nat>
    var serving: bool

    ghost predicate Valid()
      reads this, store, store.queue
    {
      store.Valid() && |inFlight| <= MAX_IN_FLIGHT
    }

    constructor (store: Store, driver: string, generation: nat)
      requires store.Valid()
      ensures Valid() && this.store == store && this.driver == driver && this.generation == generation && inFlight == {} && serving
    {
      this.store, this.driver, this.generation, inFlight, serving := store, driver, generation, {}, true;
    }

    /** One turn of the loop: claim what fits into the window, and send what is new. */
    method ClaimAndSend(now: int) returns (sent: set<nat>, ghost renewed: set<nat>, ghost candidate: Option<string>)
      requires Valid() && Keyed(store.rows)
      modifies this`inFlight, store`deliveries, store`runs, store`nextId, store.queue
      ensures store.Valid() && inFlight == old(inFlight) + sent
      ensures if HasRoom(old(store.State()), driver, generation, old(inFlight))
              then && LegalClaim(old(store.State()), driver, generation, MAX_IN_FLIGHT - |old(inFlight)|, now, renewed, candidate)
                   && sent == Sending(old(store.State()), driver, generation, old(inFlight), now, renewed, candidate)
                   && store.State() == Claim(old(store.State()), driver, generation, MAX_IN_FLIGHT - |old(inFlight)|, now, renewed, candidate).0
              else sent == {} && store.State() == old(store.State())
    {
      hide Claim, LegalClaim, DriversOk;
      sent, renewed, candidate := {}, {}, None;
      var available := MAX_IN_FLIGHT - |inFlight|;
      if available > 0 && Current(store.drivers, driver, generation) {
        RoomIsClaimed(store.State(), driver, generation, inFlight, now, {}, None);
        var reply;
        reply, renewed, candidate := store.ClaimDeliveries(driver, generation, available, now);
        RoomIsClaimed(old(store.State()), driver, generation, inFlight, now, renewed, candidate);
        sent := SendNew(reply.ids);
      }
    }

    method SendNew(ids: set<nat>) returns (sent: set<nat>)
      modifies this`inFlight
      ensures sent == ids - old(inFlight) && inFlight == old(inFlight) + sent
    {
      sent := {};
      var deliveries := ids;
      while deliveries != {}
        invariant deliveries <= ids && sent == (ids - deliveries) - old(inFlight) && inFlight == old(inFlight) + sent
      {
        var id :| id in deliveries;
        deliveries := deliveries - {id};
        if id !in inFlight {
          sent, inFlight := sent + {id}, inFlight + {id};
        }
      }
    }

    /** An acknowledgement of something that is not in flight closes the connection. */
    method HearAck(id: nat, now: int) returns (response: Option<FromServer>, ghost es: seq<Event>)
      requires Valid() && serving
      modifies this`serving, store`deliveries
      ensures Valid() && store.State() == After(old(store.State()), es)
      ensures Handled(es, inFlight, serving, response) == HandleAck(old(store.State()), driver, generation, old(inFlight), id, now)
    {
      hide Step, After, AllAdmissible, DriversOk;
      response, es := None, [];
      serving := false;
      if id in inFlight {
        ghost var s := store.State();
        ghost var e := Says(driver, generation, Acks(id, now));
        var reply := store.AcknowledgeDelivery(id, driver, generation, now);
        es := [e];
        AfterOne(s, e);
        assert (store.State(), reply) == Step(s, e) by { StepOf(s, e); }
        serving := reply == Done;
      } else {
        NothingDone(store.State());
      }
    }

    /** A heartbeat renews the leases of what is in flight; it closes the connection of a
        Driver that does not run. */
    method HearHeartbeat(ids: seq<nat>, now: int) returns (response: Option<FromServer>, ghost es: seq<Event>)
      requires Valid() && serving
      modifies this`serving, store`deliveries
      ensures Valid() && store.State() == After(old(store.State()), es)
      ensures Handled(es, inFlight, serving, response) == HandleHeartbeat(old(store.State()), driver, generation, old(inFlight), ids, now)
    {
      hide Step, After, AllAdmissible, DriversOk;
      response := None;
      var within := [];
      for k := 0 to |ids|
        invariant within == Within(ids[..k], inFlight) && serving == old(serving) && store.deliveries == old(store.deliveries)
      {
        assert ids[..k + 1][..k] == ids[..k];
        if ids[k] in inFlight {
          within := within + [ids[k]];
        }
      }
      assert ids[..|ids|] == ids;
      ghost var s := store.State();
      ghost var e := Says(driver, generation, RenewsLeases(within, now));
      var reply := store.RenewDeliveryLeases(driver, generation, within, now);
      es := [e];
      AfterOne(s, e);
      assert (store.State(), reply) == Step(s, e) by { StepOf(s, e); }
      serving := reply == Done && Current(store.drivers, driver, generation);
    }

    /** A batch is checked, and goes to the store with the kind of call its delivery asks
        for; after a conflict the delivery is given back. */
    method HearBatch(batch: FromClient, authorized: bool) returns (response: Option<FromServer>, ghost es: seq<Event>)
      requires Valid() && serving && batch.MutationBatch?
      modifies this`inFlight, store`rows, store`runs, store`deliveries, store`results, store`completed, store`completedOrder,
               store`commits, store.queue
      ensures Valid() && store.State() == After(old(store.State()), es)
      ensures Handled(es, inFlight, serving, response) == HandleBatch(old(store.State()), driver, generation, old(inFlight), batch, authorized)
    {
      hide Step, After, AllAdmissible, DriversOk, Apply, FinishRun, Abandon;
      var id := batch.id;
      response, es := Some(MutationResult(batch.request, false)), [];
      ghost var s := store.State();
      if batch.generation != generation || id !in inFlight || id !in store.deliveries
         || store.deliveries[id].driver != driver || store.deliveries[id].generation != generation || !authorized
         || store.deliveries[id].work.Execute? != batch.outcome.Some? {
        NothingDone(s);
        return;
      }
      ghost var e := BatchEvent(driver, generation, batch);
      var reply: Reply;
      if store.deliveries[id].work.Execute? {
        reply := store.FinishRunDelivery(id, driver, generation, batch.ms, batch.outcome.value);
      } else {
        reply := store.ApplyReconciliationMutations(id, batch.request, driver, generation, batch.ms);
      }
      es := [e];
      AfterOne(s, e);
      assert (store.State(), reply) == Step(s, e) by { StepOf(s, e); }
      if reply.Replied? {
        response := Some(MutationResult(batch.request, true));
        if batch.outcome.Some? {
          inFlight := inFlight - {id};
        }
      } else if reply == Conflict {
        ghost var f := Says(driver, generation, Abandons(id));
        ghost var s' := store.State();
        var given := store.AbandonReconciliation(id, driver, generation);
        es := [e, f];
        AfterTwo(s, e, f);
        assert (store.State(), given) == Step(s', f) by { StepOf(s', f); }
        if given == Done {
          inFlight := inFlight - {id};
        }
      }
    }

    /** A completion that is refused closes the connection; a repeated one is answered. */
    method HearComplete(id: nat, messageGeneration: nat) returns (response: Option<FromServer>, ghost es: seq<Event>)
      requires Valid() && serving
      modifies this`inFlight, this`serving, store`rows, store`runs, store`deliveries, store`results, store`completed,
               store`completedOrder, store.queue
      ensures Valid() && store.State() == After(old(store.State()), es)
      ensures Handled(es, inFlight, serving, response)
           == HandleComplete(old(store.State()), driver, generation, old(inFlight), id, messageGeneration)
    {
      hide Step, After, AllAdmissible, DriversOk, Complete;
      response, es := None, [];
      serving := false;
      ghost var s := store.State();
      if messageGeneration != generation {
        NothingDone(s);
        return;
      }
      ghost var e := Says(driver, generation, Completes(id));
      var reply := store.CompleteReconciliation(id, driver, generation);
      es := [e];
      AfterOne(s, e);
      assert (store.State(), reply) == Step(s, e) by { StepOf(s, e); }
      if reply == Done || reply == AlreadyCompleted {
        serving := true;
        inFlight := inFlight - {id};
        response := Some(ReconcileCompleteResult(id));
      }
    }

    /** `handle_driver_message`. */
    method Hear(m: FromClient, now: int, authorized: bool) returns (response: Option<FromServer>, ghost es: seq<Event>)
      requires Valid() && serving
      modifies this`inFlight, this`serving, store`rows, store`runs, store`deliveries, store`results, store`completed,
               store`completedOrder, store`commits, store.queue
      ensures Valid() && store.State() == After(old(store.State()), es)
      ensures Handled(es, inFlight, serving, response) == Handle(old(store.State()), driver, generation, old(inFlight), m, now, authorized)
    {
      hide After, HandleAck, HandleHeartbeat, HandleBatch, HandleComplete;
      match m {
        case Ack(id) => response, es := HearAck(id, now);
        case Heartbeat(ids) => response, es := HearHeartbeat(ids, now);
        case MutationBatch(_, _, _, _, _) => response, es := HearBatch(m, authorized);
        case ReconcileComplete(id, messageGeneration) => response, es := HearComplete(id, messageGeneration);
      }
    }
  }

  lemma NothingDone(s: StoreState)
    ensures After(s, []) == s
  {
  }

  // ---- The client ----

  /** A handle in the table of tasks; it stays there for a while when its task is over. */
  datatype Job = AtWork(task: Task) | Over

  class Client {
    const generation: nat
    var active: map<nat, Job>
    var mutationWaiters: set<nat>
    var completionWaiters: set<nat>
    var outbound: seq<FromClient>

    /** Exactly the tasks that wait for an answer are registered for it. */
    ghost predicate Valid()
      reads this
    {
      && mutationWaiters == (set id | id in active && active[id].AtWork? && active[id].task.Asking?)
      && completionWaiters == (set id | id in active && active[id].AtWork? && active[id].task.Completing?)
    }

    ghost function Tasks(): map<nat, Task>
      reads this
    {
      map id | id in active && active[id].AtWork? :: active[id].task
    }

    constructor (generation: nat)
      ensures Valid() && this.generation == generation && Tasks() == map[] && outbound == []
    {
      this.generation, active, mutationWaiters, completionWaiters, outbound := generation, map[], {}, {}, [];
    }

    method Retain()
      requires Valid()
      modifies this`active
      ensures Valid() && Tasks() == old(Tasks()) && active.Keys == Tasks().Keys
    {
      active := map id | id in active && active[id].AtWork? :: active[id];
    }

    /** A delivery arrives, for the first time or again; or an answer, for whoever waits. */
    method Receive(m: FromServer)
      requires Valid()
      modifies this
      ensures Valid() && Tasks() == Told(old(Tasks()), m)
      ensures outbound == old(outbound) + (if m.Delivered? then [Ack(m.id)] else [])
    {
      match m {
        case Delivered(id, isRun) =>
          outbound := outbound + [Ack(id)];
          Retain();
          if id !in active {
            active := active[id := AtWork(if isRun then Executing else Reconciling)];
          }
        case MutationResult(request, committed) =>
          if request in mutationWaiters {
            mutationWaiters := mutationWaiters - {request};
            active := active[request := if committed && !active[request].task.isRun then AtWork(Answered) else Over];
          }
        case ReconcileCompleteResult(id) =>
          if id in completionWaiters {
            completionWaiters := completionWaiters - {id};
            active := active[id := Over];
          }
      }
    }

    /** A task goes on: it is registered for the answer before it sends. */
    method Work(id: nat, product: Product)
      requires Valid() && id in Tasks()
      modifies this
      ensures Valid() && Tasks() == Next(old(Tasks()), generation, id, product).0
      ensures var message := Next(old(Tasks()), generation, id, product).1;
              outbound == old(outbound) + (if message.Some? then [message.value] else [])
    {
      match active[id].task {
        case Reconciling =>
          if product.Erred? {
            active := active[id := Over];
          } else if product.ms == [] {
            Finish(id);
          } else {
            Ask(id, product.ms, None);
          }
        case Executing =>
          Ask(id, if product.Erred? then [] else product.ms, Some(product.Produced?));
        case Answered => Finish(id);
        case Asking(_) =>
        case Completing =>
      }
    }

    /** The id of the request is the id of the delivery, also after a reconnection. */
    method Ask(id: nat, ms: seq<Mutation>, outcome: Option<bool>)
      requires Valid() && id in Tasks() && (Tasks()[id].Reconciling? || Tasks()[id].Executing?)
      modifies this
      ensures Valid() && Tasks() == old(Tasks())[id := Asking(outcome.Some?)]
      ensures outbound == old(outbound) + [MutationBatch(id, id, generation, ms, outcome)]
    {
      var request := id;
      mutationWaiters := mutationWaiters + {request};
      active := active[id := AtWork(Asking(outcome.Some?))];
      outbound := outbound + [MutationBatch(request, id, generation, ms, outcome)];
    }

    method Finish(id: nat)
      requires Valid() && id in Tasks() && (Tasks()[id].Reconciling? || Tasks()[id].Answered?)
      modifies this
      ensures Valid() && Tasks() == old(Tasks())[id := Completing]
      ensures outbound == old(outbound) + [ReconcileComplete(id, generation)]
    {
      completionWaiters := completionWaiters + {id};
      active := active[id := AtWork(Completing)];
      outbound := outbound + [ReconcileComplete(id, generation)];
    }

    /** The heartbeat names exactly the tasks at work. */
    method Beat()
      requires Valid()
      modifies this
      ensures Valid() && Tasks() == old(Tasks())
      ensures if Tasks() == map[] then outbound == old(outbound)
              else |outbound| == |old(outbound)| + 1 && outbound[..|old(outbound)|] == old(outbound)
                   && outbound[|old(outbound)|].Heartbeat?
                   && forall id :: id in outbound[|old(outbound)|].ids <==> id in Tasks()
    {
      Retain();
      var keys, ids := active.Keys, [];
      while keys != {}
        invariant Valid() && Tasks() == old(Tasks()) && active.Keys == Tasks().Keys && outbound == old(outbound)
        invariant keys <= active.Keys && forall id :: id in ids <==> id in active.Keys - keys
      {
        var id: nat :| id in keys;
        keys, ids := keys - {id}, ids + [id];
      }
      if active != map[] {
        outbound := outbound + [Heartbeat(ids)];
      }
    }

    /** The connection is lost: all tasks are aborted. */
    method Abort()
      requires Valid()
      modifies this
      ensures Valid() && Tasks() == map[]
    {
      active, mutationWaiters, completionWaiters := map[], {}, {};
    }
  }
}
