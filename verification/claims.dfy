/** Claims keep the invariant, hand out no more than they may, and put into hands
    exactly what they take from the queue. */
module Claims {
  import opened Wrappers
  import opened Resources
  import opened Queue
  import opened Control
  import opened Invariants
  import opened Bookkeeping
  import opened Steps

  // ---- Runs ----

  lemma ClaimRunKeeps(s: StoreState, d: string, g: nat, run: string, now: int, p: string)
    requires InvAt(s, p) && Runnable(s, d, run)
    requires d in s.drivers && s.drivers[d].generation == g
    requires |LiveIds(s.deliveries, d, g)| < MAX_IN_FLIGHT && !HasActiveRun(s.deliveries, d, g)
    ensures InvAt(ClaimRun(s, d, g, run, now), p)
  {
    ClaimRunBooks(s, d, g, run, now);
    forall id | id in s.deliveries ensures id < s.nextId {
      BooksBound(s, id);
    }
    hide TablesAt, WorkAt, BooksOk;
    MoreDeliveriesWork(s, ClaimRun(s, d, g, run, now), p);
  }

  /** Nothing gets lost when deliveries are only added. */
  lemma MoreDeliveriesWork(s: StoreState, s': StoreState, p: string)
    requires TablesAt(s, p) && WorkAt(s, p)
    requires s'.registry == s.registry && s'.drivers == s.drivers && s'.rows == s.rows && s'.queue == s.queue
    requires forall id | id in s.deliveries :: id in s'.deliveries && s'.deliveries[id] == s.deliveries[id]
    ensures TablesAt(s', p) && WorkAt(s', p)
  {
  }

  // ---- Reconciliations ----

  /** What a pop yields for a path in order is pending: the check that follows it never
      turns it away. */
  lemma PopYieldsPending(s: StoreState, d: string, excluded: set<string>, path: string)
    requires InvAt(s, path)
    ensures var (q, item) := Popped(s.queue, d, excluded);
            && WellFormed(q) && q.owners == s.queue.owners
            && (item.None? ==> q.latest == s.queue.latest)
            && (item.Some? ==>
                  item.value.resource !in excluded && q.latest == s.queue.latest - {(d, item.value.resource)})
            && (item.Some? && item.value.resource == path ==>
                  && path in s.rows && s.rows[path].path == path && (d, path) in s.queue.latest
                  && IsPending(q.owners, s.rows[path], d, item.value.observation)
                  && Has(s.rows[path].desired.observed, d, item.value.observation)
                  && item.value.observation.resourceRevision == s.rows[path].Revision())
  {
    hide WellFormed, Popped, NotLost, OwnersOk, DriversOk, DeliveriesOk, CachesOk, HistoryOk;
    var (q, item) := Popped(s.queue, d, excluded);
    PoppedExactly(s.queue, d, excluded);
    if item.Some? && item.value.resource == path {
      assert (d, path) in s.queue.latest;
      assert Outstanding(s.queue.owners, s.rows[path], d);
      assert Observed(s.drivers, s.rows[path]);
    }
  }

  /** A pop takes a pair out of the queue, and the delivery that follows carries it; every
      other path stays as it was. */
  lemma PopAndDeliverWork(s: StoreState, d: string, g: nat, excluded: set<string>, now: int, p: string)
    requires InvAt(s, p) && Popped(s.queue, d, excluded).1.Some?
    requires Popped(s.queue, d, excluded).1.value.resource in s.rows
    ensures var (q, item) := Popped(s.queue, d, excluded);
            WorkAt(Deliver(s.(queue := q), d, g, Reconcile(item.value.observation.driverRevision, s.rows[item.value.resource]), now), p)
  {
    hide WellFormed, IsPending, Popped, TablesAt, DeliveriesOk, CachesOk, HistoryOk;
    var (q, item) := Popped(s.queue, d, excluded);
    PopYieldsPending(s, d, excluded, p);
    var path, expected := item.value.resource, item.value.observation;
    var work := Reconcile(expected.driverRevision, s.rows[path]);
    var delivery := Delivery(d, g, work, Pending, now + LEASE_SECONDS);
    var deliveries' := s.deliveries[s.nextId := delivery];
    if p in s.rows {
      forall e | Outstanding(s.queue.owners, s.rows[p], e)
        ensures NotLost(q.latest, deliveries', s.rows[p], e)
      {
        StaysInHand(s, delivery, p, e);
        if e == d && p == path {
          assert ObservationOf(work) == expected;
          assert Carries(deliveries'[s.nextId], e, p, s.rows[p].desired.observed[e]);
        }
      }
    }
  }

  lemma StaysInHand(s: StoreState, delivery: Delivery, p: string, e: string)
    requires InvAt(s, p) && p in s.rows && Outstanding(s.queue.owners, s.rows[p], e)
    ensures s.rows[p].path == p
    ensures (e, p) in s.queue.latest || InHand(s.deliveries[s.nextId := delivery], e, p, s.rows[p].desired.observed[e])
  {
    hide IsPending, WellFormed, Observed, OwnersOk, DriversOk, CachesOk, HistoryOk;
    assert NotLost(s.queue.latest, s.deliveries, s.rows[p], e);
    if (e, p) !in s.queue.latest {
      var id :| id in s.deliveries && Carries(s.deliveries[id], e, p, s.rows[p].desired.observed[e]);
      assert DeliveryOk(s, id);
      assert s.deliveries[s.nextId := delivery][id] == s.deliveries[id];
    }
  }

  /** An item that is turned away is for another path; what the queue holds for this one
      stays. */
  lemma PopNothingWork(s: StoreState, d: string, excluded: set<string>, p: string)
    requires InvAt(s, p)
    requires var item := Popped(s.queue, d, excluded).1; item.Some? ==> item.value.resource != p
    ensures WorkAt(s.(queue := Popped(s.queue, d, excluded).0), p)
  {
    hide WellFormed, Popped, TablesAt, DeliveriesOk, CachesOk, HistoryOk, Outstanding, InHand;
    PopYieldsPending(s, d, excluded, p);
    var q := Popped(s.queue, d, excluded).0;
    assert forall e :: (e, p) in q.latest <==> (e, p) in s.queue.latest;
  }

  /** One round of filling. */
  lemma PopKeeps(s: StoreState, d: string, g: nat, now: int, p: string)
    requires InvAt(s, p) && d in s.drivers && s.drivers[d].generation == g && |LiveIds(s.deliveries, d, g)| < MAX_IN_FLIGHT
    ensures var (q, item) := Popped(s.queue, d, ActiveResources(s.deliveries, d, g));
            if item.Some? && item.value.resource in s.rows
               && IsPending(q.owners, s.rows[item.value.resource], d, item.value.observation)
            then InvAt(Deliver(s.(queue := q), d, g, Reconcile(item.value.observation.driverRevision, s.rows[item.value.resource]), now), p)
            else InvAt(s.(queue := q), p)
  {
    var excluded := ActiveResources(s.deliveries, d, g);
    PopAvoids(s.queue, d, excluded);
    RowsAreKeyed(s);
    hide TablesAt, WorkAt, DeliveriesOk, CachesOk, HistoryOk, IsPending, Popped;
    var (q, item) := Popped(s.queue, d, excluded);
    PopYieldsPending(s, d, excluded, p);
    QueueFrame(s, q, p);
    QueueBooks(s, q);
    if item.Some? && item.value.resource in s.rows && IsPending(q.owners, s.rows[item.value.resource], d, item.value.observation) {
      PopAndDeliverWork(s, d, g, excluded, now, p);
      var work := Reconcile(item.value.observation.driverRevision, s.rows[item.value.resource]);
      DeliverKeeps(s.(queue := q), d, g, work, now);
      DeliverTables(s.(queue := q), d, g, work, now, p);
    } else {
      PopNothingWork(s, d, excluded, p);
    }
  }

  lemma {:induction false} FillKeeps(s: StoreState, d: string, g: nat, limit: nat, now: int, p: string)
    requires InvAt(s, p) && d in s.drivers && s.drivers[d].generation == g && limit <= MAX_IN_FLIGHT
    ensures InvAt(Fill(s, d, g, limit, now), p)
    decreases |s.queue.latest|
  {
    hide InvAt, IsPending, Popped;
    if |LiveIds(s.deliveries, d, g)| < limit {
      var excluded := ActiveResources(s.deliveries, d, g);
      var (q, item) := Popped(s.queue, d, excluded);
      PopKeeps(s, d, g, now, p);
      if item.Some? {
        PopShrinks(s.queue, d, excluded);
        if item.value.resource !in s.rows || !IsPending(q.owners, s.rows[item.value.resource], d, item.value.observation) {
          FillKeeps(s.(queue := q), d, g, limit, now, p);
        } else {
          var work := Reconcile(item.value.observation.driverRevision, s.rows[item.value.resource]);
          FillKeeps(Deliver(s.(queue := q), d, g, work, now), d, g, limit, now, p);
        }
      }
    }
  }

  lemma QueueFrame(s: StoreState, q: QueueState, p: string)
    requires TablesAt(s, p) && q.owners == s.queue.owners
    ensures TablesAt(s.(queue := q), p)
  {
  }

  lemma DeliverTables(s: StoreState, d: string, g: nat, work: Work, now: int, p: string)
    requires TablesAt(s, p)
    ensures TablesAt(Deliver(s, d, g, work, now), p)
  {
  }

  // ---- Claims ----

  lemma RenewedKeeps(s: StoreState, ids: set<nat>, now: int, p: string)
    requires InvAt(s, p)
    ensures InvAt(s.(deliveries := Renewed(s.deliveries, ids, now)), p)
  {
    hide InvAt;
    SameWorksKeep(s, Renewed(s.deliveries, ids, now), p);
  }

  lemma ClaimKeeps(s: StoreState, d: string, g: nat, limit: nat, now: int, renewed: set<nat>, run: Option<string>, p: string)
    requires InvAt(s, p) && limit <= MAX_IN_FLIGHT
    ensures InvAt(Claim(s, d, g, limit, now, renewed, run).0, p)
  {
    hide InvAt, LiveIds, HasActiveRun, Fill, ClaimRun;
    if limit > 0 && Current(s.drivers, d, g) {
      RenewedKeeps(s, renewed, now, p);
      var s1 := s.(deliveries := Renewed(s.deliveries, renewed, now));
      if TakesRun(s1, d, g, limit, run) {
        ClaimRunKeeps(s1, d, g, run.value, now, p);
        ClaimRunDrivers(s1, d, g, run.value, now);
        FillKeeps(ClaimRun(s1, d, g, run.value, now), d, g, limit, now, p);
      } else {
        FillKeeps(s1, d, g, limit, now, p);
      }
    }
  }

  // ---- The delivery window ----

  /** `s'` has the deliveries of `s` and fresh ones of the Driver, within the limit. */
  ghost predicate Adds(s: StoreState, s': StoreState, d: string, g: nat, limit: nat) {
    && s.nextId <= s'.nextId
    && (forall id | id in s.deliveries :: id in s'.deliveries && s'.deliveries[id] == s.deliveries[id])
    && (forall id | id in s'.deliveries && id !in s.deliveries :: s.nextId <= id < s'.nextId && id in LiveIds(s'.deliveries, d, g))
    && (s'.deliveries != s.deliveries ==> |LiveIds(s'.deliveries, d, g)| <= limit)
  }

  lemma AddsTransitive(s: StoreState, s': StoreState, s'': StoreState, d: string, g: nat, limit: nat)
    requires Adds(s, s', d, g, limit) && Adds(s', s'', d, g, limit)
    ensures Adds(s, s'', d, g, limit)
  {
  }

  lemma DeliverAdds(s: StoreState, d: string, g: nat, work: Work, now: int, limit: nat)
    requires forall id | id in s.deliveries :: id < s.nextId
    requires |LiveIds(s.deliveries, d, g)| < limit
    ensures Adds(s, Deliver(s, d, g, work, now), d, g, limit)
  {
    var s' := Deliver(s, d, g, work, now);
    assert LiveIds(s'.deliveries, d, g) == LiveIds(s.deliveries, d, g) + {s.nextId};
  }

  /** What filling adds: fresh deliveries of the Driver, up to the limit and no further. */
  lemma {:induction false} FillAdds(s: StoreState, d: string, g: nat, limit: nat, now: int)
    requires forall id | id in s.deliveries :: id < s.nextId
    ensures Adds(s, Fill(s, d, g, limit, now), d, g, limit)
    decreases |s.queue.latest|
  {
    hide Popped, IsPending, Adds;
    FillNothingAdds(s, s.queue, d, g, limit);
    if |LiveIds(s.deliveries, d, g)| < limit {
      var excluded := ActiveResources(s.deliveries, d, g);
      var (q, item) := Popped(s.queue, d, excluded);
      var s' := s.(queue := q);
      FillNothingAdds(s, q, d, g, limit);
      if item.Some? {
        PopShrinks(s.queue, d, excluded);
        if item.value.resource !in s.rows || !IsPending(q.owners, s.rows[item.value.resource], d, item.value.observation) {
          FillAdds(s', d, g, limit, now);
          AddsTransitive(s, s', Fill(s', d, g, limit, now), d, g, limit);
        } else {
          var work := Reconcile(item.value.observation.driverRevision, s.rows[item.value.resource]);
          var next := Deliver(s', d, g, work, now);
          DeliverAdds(s', d, g, work, now, limit);
          FillAdds(next, d, g, limit, now);
          AddsTransitive(s, s', next, d, g, limit);
          AddsTransitive(s, next, Fill(next, d, g, limit, now), d, g, limit);
        }
      }
    }
  }

  lemma FillNothingAdds(s: StoreState, q: QueueState, d: string, g: nat, limit: nat)
    ensures Adds(s, s.(queue := q), d, g, limit)
  {
  }

  /** A claim only adds, to the deliveries with their renewed leases. */
  lemma ClaimAdds(s: StoreState, d: string, g: nat, limit: nat, now: int, renewed: set<nat>, run: Option<string>)
    requires BooksOk(s) && limit > 0 && Current(s.drivers, d, g)
    ensures Adds(s.(deliveries := Renewed(s.deliveries, renewed, now)), Claim(s, d, g, limit, now, renewed, run).0, d, g, limit)
  {
    hide Fill, BooksOk, LiveIds, HasActiveRun, Adds;
    var s1 := s.(deliveries := Renewed(s.deliveries, renewed, now));
    forall id | id in s.deliveries ensures id < s.nextId {
      BooksBound(s, id);
    }
    var s2 := WithRun(s1, d, g, limit, now, run);
    if TakesRun(s1, d, g, limit, run) {
      DeliverAdds(s1, d, g, Execute(run.value), now, limit);
      AddsFrame(s1, Deliver(s1, d, g, Execute(run.value), now), s2, d, g, limit);
    } else {
      FillNothingAdds(s1, s1.queue, d, g, limit);
    }
    FillAdds(s2, d, g, limit, now);
    AddsTransitive(s1, s2, Fill(s2, d, g, limit, now), d, g, limit);
  }

  /** A claim returns at most `limit` deliveries, expired leases and new work together,
      all of them deliveries of this Driver in this generation. */
  lemma ClaimBound(s: StoreState, d: string, g: nat, limit: nat, now: int, renewed: set<nat>, run: Option<string>)
    requires BooksOk(s) && LegalClaim(s, d, g, limit, now, renewed, run)
    ensures var (s', reply) := Claim(s, d, g, limit, now, renewed, run);
            reply.Claimed? ==> |reply.ids| <= limit && reply.ids <= LiveIds(s'.deliveries, d, g)
  {
    hide Fill, BooksOk, LiveIds, HasActiveRun, Adds;
    if limit > 0 && Current(s.drivers, d, g) {
      var s1 := s.(deliveries := Renewed(s.deliveries, renewed, now));
      forall id | id in s.deliveries ensures id < s.nextId {
        BooksBound(s, id);
      }
      ClaimAdds(s, d, g, limit, now, renewed, run);
      ReturnedWithin(s, s1, Claim(s, d, g, limit, now, renewed, run).0, d, g, limit, now, renewed);
    }
  }

  lemma AddsFrame(s: StoreState, s': StoreState, s'': StoreState, d: string, g: nat, limit: nat)
    requires Adds(s, s', d, g, limit) && s''.deliveries == s'.deliveries && s''.nextId == s'.nextId
    ensures Adds(s, s'', d, g, limit)
  {
  }

  lemma ReturnedWithin(s: StoreState, s1: StoreState, s': StoreState, d: string, g: nat, limit: nat, now: int,
                       renewed: set<nat>)
    requires renewed <= Expired(s.deliveries, d, g, now) && |renewed| <= limit
    requires forall id | id in s.deliveries :: id < s.nextId
    requires s1.nextId == s.nextId && s1.deliveries == Renewed(s.deliveries, renewed, now) && Adds(s1, s', d, g, limit)
    ensures var added := set id | id in s'.deliveries && s.nextId <= id < s'.nextId;
            renewed + added <= LiveIds(s'.deliveries, d, g) && |renewed + added| <= limit
  {
    var added := set id | id in s'.deliveries && s.nextId <= id < s'.nextId;
    if s'.deliveries == s1.deliveries {
      assert added == {};
      assert renewed + added == renewed;
    } else {
      SubsetSize(renewed + added, LiveIds(s'.deliveries, d, g));
    }
  }}
