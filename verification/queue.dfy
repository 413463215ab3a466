/** The reconciliation queue (crates/kas-store/src/reconcile.rs): keys are never searched for;
    one that is no longer the `latest` of its Driver and Resource is dropped at the front. */
module Queue {
  import opened Wrappers
  import opened Resources

  type Pair = (string, string)

  datatype Key = Key(driver: string, resource: string, observation: Observation)

  /** Something for a Driver to observe on a Resource. */
  datatype Item = Item(resource: string, observation: Observation)

  datatype QueueState = QueueState(
    pending: map<string, seq<Key>>,
    latest: map<Pair, Key>,
    resourceDrivers: map<string, set<string>>,
    owners: map<string, string>)

  const EMPTY := QueueState(map[], map[], map[], map[])

  predicate Has<K, V(==)>(m: map<K, V>, key: K, value: V) {
    key in m && m[key] == value
  }

  /** `is_pending`: the observation is the one expected, and it was not made yet or
      the Driver owns the Resource and its two documents differ. */
  predicate IsPending(owners: map<string, string>, resource: Resource, d: string, expected: Observation) {
    && Has(resource.desired.observed, d, expected)
    && (!Has(resource.status.observed, d, expected) || (Has(owners, resource.Manifest(), d) && resource.Drifted()))
  }

  /** Some observation of this Driver on this Resource is pending. */
  predicate Outstanding(owners: map<string, string>, resource: Resource, d: string) {
    d in resource.desired.observed && IsPending(owners, resource, d, resource.desired.observed[d])
  }

  function KeyFor(resource: Resource, d: string): Key
    requires d in resource.desired.observed
  {
    Key(d, resource.path, resource.desired.observed[d])
  }

  predicate Live(latest: map<Pair, Key>, key: Key) {
    Has(latest, (key.driver, key.resource), key)
  }

  /** What the four collections owe each other. */
  ghost predicate WellFormed(q: QueueState) {
    && (forall pair: Pair | pair in q.latest ::
          && q.latest[pair].driver == pair.0 && q.latest[pair].resource == pair.1
          && pair.0 in q.pending && q.latest[pair] in q.pending[pair.0]
          && pair.1 in q.resourceDrivers && pair.0 in q.resourceDrivers[pair.1])
    && (forall d, key | d in q.pending && key in q.pending[d] :: key.driver == d)
  }

  function Pairs(drivers: set<string>, path: string): (pairs: set<Pair>)
    ensures forall pair: Pair :: pair in pairs <==> pair.1 == path && pair.0 in drivers
  {
    set d | d in drivers :: (d, path)
  }

  // ---- schedule ----

  ghost predicate Dropped(q: QueueState, resource: Resource, pair: Pair) {
    && pair.1 == resource.path && pair.0 !in resource.desired.observed
    && resource.path in q.resourceDrivers && pair.0 in q.resourceDrivers[resource.path]
  }

  /** The pair has a latest key once the Drivers in `done` are dealt with. */
  ghost predicate Kept(q: QueueState, resource: Resource, done: set<string>, pair: Pair) {
    if pair.1 == resource.path && pair.0 in done
    then Outstanding(q.owners, resource, pair.0)
    else pair in q.latest && !Dropped(q, resource, pair)
  }

  ghost function LatestAfter(q: QueueState, resource: Resource, done: set<string>): map<Pair, Key>
    requires done <= resource.desired.observed.Keys
  {
    map pair | pair in q.latest.Keys + Pairs(done, resource.path) && Kept(q, resource, done, pair) ::
      if pair.1 == resource.path && pair.0 in done then KeyFor(resource, pair.0) else q.latest[pair]
  }

  /** The Drivers among `done` that get a new key. */
  ghost function Notified(q: QueueState, resource: Resource, done: set<string>): set<string>
    requires done <= resource.desired.observed.Keys
  {
    set d | d in done && Outstanding(q.owners, resource, d) && !Live(q.latest, KeyFor(resource, d))
  }

  function Waiting(pending: map<string, seq<Key>>, d: string): seq<Key> {
    if d in pending then pending[d] else []
  }

  ghost function PendingAfter(q: QueueState, resource: Resource, done: set<string>): map<string, seq<Key>>
    requires done <= resource.desired.observed.Keys
  {
    map d | d in q.pending.Keys + Notified(q, resource, done) ::
      Waiting(q.pending, d) + (if d in Notified(q, resource, done) then [KeyFor(resource, d)] else [])
  }

  ghost function Scheduled(q: QueueState, resource: Resource): QueueState {
    var all := resource.desired.observed.Keys;
    QueueState(PendingAfter(q, resource, all), LatestAfter(q, resource, all),
               q.resourceDrivers[resource.path := all], q.owners)
  }

  /** Something is outstanding, in terms of the documents: the Driver is asked to observe the
      Resource and has not observed it so, or it owns it and the documents differ. */
  lemma OutstandingExactly(owners: map<string, string>, resource: Resource, d: string)
    ensures Outstanding(owners, resource, d) <==>
            && d in resource.desired.observed
            && (|| d !in resource.status.observed || resource.status.observed[d] != resource.desired.observed[d]
                || (&& resource.desired.metadata.manifest in owners && owners[resource.desired.metadata.manifest] == d
                    && (resource.status.metadata != resource.desired.metadata || resource.status.spec != resource.desired.spec)))
  {
  }

  /** After scheduling a Resource its live Drivers are exactly those with something
      to observe; the keys of other Resources are as before. */
  lemma ScheduledExactly(q: QueueState, resource: Resource)
    requires WellFormed(q)
    ensures var after := Scheduled(q, resource);
            && WellFormed(after)
            && (forall d :: (d, resource.path) in after.latest <==> Outstanding(q.owners, resource, d))
            && (forall d | (d, resource.path) in after.latest :: after.latest[(d, resource.path)] == KeyFor(resource, d))
            && (forall pair: Pair | pair.1 != resource.path ::
                  (pair in after.latest <==> pair in q.latest) && (pair in q.latest ==> after.latest[pair] == q.latest[pair]))
  {
    hide Outstanding;
    var all := resource.desired.observed.Keys;
    var after := Scheduled(q, resource);
    ScheduledWellFormed(q, resource);
    hide WellFormed;
    ScheduledElsewhere(q, resource);
    forall d | (d, resource.path) in after.latest
      ensures Outstanding(q.owners, resource, d) && after.latest[(d, resource.path)] == KeyFor(resource, d)
    {
      LatestIsOutstanding(q, resource, d);
    }
    forall d | Outstanding(q.owners, resource, d) ensures (d, resource.path) in after.latest {
      OutstandingObserves(q.owners, resource, d);
    }
  }

  lemma ScheduledElsewhere(q: QueueState, resource: Resource)
    ensures var after := Scheduled(q, resource);
            forall pair: Pair | pair.1 != resource.path ::
              (pair in after.latest <==> pair in q.latest) && (pair in q.latest ==> after.latest[pair] == q.latest[pair])
  {
  }

  lemma ScheduledWellFormed(q: QueueState, resource: Resource)
    requires WellFormed(q)
    ensures WellFormed(Scheduled(q, resource))
  {
    hide Outstanding;
    var after := Scheduled(q, resource);
    forall pair: Pair | pair in after.latest
      ensures pair.0 in after.pending && after.latest[pair] in after.pending[pair.0]
      ensures pair.1 in after.resourceDrivers && pair.0 in after.resourceDrivers[pair.1]
    {
      ScheduledQueued(q, resource, pair);
    }
    forall d, key | d in after.pending && key in after.pending[d] ensures key.driver == d {
      assert key in Waiting(q.pending, d) || key == KeyFor(resource, d);
    }
  }

  lemma LatestIsOutstanding(q: QueueState, resource: Resource, d: string)
    requires WellFormed(q) && (d, resource.path) in Scheduled(q, resource).latest
    ensures Outstanding(q.owners, resource, d)
    ensures Scheduled(q, resource).latest[(d, resource.path)] == KeyFor(resource, d)
  {
  }

  lemma OutstandingObserves(owners: map<string, string>, resource: Resource, d: string)
    requires Outstanding(owners, resource, d)
    ensures d in resource.desired.observed
  {
  }

  lemma ScheduledQueued(q: QueueState, resource: Resource, pair: Pair)
    requires WellFormed(q) && pair in Scheduled(q, resource).latest
    ensures var after := Scheduled(q, resource);
            && pair.0 in after.pending && after.latest[pair] in after.pending[pair.0]
            && pair.1 in after.resourceDrivers && pair.0 in after.resourceDrivers[pair.1]
  {
  }

  // ---- pop_excluding ----

  predicate Takeable(latest: map<Pair, Key>, excluded: set<string>, key: Key) {
    key.resource !in excluded && Live(latest, key)
  }

  /** The position of the frontmost live key of a Resource that is not excluded. */
  function FirstTakeable(keys: seq<Key>, latest: map<Pair, Key>, excluded: set<string>): (i: nat)
    ensures i <= |keys|
    ensures i < |keys| ==> Takeable(latest, excluded, keys[i])
    ensures forall k | 0 <= k < i :: !Takeable(latest, excluded, keys[k])
  {
    if keys == [] || Takeable(latest, excluded, keys[0]) then 0
    else 1 + FirstTakeable(keys[1..], latest, excluded)
  }

  /** The keys put aside because their Resource is excluded, live or stale. */
  function Deferred(keys: seq<Key>, excluded: set<string>): seq<Key> {
    if keys == [] then []
    else
      var last := keys[|keys| - 1];
      Deferred(keys[..|keys| - 1], excluded) + (if last.resource in excluded then [last] else [])
  }

  lemma {:induction false} DeferredMembers(keys: seq<Key>, excluded: set<string>, key: Key)
    ensures key in Deferred(keys, excluded) <==> key in keys && key.resource in excluded
  {
    if keys != [] {
      assert keys == keys[..|keys| - 1] + [keys[|keys| - 1]];
      DeferredMembers(keys[..|keys| - 1], excluded, key);
    }
  }

  lemma DeferredSnoc(keys: seq<Key>, k: nat, excluded: set<string>)
    requires k < |keys|
    ensures Deferred(keys[..k + 1], excluded) == Deferred(keys[..k], excluded) + (if keys[k].resource in excluded then [keys[k]] else [])
  {
    assert keys[..k + 1][..k] == keys[..k];
  }

  function SetWaiting(pending: map<string, seq<Key>>, d: string, keys: seq<Key>): map<string, seq<Key>> {
    if keys == [] then pending - {d} else pending[d := keys]
  }

  function Popped(q: QueueState, d: string, excluded: set<string>): (QueueState, Option<Item>) {
    var keys := Waiting(q.pending, d);
    var i := FirstTakeable(keys, q.latest, excluded);
    if i == |keys| then
      (q.(pending := SetWaiting(q.pending, d, Deferred(keys, excluded))), None)
    else
      (q.(pending := SetWaiting(q.pending, d, Deferred(keys[..i], excluded) + keys[i + 1..]),
       latest := q.latest - {(keys[i].driver, keys[i].resource)}),
       Some(Item(keys[i].resource, keys[i].observation)))
  }

  /** A pop yields something exactly when a Resource that is not excluded has a live
      key; it takes that key, and no other, out of the live ones. */
  lemma PoppedExactly(q: QueueState, d: string, excluded: set<string>)
    requires WellFormed(q)
    ensures var (after, item) := Popped(q, d, excluded);
            && WellFormed(after)
            && (item.None? <==> forall path :: (d, path) in q.latest ==> path in excluded)
            && (item.None? ==> after.latest == q.latest)
            && (item.Some? ==>
                  && item.value.resource !in excluded
                  && Has(q.latest, (d, item.value.resource), Key(d, item.value.resource, item.value.observation))
                  && after.latest == q.latest - {(d, item.value.resource)})
            && after.resourceDrivers == q.resourceDrivers && after.owners == q.owners
  {
    var keys := Waiting(q.pending, d);
    var i := FirstTakeable(keys, q.latest, excluded);
    var (after, item) := Popped(q, d, excluded);
    forall path | (d, path) in q.latest && path !in excluded ensures i < |keys| {
      var k :| 0 <= k < |keys| && keys[k] == q.latest[(d, path)];
      assert Takeable(q.latest, excluded, keys[k]);
    }
    if i < |keys| {
      assert keys[i] in keys;
    }
    PoppedWellFormed(q, d, excluded);
  }

  /** What waits after a pop: keys that waited before, among them all that are still live. */
  lemma PoppedWaiting(q: QueueState, d: string, excluded: set<string>, key: Key)
    ensures var keys := Waiting(q.pending, d);
            var after := Popped(q, d, excluded).0;
            && (key in Waiting(after.pending, d) ==> key in keys)
            && (key in keys && Live(after.latest, key) ==> key in Waiting(after.pending, d))
  {
    var keys := Waiting(q.pending, d);
    var i := FirstTakeable(keys, q.latest, excluded);
    var after := Popped(q, d, excluded).0;
    DeferredMembers(keys[..i], excluded, key);
    assert i == |keys| ==> keys[..i] == keys;
    if key in keys && Live(after.latest, key) {
      var k :| 0 <= k < |keys| && keys[k] == key;
      if k < i {
        assert keys[..i][k] == key;
      } else if i < k {
        assert keys[i + 1..][k - i - 1] == key;
      }
    }
  }

  lemma PoppedWellFormed(q: QueueState, d: string, excluded: set<string>)
    requires WellFormed(q)
    ensures WellFormed(Popped(q, d, excluded).0)
  {
    var after := Popped(q, d, excluded).0;
    assert forall e | e != d :: Waiting(after.pending, e) == Waiting(q.pending, e);
    forall key ensures key in Waiting(after.pending, d) ==> key in Waiting(q.pending, d)
      ensures key in Waiting(q.pending, d) && Live(after.latest, key) ==> key in Waiting(after.pending, d)
    {
      PoppedWaiting(q, d, excluded, key);
    }
    hide Popped;
    WaitingWellFormed(q, after);
  }

  lemma WaitingWellFormed(q: QueueState, after: QueueState)
    requires WellFormed(q) && after.resourceDrivers == q.resourceDrivers
    requires forall pair | pair in after.latest :: pair in q.latest && after.latest[pair] == q.latest[pair]
    requires forall d, key :: key in Waiting(after.pending, d) ==> key in Waiting(q.pending, d)
    requires forall d, key :: key in Waiting(q.pending, d) && Live(after.latest, key) ==> key in Waiting(after.pending, d)
    ensures WellFormed(after)
  {
    forall pair: Pair | pair in after.latest ensures pair.0 in after.pending && after.latest[pair] in after.pending[pair.0] {
      var key := after.latest[pair];
      assert pair == (pair.0, pair.1);
      assert key in Waiting(q.pending, pair.0) && Live(after.latest, key);
      assert key in Waiting(after.pending, pair.0);
    }
    forall d, key | d in after.pending && key in after.pending[d] ensures key.driver == d {
      assert key in Waiting(after.pending, d);
    }
  }

  lemma {:induction false} DeferredCount(keys: seq<Key>, excluded: set<string>, key: Key)
    ensures multiset(Deferred(keys, excluded))[key] == if key.resource in excluded then multiset(keys)[key] else 0
  {
    if keys != [] {
      assert keys == keys[..|keys| - 1] + [keys[|keys| - 1]];
      DeferredCount(keys[..|keys| - 1], excluded, key);
    }
  }

  /** A pop uses up what it looks at: of the keys in front of the one it takes, or of all if it
      takes none, those of excluded Resources stay and the others are gone for good; the rest
      stays as it was, as do the keys of other Drivers, and no empty list is left behind. */
  lemma PopConsumes(q: QueueState, d: string, excluded: set<string>) returns (i: nat, stay: seq<Key>)
    ensures var keys, (after, item) := Waiting(q.pending, d), Popped(q, d, excluded);
            && i <= |keys| && (item.Some? <==> i < |keys|)
            && (item.Some? ==> keys[i].resource == item.value.resource && keys[i].observation == item.value.observation)
            && (forall k | 0 <= k < i :: keys[k].resource in excluded || !Live(q.latest, keys[k]))
            && Waiting(after.pending, d) == stay + (if item.Some? then keys[i + 1..] else [])
            && |stay| <= i && (forall key :: multiset(stay)[key] == if key.resource in excluded then multiset(keys[..i])[key] else 0)
            && (d in after.pending ==> after.pending[d] != [])
            && (forall e | e != d :: (e in after.pending <==> e in q.pending) && (e in q.pending ==> after.pending[e] == q.pending[e]))
  {
    var keys := Waiting(q.pending, d);
    i := FirstTakeable(keys, q.latest, excluded);
    stay := Deferred(keys[..i], excluded);
    StayCounts(keys[..i], excluded);
    SkippedKeys(keys, q.latest, excluded);
    assert keys[..|keys|] == keys && stay + [] == stay;
    hide Deferred, FirstTakeable, Live, Waiting;
    SetWaitingExactly(q.pending, d, stay + if i < |keys| then keys[i + 1..] else []);
  }

  lemma SetWaitingExactly(pending: map<string, seq<Key>>, d: string, keys: seq<Key>)
    ensures var after := SetWaiting(pending, d, keys);
            && Waiting(after, d) == keys && (d in after ==> after[d] != [])
            && forall e | e != d :: (e in after <==> e in pending) && (e in pending ==> after[e] == pending[e])
  {
  }

  lemma StayCounts(keys: seq<Key>, excluded: set<string>)
    ensures var stay := Deferred(keys, excluded);
            |stay| <= |keys| && forall key :: multiset(stay)[key] == if key.resource in excluded then multiset(keys)[key] else 0
  {
    DeferredLength(keys, excluded);
    forall key ensures multiset(Deferred(keys, excluded))[key] == if key.resource in excluded then multiset(keys)[key] else 0 {
      DeferredCount(keys, excluded, key);
    }
  }

  lemma SkippedKeys(keys: seq<Key>, latest: map<Pair, Key>, excluded: set<string>)
    ensures forall k | 0 <= k < FirstTakeable(keys, latest, excluded) :: keys[k].resource in excluded || !Live(latest, keys[k])
  {
    forall k | 0 <= k < FirstTakeable(keys, latest, excluded) ensures keys[k].resource in excluded || !Live(latest, keys[k]) {
      assert !Takeable(latest, excluded, keys[k]);
    }
  }

  lemma {:induction false} DeferredLength(keys: seq<Key>, excluded: set<string>)
    ensures |Deferred(keys, excluded)| <= |keys|
  {
    if keys != [] {
      DeferredLength(keys[..|keys| - 1], excluded);
    }
  }

  /** The keys that are still live, in the order they are queued. */
  ghost function LiveKeys(keys: seq<Key>, latest: map<Pair, Key>): seq<Key> {
    if keys == [] then []
    else
      var last := keys[|keys| - 1];
      LiveKeys(keys[..|keys| - 1], latest) + (if Live(latest, last) then [last] else [])
  }

  lemma {:induction false} LiveKeysAppend(a: seq<Key>, b: seq<Key>, latest: map<Pair, Key>)
    ensures LiveKeys(a + b, latest) == LiveKeys(a, latest) + LiveKeys(b, latest)
  {
    if b == [] {
      assert a + b == a;
    } else {
      assert (a + b)[..|a + b| - 1] == a + b[..|b| - 1];
      LiveKeysAppend(a, b[..|b| - 1], latest);
    }
  }

  lemma {:induction false} DeferredKeepsLive(keys: seq<Key>, latest: map<Pair, Key>, excluded: set<string>)
    requires forall key | key in keys :: !Takeable(latest, excluded, key)
    ensures LiveKeys(Deferred(keys, excluded), latest) == LiveKeys(keys, latest)
  {
    if keys != [] {
      var front, last := keys[..|keys| - 1], keys[|keys| - 1];
      DeferredKeepsLive(front, latest, excluded);
      assert last in keys;
      if last.resource in excluded {
        LiveKeysAppend(Deferred(front, excluded), [last], latest);
        LiveKeysAppend(front, [last], latest);
        assert front + [last] == keys;
      } else {
        assert Deferred(keys, excluded) == Deferred(front, excluded);
      }
    }
  }

  /** A pop takes the frontmost key that may be taken, and changes the order of no
      other live keys: those it skipped keep their places. */
  lemma PopKeepsOrder(q: QueueState, d: string, excluded: set<string>)
    ensures var keys := Waiting(q.pending, d);
            var (after, item) := Popped(q, d, excluded);
            && LiveKeys(Waiting(after.pending, d), after.latest) == LiveKeys(keys, after.latest)
            && (forall e | e != d :: Waiting(after.pending, e) == Waiting(q.pending, e))
            && (item.Some? ==>
                  exists i | 0 <= i < |keys| ::
                    && keys[i].resource == item.value.resource && keys[i].observation == item.value.observation
                    && Takeable(q.latest, excluded, keys[i]) && forall k | 0 <= k < i :: !Takeable(q.latest, excluded, keys[k]))
  {
    hide LiveKeys, Takeable, Deferred;
    var keys := Waiting(q.pending, d);
    var i := FirstTakeable(keys, q.latest, excluded);
    var latest := Popped(q, d, excluded).0.latest;
    if i == |keys| {
      assert keys[..i] == keys;
      SkippedKeepsLive(keys, i, q.latest, latest, excluded);
    } else {
      SkippedKeepsLive(keys, i, q.latest, latest, excluded);
      TakenIsGone(keys[i], q.latest);
      assert keys == keys[..i] + ([keys[i]] + keys[i + 1..]);
      LiveKeysAppend(keys[..i], [keys[i]] + keys[i + 1..], latest);
      LiveKeysAppend([keys[i]], keys[i + 1..], latest);
      LiveKeysAppend(Deferred(keys[..i], excluded), keys[i + 1..], latest);
    }
  }

  lemma TakenIsGone(key: Key, latest: map<Pair, Key>)
    ensures LiveKeys([key], latest - {(key.driver, key.resource)}) == []
  {
  }

  lemma SkippedKeepsLive(keys: seq<Key>, i: nat, latest: map<Pair, Key>, latest': map<Pair, Key>, excluded: set<string>)
    requires i <= |keys| && (forall k | 0 <= k < i :: !Takeable(latest, excluded, keys[k]))
    requires latest'.Keys <= latest.Keys && forall pair | pair in latest' :: latest'[pair] == latest[pair]
    ensures LiveKeys(Deferred(keys[..i], excluded), latest') == LiveKeys(keys[..i], latest')
  {
    forall key | key in keys[..i] ensures !Takeable(latest', excluded, key) {
      assert !Takeable(latest, excluded, key);
    }
    DeferredKeepsLive(keys[..i], latest', excluded);
  }

  // ---- remove_resource, refresh_drivers, rebuild ----

  ghost function Removed(q: QueueState, path: string): QueueState {
    if path !in q.resourceDrivers then q
    else q.(latest := q.latest - Pairs(q.resourceDrivers[path], path),
         resourceDrivers := q.resourceDrivers - {path})
  }

  /** The pairs of a removed Resource go, and no others; none of them is popped. */
  lemma RemovedExactly(q: QueueState, path: string)
    requires WellFormed(q)
    ensures var after := Removed(q, path);
            && WellFormed(after)
            && (forall d :: (d, path) !in after.latest)
            && (forall pair: Pair | pair.1 != path ::
                  (pair in after.latest <==> pair in q.latest) && (pair in q.latest ==> after.latest[pair] == q.latest[pair]))
            && (forall d, excluded :: Popped(after, d, excluded).1.Some? ==> Popped(after, d, excluded).1.value.resource != path)
  {
  }

  /** What a control loop does with its queue. */
  datatype QueueCall = Schedules(resource: Resource) | Pops(d: string, excluded: set<string>) | Removes(path: string)

  ghost function Called(q: QueueState, call: QueueCall): QueueState {
    match call
    case Schedules(resource) => Scheduled(q, resource)
    case Pops(d, excluded) => Popped(q, d, excluded).0
    case Removes(path) => Removed(q, path)
  }

  ghost function AfterCalls(q: QueueState, calls: seq<QueueCall>): QueueState {
    if calls == [] then q else Called(AfterCalls(q, calls[..|calls| - 1]), calls[|calls| - 1])
  }

  lemma {:induction false} RemovedStaysAway(q: QueueState, path: string, calls: seq<QueueCall>)
    requires WellFormed(q) && forall call | call in calls && call.Schedules? :: call.resource.path != path
    ensures var after := AfterCalls(Removed(q, path), calls); WellFormed(after) && forall d :: (d, path) !in after.latest
  {
    hide WellFormed, Scheduled, Popped, Removed;
    if calls == [] {
      RemovedExactly(q, path);
    } else {
      var before, last := AfterCalls(Removed(q, path), calls[..|calls| - 1]), calls[|calls| - 1];
      assert last in calls;
      RemovedStaysAway(q, path, calls[..|calls| - 1]);
      match last
      case Schedules(resource) => ScheduledExactly(before, resource);
      case Pops(d, excluded) => PoppedExactly(before, d, excluded);
      case Removes(other) => RemovedExactly(before, other);
    }
  }

  /** No Driver is handed a removed Resource, however the queue is used afterwards, until
      the Resource is scheduled again. */
  lemma RemovedIsNotPopped(q: QueueState, path: string, calls: seq<QueueCall>, d: string, excluded: set<string>)
    requires WellFormed(q) && forall call | call in calls && call.Schedules? :: call.resource.path != path
    ensures var item := Popped(AfterCalls(Removed(q, path), calls), d, excluded).1; item.Some? ==> item.value.resource != path
  {
    hide WellFormed, Popped, AfterCalls, Removed;
    RemovedStaysAway(q, path, calls);
    PoppedExactly(AfterCalls(Removed(q, path), calls), d, excluded);
  }

  /** `refresh_drivers`: later Drivers of the list override earlier ones. */
  function OwnersOf(drivers: seq<Driver>): map<string, string> {
    if drivers == [] then map[]
    else
      var driver := drivers[|drivers| - 1];
      var owners := OwnersOf(drivers[..|drivers| - 1]);
      if driver.state == RUNNING && driver.spec.Some?
      then owners + (map manifest | manifest in driver.spec.value.manages :: driver.path)
      else owners
  }

  /** With one manager for each Manifest, the owner is the running one. */
  lemma {:induction false} OwnersExactly(drivers: seq<Driver>, manifest: string, d: string)
    requires forall i, j | 0 <= i < |drivers| && 0 <= j < |drivers|
                           && Manages(drivers[i], manifest) && Manages(drivers[j], manifest) :: drivers[i].path == drivers[j].path
    ensures Has(OwnersOf(drivers), manifest, d) <==>
            exists i | 0 <= i < |drivers| :: drivers[i].path == d && drivers[i].state == RUNNING && Manages(drivers[i], manifest)
  {
    if drivers != [] {
      var last := |drivers| - 1;
      var front := drivers[..last];
      OwnersExactly(front, manifest, d);
      if i :| 0 <= i < last && drivers[i].path == d && drivers[i].state == RUNNING && Manages(drivers[i], manifest) {
        assert front[i] == drivers[i];
      }
      if Has(OwnersOf(front), manifest, d) {
        var i :| 0 <= i < |front| && front[i].path == d && front[i].state == RUNNING && Manages(front[i], manifest);
        assert drivers[i] == front[i];
      }
      if drivers[last].state == RUNNING && Manages(drivers[last], manifest) {
        assert Has(OwnersOf(drivers), manifest, drivers[last].path);
      } else {
        assert Has(OwnersOf(drivers), manifest, d) == Has(OwnersOf(front), manifest, d);
      }
    }
  }

  ghost function ScheduledAll(q: QueueState, resources: seq<Resource>): QueueState {
    if resources == [] then q
    else Scheduled(ScheduledAll(q, resources[..|resources| - 1]), resources[|resources| - 1])
  }

  lemma ScheduledKeepsOwners(q: QueueState, resource: Resource)
    ensures Scheduled(q, resource).owners == q.owners
  {
  }

  /** A rebuilt queue holds exactly what there is to observe. */
  lemma {:induction false} RebuiltExactly(owners: map<string, string>, resources: seq<Resource>)
    requires forall i, j | 0 <= i < j < |resources| :: resources[i].path != resources[j].path
    ensures var q := ScheduledAll(EMPTY.(owners := owners), resources);
            && WellFormed(q) && q.owners == owners
            && (forall d, i | 0 <= i < |resources| :: (d, resources[i].path) in q.latest <==> Outstanding(owners, resources[i], d))
            && (forall pair: Pair | pair in q.latest :: exists i | 0 <= i < |resources| :: resources[i].path == pair.1)
  {
    hide Outstanding, WellFormed, Scheduled;
    if resources == [] {
      EmptyWellFormed(owners);
    } else {
      var last := |resources| - 1;
      var front := resources[..last];
      RebuiltExactly(owners, front);
      var before := ScheduledAll(EMPTY.(owners := owners), front);
      var q := ScheduledAll(EMPTY.(owners := owners), resources);
      ScheduledExactly(before, resources[last]);
      ScheduledKeepsOwners(before, resources[last]);
      forall d, i | 0 <= i < last ensures (d, resources[i].path) in q.latest <==> Outstanding(owners, resources[i], d) {
        assert front[i] == resources[i];
        assert (d, resources[i].path).1 != resources[last].path;
      }
      forall pair: Pair | pair in q.latest && pair.1 != resources[last].path
        ensures exists i | 0 <= i < |resources| :: resources[i].path == pair.1
      {
        var i :| 0 <= i < |front| && front[i].path == pair.1;
        assert resources[i].path == pair.1;
      }
    }
  }

  lemma EmptyWellFormed(owners: map<string, string>)
    ensures WellFormed(EMPTY.(owners := owners))
  {
  }

  // ---- The queue as the store holds it ----

  class ReconcileQueue {
    var pending: map<string, seq<Key>>
    var latest: map<Pair, Key>
    var resourceDrivers: map<string, set<string>>
    var owners: map<string, string>

    ghost function State(): QueueState
      reads this
    {
      QueueState(pending, latest, resourceDrivers, owners)
    }

    constructor ()
      ensures State() == EMPTY
    {
      pending, latest, resourceDrivers, owners := map[], map[], map[], map[];
    }

    method RefreshDrivers(drivers: seq<Driver>)
      modifies this`owners
      ensures State() == old(State()).(owners := OwnersOf(drivers))
    {
      owners := map[];
      for k := 0 to |drivers|
        invariant owners == OwnersOf(drivers[..k])
      {
        var driver := drivers[k];
        assert drivers[..k + 1][..k] == drivers[..k];
        if driver.state == RUNNING && driver.spec.Some? {
          owners := owners + (map manifest | manifest in driver.spec.value.manages :: driver.path);
        }
      }
      assert drivers[..|drivers|] == drivers;
    }

    method Schedule(resource: Resource) returns (notified: set<string>)
      modifies this
      ensures State() == Scheduled(old(State()), resource)
      ensures notified == Notified(old(State()), resource, resource.desired.observed.Keys)
      ensures WellFormed(old(State())) ==> forall d :: (d, resource.path) in latest <==>
                && d in resource.desired.observed
                && (|| d !in resource.status.observed || resource.status.observed[d] != resource.desired.observed[d]
                    || (&& resource.desired.metadata.manifest in owners && owners[resource.desired.metadata.manifest] == d
                        && (resource.status.metadata != resource.desired.metadata || resource.status.spec != resource.desired.spec)))
    {
      hide Outstanding, LatestAfter, PendingAfter, Notified;
      ghost var q := State();
      var expected := resource.desired.observed.Keys;
      var previous := if resource.path in resourceDrivers then resourceDrivers[resource.path] else {};
      latest := latest - Pairs(previous - expected, resource.path);
      resourceDrivers := resourceDrivers[resource.path := expected];
      notified := {};
      ScheduleNone(q, resource);
      var todo := expected;
      assert expected - todo == {};
      while todo != {}
        invariant todo <= expected && owners == q.owners
        invariant resourceDrivers == q.resourceDrivers[resource.path := expected]
        invariant latest == LatestAfter(q, resource, expected - todo)
        invariant pending == PendingAfter(q, resource, expected - todo)
        invariant notified == Notified(q, resource, expected - todo)
      {
        ghost var before := expected - todo;
        var d :| d in todo;
        todo := todo - {d};
        var pair, key := (d, resource.path), KeyFor(resource, d);
        LatestOne(q, resource, expected - todo, d);
        PendingOne(q, resource, expected - todo, d);
        assert before == (expected - todo) - {d};
        if !Outstanding(owners, resource, d) {
          latest := latest - {pair};
        } else if !Has(latest, pair, key) {
          latest := latest[pair := key];
          pending := pending[d := Waiting(pending, d) + [key]];
          notified := notified + {d};
        }
      }
      assert expected - todo == expected;
      if WellFormed(q) {
        hide Scheduled, WellFormed;
        ScheduledExactly(q, resource);
        forall d
          ensures (d, resource.path) in latest <==>
                  && d in resource.desired.observed
                  && (|| d !in resource.status.observed || resource.status.observed[d] != resource.desired.observed[d]
                      || (&& resource.desired.metadata.manifest in owners && owners[resource.desired.metadata.manifest] == d
                          && (resource.status.metadata != resource.desired.metadata || resource.status.spec != resource.desired.spec)))
        {
          OutstandingExactly(owners, resource, d);
        }
      }
    }

    method PopExcluding(d: string, excluded: set<string>) returns (item: Option<Item>)
      modifies this`pending, this`latest
      ensures (State(), item) == Popped(old(State()), d, excluded)
    {
      ghost var q := State();
      assert Deferred([], excluded) == [];
      hide Deferred, FirstTakeable;
      if d !in pending {
        NothingWaits(q, d, excluded);
        assert pending - {d} == pending;
        return None;
      }
      var keys := pending[d];
      var deferred := [];
      pending := pending - {d};
      for k := 0 to |keys|
        invariant State() == q.(pending := q.pending - {d})
        invariant deferred == Deferred(keys[..k], excluded)
        invariant forall j | 0 <= j < k :: !Takeable(latest, excluded, keys[j])
      {
        var key := keys[k];
        DeferredSnoc(keys, k, excluded);
        if key.resource in excluded {
          deferred := deferred + [key];
          continue;
        }
        if !Live(latest, key) {
          continue;
        }
        assert FirstTakeable(keys, latest, excluded) == k;
        var rest := deferred + keys[k + 1..];
        if rest != [] {
          pending := pending[d := rest];
        }
        latest := latest - {(key.driver, key.resource)};
        assert pending == SetWaiting(q.pending, d, rest);
        return Some(Item(key.resource, key.observation));
      }
      assert keys[..|keys|] == keys;
      if deferred != [] {
        pending := pending[d := deferred];
      }
      assert FirstTakeable(keys, latest, excluded) == |keys|;
      assert pending == SetWaiting(q.pending, d, deferred);
      item := None;
    }

    method RemoveResource(path: string)
      modifies this`latest, this`resourceDrivers
      ensures State() == Removed(old(State()), path)
    {
      if path in resourceDrivers {
        latest := latest - Pairs(resourceDrivers[path], path);
        resourceDrivers := resourceDrivers - {path};
      }
    }

    method Rebuild(drivers: seq<Driver>, resources: seq<Resource>)
      modifies this
      ensures State() == ScheduledAll(EMPTY.(owners := OwnersOf(drivers)), resources)
    {
      pending, latest, resourceDrivers := map[], map[], map[];
      RefreshDrivers(drivers);
      for k := 0 to |resources|
        invariant State() == ScheduledAll(EMPTY.(owners := OwnersOf(drivers)), resources[..k])
      {
        assert resources[..k + 1][..k] == resources[..k];
        var notified := Schedule(resources[k]);
      }
      assert resources[..|resources|] == resources;
    }
  }

  lemma NothingWaits(q: QueueState, d: string, excluded: set<string>)
    requires d !in q.pending
    ensures Popped(q, d, excluded) == (q.(pending := q.pending - {d}), None)
  {
  }

  lemma ScheduleNone(q: QueueState, resource: Resource)
    ensures var previous := if resource.path in q.resourceDrivers then q.resourceDrivers[resource.path] else {};
            LatestAfter(q, resource, {}) == q.latest - Pairs(previous - resource.desired.observed.Keys, resource.path)
    ensures PendingAfter(q, resource, {}) == q.pending
    ensures Notified(q, resource, {}) == {}
  {
    hide Outstanding;
    assert Notified(q, resource, {}) == {};
    assert forall d | d in q.pending :: q.pending[d] + [] == q.pending[d];
  }

  /** One round of the scheduling loop. */
  lemma LatestOne(q: QueueState, resource: Resource, done: set<string>, d: string)
    requires d in done && done <= resource.desired.observed.Keys
    ensures var pair, key := (d, resource.path), KeyFor(resource, d);
            var latest := LatestAfter(q, resource, done - {d});
            && (Has(latest, pair, key) <==> Live(q.latest, key))
            && LatestAfter(q, resource, done)
               == if Outstanding(q.owners, resource, d) then latest[pair := key] else latest - {pair}
  {
    hide Outstanding;
    var pair, key := (d, resource.path), KeyFor(resource, d);
    var latest, after := LatestAfter(q, resource, done - {d}), LatestAfter(q, resource, done);
    assert forall other: Pair | other != pair :: Kept(q, resource, done, other) <==> Kept(q, resource, done - {d}, other);
    assert forall other: Pair | other != pair :: other in after <==> other in latest;
  }

  lemma PendingOne(q: QueueState, resource: Resource, done: set<string>, d: string)
    requires d in done && done <= resource.desired.observed.Keys
    ensures var key := KeyFor(resource, d);
            var pending := PendingAfter(q, resource, done - {d});
            var notifies := Outstanding(q.owners, resource, d) && !Live(q.latest, key);
            && PendingAfter(q, resource, done) == (if notifies then pending[d := Waiting(pending, d) + [key]] else pending)
            && Notified(q, resource, done) == Notified(q, resource, done - {d}) + (if notifies then {d} else {})
  {
    hide Outstanding, Live;
    var before, after := Notified(q, resource, done - {d}), Notified(q, resource, done);
    assert d !in before && before == after - {d};
    var pending := PendingAfter(q, resource, done - {d});
    assert Waiting(pending, d) == Waiting(q.pending, d);
  }
}
