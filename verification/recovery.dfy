/** Opening a store again (`open` in crates/kas-store/src/lib.rs).

    Deliveries and caches are gone, every row is recomputed and the queue is built anew.
    That restores the invariant from whatever is on disk, as long as rows are stored
    under their own paths and have registered Manifests. */
module Recovery {
  import opened Resources
  import opened Queue
  import opened Control
  import opened Invariants
  import opened Bookkeeping

  /** What the database itself guarantees: keys, registered Manifests, one manager for
      each Manifest. Nothing about observations, and nothing kept in memory. */
  ghost predicate DiskOk(s: StoreState) {
    && DriversOk(s.drivers)
    && (forall p | p in s.rows :: s.rows[p].path == p && s.rows[p].Manifest() in s.registry)
    && (forall id, request, g | (id, request, g) in s.commits :: id < s.nextId)
  }

  /** Refreshing the owners from a listing gives the running manager of each Manifest. */
  lemma ListedOwners(drivers: map<string, Driver>, listing: seq<Driver>)
    requires DriversOk(drivers) && Lists(drivers, listing)
    ensures OwnersOk(OwnersOf(listing), drivers)
  {
    hide OwnersOf;
    forall manifest, d ensures Has(OwnersOf(listing), manifest, d) <==> Owns(drivers, d, manifest) && drivers[d].state == RUNNING {
      OwnersExactly(listing, manifest, d);
      if Owns(drivers, d, manifest) && drivers[d].state == RUNNING {
        var k :| 0 <= k < |listing| && listing[k] == drivers[d];
        assert listing[k].path == d && Manages(listing[k], manifest);
      }
    }
  }

  /** Rebuilding the queue is scheduling every path on an empty one. */
  lemma {:induction false} RebuildIsScheduling(rows: map<string, Resource>, q: QueueState, paths: seq<string>,
                                               resources: seq<Resource>)
    requires |resources| == |paths| && forall k | 0 <= k < |paths| :: paths[k] in rows && resources[k] == rows[paths[k]]
    ensures ScheduledAll(q, resources) == SchedulePaths(rows, q, paths)
  {
    if paths != [] {
      var last := |paths| - 1;
      RebuildIsScheduling(rows, q, paths[..last], resources[..last]);
    }
  }

  /** However the tables were left, after opening them every pair that is outstanding is
      queued, and every row states what its Drivers have to observe. */
  lemma ReopenRestores(s: StoreState, drivers: seq<Driver>, paths: seq<string>)
    requires DiskOk(s) && Listings(s, drivers, paths)
    ensures Inv(Reopened(s, drivers, paths))
  {
    hide InvAt, DriversOk, Reopened;
    forall p ensures InvAt(Reopened(s, drivers, paths), p) {
      ReopenRestoresRow(s, drivers, paths, p);
    }
    InvIsEveryPath(Reopened(s, drivers, paths));
  }

  /** For each path on its own, whatever the other rows are. */
  lemma ReopenRestoresRow(s: StoreState, drivers: seq<Driver>, paths: seq<string>, p: string)
    requires DriversOk(s.drivers) && Keyed(s.rows) && Listings(s, drivers, paths)
    requires forall id, request, g | (id, request, g) in s.commits :: id < s.nextId
    requires p in s.rows ==> s.rows[p].Manifest() in s.registry
    ensures InvAt(Reopened(s, drivers, paths), p)
  {
    hide Reobserve, OwnersOf, ScheduledAll, OwnersOk, DriversOk, WorkAt, Observed, BooksOk;
    ListedOwners(s.drivers, drivers);
    RebuiltOwners(s, drivers, paths);
    if p in s.rows {
      ReobservedPath(s.drivers, s.rows[p]);
      ReobserveObserved(s.drivers, s.rows[p]);
    }
    ReopenedWork(s, drivers, paths, p);
    ReopenBooks(s, drivers, paths);
  }

  lemma RebuiltOwners(s: StoreState, drivers: seq<Driver>, paths: seq<string>)
    requires Listings(s, drivers, paths)
    ensures Reopened(s, drivers, paths).queue.owners == OwnersOf(drivers)
  {
    ScheduledAllOwners(EMPTY.(owners := OwnersOf(drivers)),
                       seq(|paths|, k requires 0 <= k < |paths| => Reopened(s, drivers, paths).rows[paths[k]]));
  }

  lemma {:induction false} ScheduledAllOwners(q: QueueState, resources: seq<Resource>)
    ensures ScheduledAll(q, resources).owners == q.owners
  {
    if resources != [] {
      ScheduledAllOwners(q, resources[..|resources| - 1]);
      ScheduledKeepsOwners(ScheduledAll(q, resources[..|resources| - 1]), resources[|resources| - 1]);
    }
  }

  lemma ReopenedWork(s: StoreState, drivers: seq<Driver>, paths: seq<string>, p: string)
    requires Keyed(s.rows) && Listings(s, drivers, paths)
    ensures WorkAt(Reopened(s, drivers, paths), p)
  {
    hide DriversOk, Reobserve, OwnersOf, SchedulePaths, ScheduledAll, PathSettled, WellFormed;
    var s' := Reopened(s, drivers, paths);
    var q := EMPTY.(owners := OwnersOf(drivers));
    RebuildIsScheduling(s'.rows, q, paths, seq(|paths|, k requires 0 <= k < |paths| => s'.rows[paths[k]]));
    EmptySettled(q.owners, s'.rows);
    forall other | other in s'.rows ensures s'.rows[other].path == other {
      ReobservedPath(s.drivers, s.rows[other]);
    }
    SchedulePathsSettles(s'.rows, q, paths, s'.deliveries);
  }

  lemma ReobservedPath(drivers: map<string, Driver>, resource: Resource)
    ensures Reobserve(drivers, resource).path == resource.path && Reobserve(drivers, resource).Manifest() == resource.Manifest()
  {
  }

  lemma EmptySettled(owners: map<string, string>, rows: map<string, Resource>)
    ensures WellFormed(EMPTY.(owners := owners))
    ensures forall p | p !in rows :: PathSettled(owners, rows, map[], map[], p)
  {
  }
}
