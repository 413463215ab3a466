/** The documents the platform stores, and which Drivers select which Resources
    (crates/kas-core/src/lib.rs, crates/kas-store/src/reconcile.rs). */
module Resources {
  import opened Wrappers
  import opened Matching

  /** A JSON value, compared but never taken apart. */
  datatype Json = Json(text: string)

  const STATE_DELETED := "deleted"
  const RUNNING := "running"
  const STOPPED := "stopped"

  datatype Observation = Observation(driverRevision: nat, resourceRevision: nat)

  /** Metadata other than `observed` and the timestamps, which change only together
      with the revision. */
  datatype Metadata = Metadata(
    manifest: string, name: string, state: string,
    revision: nat, generation: nat,
    isProtected: bool, managedBy: string,
    package: string, packageRevision: nat)

  datatype Document = Document(metadata: Metadata, observed: map<string, Observation>, spec: Json)

  /** The desired document and the status document of one object. */
  datatype Resource = Resource(path: string, desired: Document, status: Document) {
    function Manifest(): string { desired.metadata.manifest }
    function Revision(): nat { desired.metadata.revision }

    /** The two documents differ in more than their observations. */
    predicate Drifted() {
      desired.metadata != status.metadata || desired.spec != status.spec
    }
  }

  datatype ManifestSelector = One(pattern: string) | Many(patterns: seq<string>)

  datatype DriverWatch = DriverWatch(manifest: ManifestSelector, paths: seq<string>)

  datatype DriverSpec = DriverSpec(serviceAccount: string, manages: seq<string>, watches: seq<DriverWatch>)

  datatype DriverState = Stopped | Starting | Running | Stopping | Failed

  /** A Driver Resource: the desired part (`state`, `spec`) and the runtime part. A
      specification that does not decode is `None`. */
  datatype Driver = Driver(
    path: string, isProtected: bool, revision: nat, state: string, spec: Option<DriverSpec>,
    generation: nat, status: DriverState)

  predicate SelectorMatches(selector: ManifestSelector, manifest: string) {
    match selector
    case One(pattern) => ResourcePathMatches(pattern, manifest)
    case Many(patterns) => exists pattern | pattern in patterns :: ResourcePathMatches(pattern, manifest)
  }

  predicate PathsSelect(paths: seq<string>, path: string) {
    paths == [] || exists pattern | pattern in paths :: ResourcePathMatches(pattern, path)
  }

  predicate WatchMatches(watch: DriverWatch, resource: Resource) {
    SelectorMatches(watch.manifest, resource.Manifest()) && PathsSelect(watch.paths, resource.path)
  }

  predicate Watches(spec: DriverSpec, resource: Resource) {
    exists watch | watch in spec.watches :: WatchMatches(watch, resource)
  }

  predicate SpecMatches(spec: DriverSpec, resource: Resource) {
    resource.Manifest() in spec.manages || Watches(spec, resource)
  }

  /** `driver_matches_resource`: a running Driver owns or watches the Resource. */
  predicate DriverMatches(driver: Driver, resource: Resource) {
    driver.state == RUNNING && driver.spec.Some? && SpecMatches(driver.spec.value, resource)
  }

  /** The selector has a pattern that divides the text, or a `*`. */
  ghost predicate SomePattern(patterns: seq<string>, path: string) {
    "*" in patterns || exists pattern | pattern in patterns :: Divides(pattern, path)
  }

  /** Which Resources a Driver selects, block by block: it runs, and it manages the Manifest
      or one of its watches has the Manifest and, if it lists paths, the path. */
  lemma DriverMatchesExactly(driver: Driver, resource: Resource)
    ensures DriverMatches(driver, resource) <==>
            && driver.state == "running" && driver.spec.Some?
            && (|| resource.desired.metadata.manifest in driver.spec.value.manages
                || exists k | 0 <= k < |driver.spec.value.watches| ::
                     var watch := driver.spec.value.watches[k];
                     && SomePattern(if watch.manifest.One? then [watch.manifest.pattern] else watch.manifest.patterns,
                                    resource.desired.metadata.manifest)
                     && (watch.paths == [] || SomePattern(watch.paths, resource.path)))
  {
    if driver.spec.Some? {
      var watches := driver.spec.value.watches;
      forall k | 0 <= k < |watches|
        ensures WatchMatches(watches[k], resource) <==>
                && SomePattern(if watches[k].manifest.One? then [watches[k].manifest.pattern] else watches[k].manifest.patterns,
                               resource.desired.metadata.manifest)
                && (watches[k].paths == [] || SomePattern(watches[k].paths, resource.path))
      {
        WatchMatchesExactly(watches[k], resource);
      }
    }
  }

  lemma WatchMatchesExactly(watch: DriverWatch, resource: Resource)
    ensures WatchMatches(watch, resource) <==>
            && SomePattern(if watch.manifest.One? then [watch.manifest.pattern] else watch.manifest.patterns,
                           resource.desired.metadata.manifest)
            && (watch.paths == [] || SomePattern(watch.paths, resource.path))
  {
    hide PathMatches, Divides;
    forall pattern, path ensures PathMatches(pattern, path) <==> Divides(pattern, path) {
      MatchesIfDivides(pattern, path);
    }
    if watch.manifest.One? {
      assert watch.manifest.pattern in [watch.manifest.pattern];
    }
  }

  predicate Manages(driver: Driver, manifest: string) {
    driver.spec.Some? && manifest in driver.spec.value.manages
  }

  /** The table of Drivers is keyed by path, and no two Drivers, running or not,
      manage one Manifest (`project_driver_manifests`). */
  ghost predicate DriversOk(drivers: map<string, Driver>) {
    && (forall d | d in drivers :: drivers[d].path == d)
    && (forall d, e, manifest | d in drivers && e in drivers
                                && Manages(drivers[d], manifest) && Manages(drivers[e], manifest) :: d == e)
  }

  /** `driver_for_resource` finds this Driver, running or not. */
  predicate Owns(drivers: map<string, Driver>, d: string, manifest: string) {
    d in drivers && Manages(drivers[d], manifest)
  }

  /** `matching_drivers` and the observations built from it: the owner if it runs,
      and every running watcher. */
  function Expected(drivers: map<string, Driver>, resource: Resource): map<string, Observation> {
    map d | d in drivers && drivers[d].state == RUNNING
            && (Owns(drivers, d, resource.Manifest()) || (drivers[d].spec.Some? && Watches(drivers[d].spec.value, resource)))
      :: Observation(drivers[d].revision, resource.Revision())
  }

  lemma ExpectedIsMatching(drivers: map<string, Driver>, resource: Resource)
    ensures forall d :: d in Expected(drivers, resource) <==> d in drivers && DriverMatches(drivers[d], resource)
  {
  }

  /** `enqueue_if_drifted` for one row: recompute what every Driver should observe,
      and forget what the others have observed. */
  function Reobserve(drivers: map<string, Driver>, resource: Resource): Resource {
    var expected := Expected(drivers, resource);
    resource.(desired := resource.desired.(observed := expected),
    status := resource.status.(observed := map d | d in resource.status.observed && d in expected :: resource.status.observed[d]))
  }

  /** The observations of the row are what a full recomputation would give. */
  ghost predicate Observed(drivers: map<string, Driver>, resource: Resource) {
    && resource.desired.observed == Expected(drivers, resource)
    && resource.status.observed.Keys <= resource.desired.observed.Keys
  }

  lemma ReobserveObserved(drivers: map<string, Driver>, resource: Resource)
    ensures Observed(drivers, Reobserve(drivers, resource))
    ensures Observed(drivers, resource) ==> Reobserve(drivers, resource) == resource
  {
  }
}
