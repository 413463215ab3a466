/** Replacing one Driver document (crates/kas-store/src/reconcile.rs): only the Manifest
    partitions the change can affect are visited, with the result of a full scan. */
module Partitions {
  import opened Wrappers
  import opened Paths
  import opened Matching
  import opened Resources

  // ---- Sorted, duplicate-free watch paths ----

  predicate TextLeq(a: string, b: string) {
    a == "" || (b != "" && (a[0] < b[0] || (a[0] == b[0] && TextLeq(a[1..], b[1..]))))
  }

  lemma {:induction false} TextLeqTotal(a: string, b: string)
    ensures TextLeq(a, b) || TextLeq(b, a)
    ensures TextLeq(a, b) && TextLeq(b, a) ==> a == b
  {
    if a != "" && b != "" && a[0] == b[0] {
      TextLeqTotal(a[1..], b[1..]);
      assert a == [a[0]] + a[1..] && b == [b[0]] + b[1..];
    }
  }

  lemma {:induction false} TextLeqTransitive(a: string, b: string, c: string)
    requires TextLeq(a, b) && TextLeq(b, c)
    ensures TextLeq(a, c)
  {
    if a != "" && a[0] == b[0] == c[0] {
      TextLeqTransitive(a[1..], b[1..], c[1..]);
    }
  }

  /** Strictly ascending, hence sorted and without duplicates. */
  ghost predicate Ascending(s: seq<string>) {
    forall i, j | 0 <= i < j < |s| :: s[i] != s[j] && TextLeq(s[i], s[j])
  }

  function InsertPath(path: string, s: seq<string>): (r: seq<string>)
    ensures forall p :: p in r <==> p in s || p == path
  {
    if s == [] then [path]
    else if path == s[0] then s
    else if TextLeq(path, s[0]) then [path] + s
    else [s[0]] + InsertPath(path, s[1..])
  }

  /** `normalized_watch_paths`: `sort` then `dedup`. */
  function NormalizedPaths(paths: seq<string>): (r: seq<string>)
    ensures forall p :: p in r <==> p in paths
  {
    if paths == [] then [] else InsertPath(paths[0], NormalizedPaths(paths[1..]))
  }

  lemma {:induction false} InsertAscending(path: string, s: seq<string>)
    requires Ascending(s)
    ensures Ascending(InsertPath(path, s))
  {
    if s != [] && path != s[0] {
      TextLeqTotal(path, s[0]);
      if TextLeq(path, s[0]) {
        forall k | 0 < k < |s| ensures path != s[k] && TextLeq(path, s[k]) {
          TextLeqTransitive(path, s[0], s[k]);
          TextLeqTotal(s[0], s[k]);
        }
      } else {
        InsertAscending(path, s[1..]);
        var rest := InsertPath(path, s[1..]);
        forall k | 0 <= k < |rest| ensures s[0] != rest[k] && TextLeq(s[0], rest[k]) {
          assert rest[k] in rest;
        }
      }
    }
  }

  lemma {:induction false} NormalizedAscending(paths: seq<string>)
    ensures Ascending(NormalizedPaths(paths))
  {
    if paths != [] {
      NormalizedAscending(paths[1..]);
      InsertAscending(paths[0], NormalizedPaths(paths[1..]));
    }
  }

  lemma {:induction false} AscendingCanonical(s: seq<string>, t: seq<string>)
    requires Ascending(s) && Ascending(t) && (forall p :: p in s <==> p in t)
    ensures s == t
  {
    if s == [] {
      assert forall k | 0 <= k < |t| :: t[k] in t;
    } else {
      assert s[0] in t && t != [];
      assert t[0] in s;
      TextLeqTotal(s[0], t[0]);
      assert s[0] == t[0];
      assert forall p :: p in s[1..] <==> p in s && p != s[0];
      assert forall p :: p in t[1..] <==> p in t && p != t[0];
      AscendingCanonical(s[1..], t[1..]);
      assert s == [s[0]] + s[1..] && t == [t[0]] + t[1..];
    }
  }

  /** Two watches normalise alike exactly when they list the same paths. */
  lemma NormalizedIsCanonical(a: seq<string>, b: seq<string>)
    ensures NormalizedPaths(a) == NormalizedPaths(b) <==> forall p :: p in a <==> p in b
  {
    NormalizedAscending(a);
    NormalizedAscending(b);
    if forall p :: p in a <==> p in b {
      AscendingCanonical(NormalizedPaths(a), NormalizedPaths(b));
    } else {
      var p :| p in a <==> p !in b;
      assert p in NormalizedPaths(a) <==> p !in NormalizedPaths(b);
    }
  }

  lemma NormalizedSelects(paths: seq<string>, path: string)
    ensures PathsSelect(NormalizedPaths(paths), path) == PathsSelect(paths, path)
  {
  }

  // ---- The partitions a change can affect ----

  datatype Snapshot = Snapshot(revision: nat, spec: DriverSpec)

  function SnapshotOf(driver: Option<Driver>): Option<Snapshot> {
    if driver.Some? && driver.value.state == RUNNING && driver.value.spec.Some?
    then Some(Snapshot(driver.value.revision, driver.value.spec.value))
    else None
  }

  datatype Effect = Effect(manages: bool, watches: set<seq<string>>)

  function EffectOn(snapshot: Snapshot, manifest: string): Option<Effect> {
    var manages := manifest in snapshot.spec.manages;
    var watches := set watch | watch in snapshot.spec.watches && SelectorMatches(watch.manifest, manifest) ::
                     NormalizedPaths(watch.paths);
    if manages || watches != {} then Some(Effect(manages, watches)) else None
  }

  function Patterns(selector: ManifestSelector): seq<string> {
    match selector
    case One(pattern) => [pattern]
    case Many(patterns) => patterns
  }

  /** A pattern with a `*` stands for the registered Manifests it matches, any other for itself. */
  predicate Expands(pattern: string, registry: seq<string>, manifest: string) {
    if '*' in pattern then manifest in registry && ResourcePathMatches(pattern, manifest) else manifest == pattern
  }

  ghost predicate SomeExpands(patterns: seq<string>, registry: seq<string>, manifest: string) {
    exists pattern | pattern in patterns :: Expands(pattern, registry, manifest)
  }

  ghost predicate SomeWatchExpands(watches: seq<DriverWatch>, registry: seq<string>, manifest: string) {
    exists watch | watch in watches :: SomeExpands(Patterns(watch.manifest), registry, manifest)
  }

  ghost predicate IsCandidate(snapshot: Snapshot, registry: seq<string>, manifest: string) {
    manifest in snapshot.spec.manages || SomeWatchExpands(snapshot.spec.watches, registry, manifest)
  }

  lemma SomeExpandsSnoc(patterns: seq<string>, pattern: string, registry: seq<string>, manifest: string)
    ensures SomeExpands(patterns + [pattern], registry, manifest)
       <==> SomeExpands(patterns, registry, manifest) || Expands(pattern, registry, manifest)
  {
  }

  lemma SomeWatchExpandsSnoc(watches: seq<DriverWatch>, watch: DriverWatch, registry: seq<string>, manifest: string)
    ensures SomeWatchExpands(watches + [watch], registry, manifest)
       <==> SomeWatchExpands(watches, registry, manifest) || SomeExpands(Patterns(watch.manifest), registry, manifest)
  {
  }

  /** `expand_manifest_selector` adds to its output in place. */
  method ExpandSelector(selector: ManifestSelector, registry: seq<string>, output: set<string>)
    returns (expanded: set<string>)
    ensures forall manifest :: manifest in expanded <==>
                               manifest in output || SomeExpands(Patterns(selector), registry, manifest)
  {
    var patterns := Patterns(selector);
    expanded := output;
    for k := 0 to |patterns|
      invariant forall manifest :: manifest in expanded <==>
                                   manifest in output || SomeExpands(patterns[..k], registry, manifest)
    {
      var pattern := patterns[k];
      assert patterns[..k + 1] == patterns[..k] + [pattern];
      forall manifest { SomeExpandsSnoc(patterns[..k], pattern, registry, manifest); }
      if '*' in pattern {
        expanded := expanded + set manifest | manifest in registry && ResourcePathMatches(pattern, manifest);
      } else {
        expanded := expanded + {pattern};
      }
    }
    assert patterns[..|patterns|] == patterns;
  }

  method CandidateManifests(snapshot: Snapshot, registry: seq<string>) returns (manifests: set<string>)
    ensures forall manifest :: manifest in manifests <==> IsCandidate(snapshot, registry, manifest)
  {
    manifests := set manifest | manifest in snapshot.spec.manages;
    var watches := snapshot.spec.watches;
    for k := 0 to |watches|
      invariant forall manifest :: manifest in manifests <==>
                                   manifest in snapshot.spec.manages || SomeWatchExpands(watches[..k], registry, manifest)
    {
      assert watches[..k + 1] == watches[..k] + [watches[k]];
      forall manifest { SomeWatchExpandsSnoc(watches[..k], watches[k], registry, manifest); }
      manifests := ExpandSelector(watches[k].manifest, registry, manifests);
    }
    assert watches[..|watches|] == watches;
  }

  /** The Manifest is in the result of `affected_manifest_paths`. */
  ghost predicate Affected(before: Option<Snapshot>, after: Option<Snapshot>, registry: seq<string>, manifest: string) {
    match (before, after)
    case (None, None) => false
    case (Some(s), None) => IsCandidate(s, registry, manifest) && EffectOn(s, manifest).Some?
    case (None, Some(s)) => IsCandidate(s, registry, manifest) && EffectOn(s, manifest).Some?
    case (Some(s), Some(t)) =>
      if s.revision != t.revision then
        || (IsCandidate(s, registry, manifest) && EffectOn(s, manifest).Some?)
        || (IsCandidate(t, registry, manifest) && EffectOn(t, manifest).Some?)
      else
        (IsCandidate(s, registry, manifest) || IsCandidate(t, registry, manifest)) && EffectOn(s, manifest) != EffectOn(t, manifest)
  }

  method SelectedManifests(snapshot: Snapshot, registry: seq<string>) returns (selected: set<string>)
    ensures forall manifest :: manifest in selected <==>
                               IsCandidate(snapshot, registry, manifest) && EffectOn(snapshot, manifest).Some?
  {
    var candidates := CandidateManifests(snapshot, registry);
    selected := set manifest | manifest in candidates && EffectOn(snapshot, manifest).Some?;
  }

  method AffectedManifestPaths(before: Option<Driver>, after: Option<Driver>, registry: seq<string>)
    returns (affected: set<string>)
    ensures forall manifest :: manifest in affected <==> Affected(SnapshotOf(before), SnapshotOf(after), registry, manifest)
  {
    match (SnapshotOf(before), SnapshotOf(after))
    case (None, None) =>
      affected := {};
    case (Some(s), None) =>
      affected := SelectedManifests(s, registry);
    case (None, Some(s)) =>
      affected := SelectedManifests(s, registry);
    case (Some(s), Some(t)) =>
      if s.revision != t.revision {
        var left := SelectedManifests(s, registry);
        var right := SelectedManifests(t, registry);
        affected := left + right;
      } else {
        var left := CandidateManifests(s, registry);
        var right := CandidateManifests(t, registry);
        affected := set manifest | manifest in left + right && EffectOn(s, manifest) != EffectOn(t, manifest);
      }
  }

  // ---- Updating the partitions ----

  /** The observations of one Driver on one row, brought up to date with its new document. */
  function UpdateRow(d: string, after: Option<Driver>, resource: Resource): Resource {
    if after.Some? && DriverMatches(after.value, resource) then
      resource.(desired := resource.desired.(observed :=
      resource.desired.observed[d := Observation(after.value.revision, resource.Revision())]))
    else
      resource.(desired := resource.desired.(observed := resource.desired.observed - {d}),
      status := resource.status.(observed := resource.status.observed - {d}))
  }

  /** `reconcile_driver_change` on the rows, one partition after the other. */
  method ReconcileDriverChange(rows: map<string, Resource>, registry: seq<string>, d: string,
                               before: Option<Driver>, after: Option<Driver>)
    returns (updated: map<string, Resource>, changed: set<string>)
    requires forall p | p in rows :: rows[p].path == p
    ensures updated.Keys == rows.Keys
    ensures forall p | p in rows ::
              updated[p] == if Affected(SnapshotOf(before), SnapshotOf(after), registry, rows[p].Manifest())
              then UpdateRow(d, after, rows[p]) else rows[p]
    ensures changed == set p | p in rows && updated[p] != rows[p]
  {
    var affected := AffectedManifestPaths(before, after, registry);
    updated, changed := rows, {};
    var todo := affected;
    while todo != {}
      invariant todo <= affected
      invariant updated.Keys == rows.Keys
      invariant forall p | p in rows ::
                  updated[p] == if rows[p].Manifest() in affected - todo then UpdateRow(d, after, rows[p]) else rows[p]
      invariant changed == set p | p in rows && updated[p] != rows[p]
    {
      var manifest :| manifest in todo;
      todo := todo - {manifest};
      var listed := set p | p in rows && rows[p].Manifest() == manifest;
      updated, changed := UpdatePartition(rows, d, after, listed, updated, changed);
    }
  }

  method UpdatePartition(rows: map<string, Resource>, d: string, after: Option<Driver>, listed: set<string>,
                         before: map<string, Resource>, changedBefore: set<string>)
    returns (updated: map<string, Resource>, changed: set<string>)
    requires before.Keys == rows.Keys && listed <= rows.Keys
    requires forall p | p in listed :: before[p] == rows[p]
    requires changedBefore == set p | p in rows && before[p] != rows[p]
    ensures updated.Keys == rows.Keys
    ensures forall p | p in rows :: updated[p] == if p in listed then UpdateRow(d, after, rows[p]) else before[p]
    ensures changed == set p | p in rows && updated[p] != rows[p]
  {
    updated, changed := before, changedBefore;
    var todo := listed;
    while todo != {}
      invariant todo <= listed && updated.Keys == rows.Keys
      invariant forall p | p in rows :: updated[p] == if p in listed - todo then UpdateRow(d, after, rows[p]) else before[p]
      invariant changed == set p | p in rows && updated[p] != rows[p]
    {
      var path :| path in todo;
      todo := todo - {path};
      var resource := UpdateRow(d, after, updated[path]);
      OnlyObservationsChange(d, after, updated[path]);
      if resource.desired.observed != updated[path].desired.observed || resource.status.observed != updated[path].status.observed {
        updated, changed := updated[path := resource], changed + {path};
      }
    }
  }

  lemma OnlyObservationsChange(d: string, after: Option<Driver>, resource: Resource)
    ensures var updated := UpdateRow(d, after, resource);
            && updated.(desired := updated.desired.(observed := map[]), status := updated.status.(observed := map[]))
               == resource.(desired := resource.desired.(observed := map[]), status := resource.status.(observed := map[]))
            && (updated.desired.observed == resource.desired.observed && updated.status.observed == resource.status.observed
                ==> updated == resource)
  {
  }

  // ---- Incremental equals full scan ----

  /** The table with the document of one Driver replaced, or removed. */
  ghost function Replace(drivers: map<string, Driver>, d: string, after: Option<Driver>): map<string, Driver> {
    if after.Some? then drivers[d := after.value] else drivers - {d}
  }

  ghost function Lookup(drivers: map<string, Driver>, d: string): Option<Driver> {
    if d in drivers then Some(drivers[d]) else None
  }

  /** Selectors expand to every Manifest they match, as long as it is registered. */
  lemma MatchingIsCandidate(snapshot: Snapshot, registry: seq<string>, resource: Resource)
    requires SpecMatches(snapshot.spec, resource) && resource.Manifest() in registry
    ensures IsCandidate(snapshot, registry, resource.Manifest())
    ensures EffectOn(snapshot, resource.Manifest()).Some?
  {
    var manifest := resource.Manifest();
    if manifest !in snapshot.spec.manages {
      var watch :| watch in snapshot.spec.watches && WatchMatches(watch, resource);
      var pattern :| pattern in Patterns(watch.manifest) && ResourcePathMatches(pattern, manifest);
      if '*' !in pattern {
        ExactSelector(pattern, manifest);
      }
      assert Expands(pattern, registry, manifest);
      assert SomeExpands(Patterns(watch.manifest), registry, manifest);
      EffectDecides(snapshot, resource);
    }
  }

  /** What a snapshot does to a Manifest decides which of its Resources it selects. */
  lemma EffectDecides(snapshot: Snapshot, resource: Resource)
    ensures SpecMatches(snapshot.spec, resource) <==>
            match EffectOn(snapshot, resource.Manifest())
            case None => false
            case Some(effect) => effect.manages || exists paths | paths in effect.watches :: PathsSelect(paths, resource.path)
  {
    var manifest := resource.Manifest();
    var watches := set watch | watch in snapshot.spec.watches && SelectorMatches(watch.manifest, manifest) ::
      NormalizedPaths(watch.paths);
    forall watch | watch in snapshot.spec.watches && WatchMatches(watch, resource)
      ensures exists paths | paths in watches :: PathsSelect(paths, resource.path)
    {
      NormalizedSelects(watch.paths, resource.path);
      assert NormalizedPaths(watch.paths) in watches;
    }
    forall paths | paths in watches && PathsSelect(paths, resource.path) ensures Watches(snapshot.spec, resource) {
      var watch :| watch in snapshot.spec.watches && SelectorMatches(watch.manifest, manifest) && NormalizedPaths(watch.paths) == paths;
      NormalizedSelects(watch.paths, resource.path);
      assert WatchMatches(watch, resource);
    }
  }

  /** There is an effect exactly if the Manifest is managed or selected by a watch; and the
      candidates among the registered Manifests are exactly those with an effect, so nothing
      is visited for nothing. */
  lemma CandidatesHaveEffect(snapshot: Snapshot, registry: seq<string>, manifest: string)
    ensures EffectOn(snapshot, manifest).Some?
       <==> || manifest in snapshot.spec.manages
            || exists watch | watch in snapshot.spec.watches ::
                 exists pattern | pattern in Patterns(watch.manifest) :: pattern == "*" || Divides(pattern, manifest)
    ensures manifest in registry && ValidPath(manifest) ==>
              (IsCandidate(snapshot, registry, manifest) <==> EffectOn(snapshot, manifest).Some?)
  {
    var watches := set watch | watch in snapshot.spec.watches && SelectorMatches(watch.manifest, manifest) ::
      NormalizedPaths(watch.paths);
    forall watch | watch in snapshot.spec.watches
      ensures SelectorMatches(watch.manifest, manifest) <==>
              exists pattern | pattern in Patterns(watch.manifest) :: pattern == "*" || Divides(pattern, manifest)
      ensures SelectorMatches(watch.manifest, manifest) ==> NormalizedPaths(watch.paths) in watches
      ensures manifest in registry && ValidPath(manifest) ==>
                (SelectorMatches(watch.manifest, manifest) <==> SomeExpands(Patterns(watch.manifest), registry, manifest))
    {
      SelectorPatterns(watch.manifest, registry, manifest);
    }
    assert watches != {} ==> exists watch :: watch in snapshot.spec.watches && SelectorMatches(watch.manifest, manifest);
  }

  /** And only Manifests are visited on which one of the documents has an effect; if both run
      in one revision, only if the effects differ. */
  lemma AffectedHasEffect(before: Option<Snapshot>, after: Option<Snapshot>, registry: seq<string>, manifest: string)
    requires Affected(before, after, registry, manifest)
    ensures (before.Some? && EffectOn(before.value, manifest).Some?) || (after.Some? && EffectOn(after.value, manifest).Some?)
    ensures before.Some? && after.Some? && before.value.revision == after.value.revision ==>
              EffectOn(before.value, manifest) != EffectOn(after.value, manifest)
  {
    hide EffectOn, IsCandidate;
  }

  lemma SelectorPatterns(selector: ManifestSelector, registry: seq<string>, manifest: string)
    ensures SelectorMatches(selector, manifest)
       <==> exists pattern | pattern in Patterns(selector) :: pattern == "*" || Divides(pattern, manifest)
    ensures manifest in registry && ValidPath(manifest) ==>
              (SelectorMatches(selector, manifest) <==> SomeExpands(Patterns(selector), registry, manifest))
  {
    hide PathMatches, Divides, ValidPath;
    forall pattern ensures PathMatches(pattern, manifest) <==> Divides(pattern, manifest) {
      MatchesIfDivides(pattern, manifest);
    }
    if selector.One? {
      assert Patterns(selector) == [selector.pattern] && selector.pattern in Patterns(selector);
    }
    assert SelectorMatches(selector, manifest)
      <==> exists pattern | pattern in Patterns(selector) :: ResourcePathMatches(pattern, manifest);
    forall pattern ensures ResourcePathMatches(pattern, manifest) <==> pattern == "*" || Divides(pattern, manifest) {
    }
    if manifest in registry && ValidPath(manifest) {
      forall pattern | pattern in Patterns(selector)
        ensures ResourcePathMatches(pattern, manifest) <==> Expands(pattern, registry, manifest)
      {
        if '*' !in pattern {
          ExactSelector(pattern, manifest);
        }
      }
    }
  }

  lemma UnaffectedRowsAgree(before: Option<Driver>, after: Option<Driver>, registry: seq<string>, resource: Resource)
    requires resource.Manifest() in registry
    requires !Affected(SnapshotOf(before), SnapshotOf(after), registry, resource.Manifest())
    ensures before.Some? && DriverMatches(before.value, resource) <==> after.Some? && DriverMatches(after.value, resource)
    ensures before.Some? && DriverMatches(before.value, resource) ==> before.value.revision == after.value.revision
  {
    var s, t := SnapshotOf(before), SnapshotOf(after);
    if s.Some? {
      EffectDecides(s.value, resource);
      if SpecMatches(s.value.spec, resource) {
        MatchingIsCandidate(s.value, registry, resource);
      }
    }
    if t.Some? {
      EffectDecides(t.value, resource);
      if SpecMatches(t.value.spec, resource) {
        MatchingIsCandidate(t.value, registry, resource);
      }
    }
  }

  /** On one row: updating one Driver's entry is recomputing all of them. */
  lemma UpdateRowIsReobserve(drivers: map<string, Driver>, d: string, after: Option<Driver>, resource: Resource)
    requires Observed(drivers, resource)
    ensures UpdateRow(d, after, resource) == Reobserve(Replace(drivers, d, after), resource)
  {
    hide DriverMatches, Watches, Manages;
    var drivers' := Replace(drivers, d, after);
    ExpectedIsMatching(drivers, resource);
    ExpectedIsMatching(drivers', resource);
    var left, right := UpdateRow(d, after, resource), Reobserve(drivers', resource);
    assert left.desired.observed == right.desired.observed;
    assert left.status.observed == right.status.observed;
  }

  /** Incremental equals full scan: starting from up-to-date rows, visiting only the
      affected partitions gives on every row what `enqueue_if_drifted` would give on it
      with the new table of Drivers. */
  lemma IncrementalEqualsFullScan(rows: map<string, Resource>, registry: seq<string>, drivers: map<string, Driver>,
                                  d: string,
                                  after: Option<Driver>, updated: map<string, Resource>)
    requires forall p | p in rows :: rows[p].Manifest() in registry && Observed(drivers, rows[p])
    requires updated.Keys == rows.Keys
    requires forall p | p in rows ::
               updated[p] == if Affected(SnapshotOf(Lookup(drivers, d)), SnapshotOf(after), registry, rows[p].Manifest())
               then UpdateRow(d, after, rows[p]) else rows[p]
    ensures updated == map p | p in rows :: Reobserve(Replace(drivers, d, after), rows[p])
    ensures forall p | p in updated :: Observed(Replace(drivers, d, after), updated[p])
  {
    var drivers' := Replace(drivers, d, after);
    hide Affected, Reobserve, Observed, UpdateRow;
    forall p | p in rows
      ensures updated[p] == Reobserve(drivers', rows[p]) && Observed(drivers', updated[p])
    {
      if Affected(SnapshotOf(Lookup(drivers, d)), SnapshotOf(after), registry, rows[p].Manifest()) {
        UpdateRowIsReobserve(drivers, d, after, rows[p]);
      } else {
        UnaffectedRowIsUpToDate(drivers, d, after, registry, rows[p]);
      }
      ReobserveObserved(drivers', rows[p]);
    }
  }

  lemma UnaffectedRowIsUpToDate(drivers: map<string, Driver>, d: string, after: Option<Driver>, registry: seq<string>,
                                resource: Resource)
    requires resource.Manifest() in registry && Observed(drivers, resource)
    requires !Affected(SnapshotOf(Lookup(drivers, d)), SnapshotOf(after), registry, resource.Manifest())
    ensures Reobserve(Replace(drivers, d, after), resource) == resource
  {
    hide Affected, Watches, DriverMatches, Manages;
    var drivers' := Replace(drivers, d, after);
    UnaffectedRowsAgree(Lookup(drivers, d), after, registry, resource);
    ExpectedIsMatching(drivers, resource);
    ExpectedIsMatching(drivers', resource);
    assert Expected(drivers', resource) == Expected(drivers, resource);
    ReobserveObserved(drivers', resource);
  }

  // ---- Manifests that are not registered ----

  /** What the update of the affected partitions does to a row is what a full scan does. */
  ghost predicate Agrees(drivers: map<string, Driver>, d: string, after: Option<Driver>, registry: seq<string>,
                         resource: Resource) {
    (if Affected(SnapshotOf(Lookup(drivers, d)), SnapshotOf(after), registry, resource.Manifest())
     then UpdateRow(d, after, resource) else resource)
    == Reobserve(Replace(drivers, d, after), resource)
  }

  /** The specification speaks of the Manifest by name, not by a pattern. */
  predicate Names(snapshot: Snapshot, manifest: string) {
    manifest in snapshot.spec.manages || exists watch | watch in snapshot.spec.watches :: manifest in Patterns(watch.manifest)
  }

  predicate Selects(driver: Option<Driver>, resource: Resource) {
    driver.Some? && DriverMatches(driver.value, resource)
  }

  lemma PathHasNoStar(path: string)
    requires ValidPath(path)
    ensures '*' !in path
  {
    forall segment | segment in Segments(path) ensures '*' !in segment {
      forall index | 0 <= index < |segment| ensures segment[index] != '*' {
        assert PlainByte(segment, index);
      }
    }
    CharacterFromSegment(path[1..], '*');
    assert path == [path[0]] + path[1..];
  }

  lemma {:induction false} CharacterFromSegment(s: string, c: char)
    requires c != '/' && forall segment | segment in Split(s) :: c !in segment
    ensures c !in s
  {
    if s != "" {
      var rest := Split(s[1..]);
      if s[0] == '/' {
        assert Split(s) == [""] + rest;
      } else {
        assert Split(s) == [[s[0]] + rest[0]] + rest[1..];
        assert [s[0]] + rest[0] in Split(s);
        assert s[0] in [s[0]] + rest[0];
        assert forall other | other in rest[0] :: other in [s[0]] + rest[0];
      }
      assert forall segment | segment in rest :: segment == rest[0] || segment in Split(s);
      CharacterFromSegment(s[1..], c);
      assert s == [s[0]] + s[1..];
    }
  }

  /** An unregistered Manifest is a candidate exactly if it is named. */
  lemma CandidateIsNamed(snapshot: Snapshot, registry: seq<string>, manifest: string)
    requires manifest !in registry && ValidPath(manifest)
    ensures IsCandidate(snapshot, registry, manifest) <==> Names(snapshot, manifest)
    ensures Names(snapshot, manifest) ==> EffectOn(snapshot, manifest).Some?
  {
    PathHasNoStar(manifest);
    if Names(snapshot, manifest) && manifest !in snapshot.spec.manages {
      var watch :| watch in snapshot.spec.watches && manifest in Patterns(watch.manifest);
      ExactSelector(manifest, manifest);
      assert Expands(manifest, registry, manifest);
      assert SomeExpands(Patterns(watch.manifest), registry, manifest);
      assert SelectorMatches(watch.manifest, manifest);
      var watches := set w | w in snapshot.spec.watches && SelectorMatches(w.manifest, manifest) :: NormalizedPaths(w.paths);
      assert NormalizedPaths(watch.paths) in watches;
    }
  }

  /** The two documents select the row alike, in the same revision if they do. */
  predicate SelectAlike(before: Option<Driver>, after: Option<Driver>, resource: Resource) {
    && (Selects(before, resource) <==> Selects(after, resource))
    && (Selects(after, resource) ==> before.value.revision == after.value.revision)
  }

  lemma FullScanChanges(drivers: map<string, Driver>, d: string, after: Option<Driver>, resource: Resource)
    requires Observed(drivers, resource)
    ensures var before := Lookup(drivers, d);
            Reobserve(Replace(drivers, d, after), resource) == resource <==> SelectAlike(before, after, resource)
  {
    hide DriverMatches;
    var drivers' := Replace(drivers, d, after);
    ExpectedIsMatching(drivers, resource);
    ExpectedIsMatching(drivers', resource);
    ReobserveObserved(drivers', resource);
    var before := Lookup(drivers, d);
    if SelectAlike(before, after, resource) {
      assert Expected(drivers', resource) == Expected(drivers, resource);
    } else {
      assert d in Expected(drivers, resource) <==> Selects(before, resource);
      assert d in Expected(drivers', resource) <==> Selects(after, resource);
    }
  }

  /** A Manifest that is named and yet not affected: both documents do the same to it. */
  lemma UnaffectedNamedAlike(before: Option<Driver>, after: Option<Driver>, registry: seq<string>, resource: Resource)
    requires resource.Manifest() !in registry && ValidPath(resource.Manifest())
    requires var s, t := SnapshotOf(before), SnapshotOf(after);
             && !Affected(s, t, registry, resource.Manifest())
             && ((s.Some? && Names(s.value, resource.Manifest())) || (t.Some? && Names(t.value, resource.Manifest())))
    ensures SelectAlike(before, after, resource)
  {
    hide IsCandidate, EffectOn, Names, ValidPath;
    var s, t := SnapshotOf(before), SnapshotOf(after);
    if s.Some? {
      CandidateIsNamed(s.value, registry, resource.Manifest());
      EffectDecides(s.value, resource);
    }
    if t.Some? {
      CandidateIsNamed(t.value, registry, resource.Manifest());
      EffectDecides(t.value, resource);
    }
  }

  /** Where incremental and full scan part: a wildcard is expanded to registered Manifests
      only. On a row with a Manifest nobody registered they agree exactly if both documents
      select the row alike, or one of them names the Manifest. */
  lemma UnregisteredExactly(drivers: map<string, Driver>, d: string, after: Option<Driver>, registry: seq<string>,
                            resource: Resource)
    requires Observed(drivers, resource) && resource.Manifest() !in registry && ValidPath(resource.Manifest())
    ensures var before := Lookup(drivers, d);
            var s, t := SnapshotOf(before), SnapshotOf(after);
            Agrees(drivers, d, after, registry, resource) <==>
            || SelectAlike(before, after, resource)
            || (s.Some? && Names(s.value, resource.Manifest()))
            || (t.Some? && Names(t.value, resource.Manifest()))
  {
    hide Reobserve, UpdateRow, Observed, IsCandidate, EffectOn, Names, SelectAlike, ValidPath;
    var before := Lookup(drivers, d);
    var s, t := SnapshotOf(before), SnapshotOf(after);
    UpdateRowIsReobserve(drivers, d, after, resource);
    FullScanChanges(drivers, d, after, resource);
    if s.Some? {
      CandidateIsNamed(s.value, registry, resource.Manifest());
    }
    if t.Some? {
      CandidateIsNamed(t.value, registry, resource.Manifest());
    }
    var named := (s.Some? && Names(s.value, resource.Manifest())) || (t.Some? && Names(t.value, resource.Manifest()));
    if !Affected(s, t, registry, resource.Manifest()) && named {
      UnaffectedNamedAlike(before, after, registry, resource);
    }
  }
}
