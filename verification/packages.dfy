/** Expanding a package (crates/kas-core/src/lib.rs).

    Every relative path and reference becomes absolute, inside the sandbox of the
    package. A package means something if every definition resolves and no two of them
    clash; otherwise the first thing that is wrong is reported. */
module Packages {
  import opened Wrappers
  import opened Paths
  import opened Resources

  const MANIFEST_MANIFEST := "/packages/kas/manifest/manifest"
  const DRIVER_MANIFEST := "/packages/kas/driver/manifest"
  const RELATION_MANIFEST := "/packages/kas/relation/manifest"
  const LINK_MANIFEST := "/packages/kas/link/manifest"
  const RUN_MANIFEST := "/packages/kas/run/manifest"
  const ROLE_MANIFEST := "/packages/kas/role/manifest"
  const CREDENTIAL_MANIFEST := "/packages/kas/credential/manifest"

  datatype RoleRule = RoleRule(manifests: seq<string>, paths: seq<string>)

  /** The references a specification holds; everything else in it stays as it is. */
  datatype Spec =
    | DriverDoc(serviceAccount: string, manages: seq<string>, watches: seq<DriverWatch>)
    | RelationDoc(sources: seq<DriverWatch>, targets: seq<DriverWatch>)
    | LinkDoc(relation: string, source: string, target: string)
    | RunDoc(resource: string, action: string, driver: Option<string>)
    | RoleDoc(rules: seq<RoleRule>)
    | CredentialDoc(subject: string)
    | OtherDoc(content: Json)

  datatype Definition = Definition(path: string, manifest: string, entrypoint: Option<string>, spec: Spec)

  datatype Package = Package(path: string, manifest: string, patterns: seq<string>, resources: seq<Definition>)

  datatype Planned = Planned(path: string, manifest: string, spec: Spec)

  datatype Expansion = Expansion(
    packagePath: string, patterns: seq<string>, manifest: string, resources: seq<Planned>, owners: map<string, string>)

  datatype DefinitionError =
    | InvalidManifestPath
    | InvalidResourcePath(path: string)
    | InvalidResourceSpec
    | DuplicateResourcePath(path: string)
    | NestedManifest(path: string)
    | MultipleDrivers
    | InvalidEntrypoint

  datatype Result = Ok(value: Expansion) | Err(error: DefinitionError)

  // ---- One reference ----

  /** `resolve_package_resource_path`. */
  function ResolveBelow(root: string, path: string): Option<string> {
    if !WellFormedRelative(path, false) then None
    else
      var resolved := root + "/" + path[2..];
      if ValidPath(resolved) then Some(resolved) else None
  }

  /** `resolve_reference_path`. */
  function ResolveReference(root: string, manifest: string, path: string): Option<string> {
    if path == "." then Some(manifest)
    else if StartsRelative(path) then ResolveBelow(root, path)
    else if ValidPath(path) then Some(path)
    else None
  }

  /** `resolve_package_pattern`. */
  function ResolvePatternBelow(root: string, pattern: string): Option<string> {
    if !WellFormedRelative(pattern, true) then None
    else
      var resolved := root + "/" + pattern[2..];
      if ValidPattern(resolved) then Some(resolved) else None
  }

  /** `resolve_pattern_reference`. */
  function ResolvePattern(root: string, manifest: string, pattern: string): Option<string> {
    if pattern == "*" then Some(pattern)
    else if pattern == "." then Some(manifest)
    else
      var resolved := if StartsRelative(pattern) then ResolvePatternBelow(root, pattern) else Some(pattern);
      if resolved.Some? && ValidPattern(resolved.value) then resolved else None
  }

  /** Resolving what was resolved changes nothing. */
  lemma ResolveReferenceTwice(root: string, manifest: string, path: string)
    requires ValidPath(manifest) && ResolveReference(root, manifest, path).Some?
    ensures var resolved := ResolveReference(root, manifest, path).value;
            ValidPath(resolved) && ResolveReference(root, manifest, resolved) == Some(resolved)
  {
  }

  lemma ResolvePatternTwice(root: string, manifest: string, pattern: string)
    requires ValidPath(manifest) && ResolvePattern(root, manifest, pattern).Some?
    ensures var resolved := ResolvePattern(root, manifest, pattern).value;
            (resolved == "*" || ValidPattern(resolved)) && ResolvePattern(root, manifest, resolved) == Some(resolved)
  {
  }

  // ---- Lists of references ----

  predicate ReferencesResolve(root: string, manifest: string, list: seq<string>, resolved: seq<string>) {
    |resolved| == |list| && forall k | 0 <= k < |list| :: ResolveReference(root, manifest, list[k]) == Some(resolved[k])
  }

  predicate PatternsResolve(root: string, manifest: string, list: seq<string>, resolved: seq<string>) {
    |resolved| == |list| && forall k | 0 <= k < |list| :: ResolvePattern(root, manifest, list[k]) == Some(resolved[k])
  }

  predicate SelectorResolves(root: string, manifest: string, selector: ManifestSelector, resolved: ManifestSelector) {
    match selector
    case One(pattern) => resolved.One? && ResolvePattern(root, manifest, pattern) == Some(resolved.pattern)
    case Many(patterns) => resolved.Many? && PatternsResolve(root, manifest, patterns, resolved.patterns)
  }

  predicate WatchResolves(root: string, manifest: string, watch: DriverWatch, resolved: DriverWatch) {
    && SelectorResolves(root, manifest, watch.manifest, resolved.manifest)
    && PatternsResolve(root, manifest, watch.paths, resolved.paths)
  }

  predicate WatchesResolve(root: string, manifest: string, list: seq<DriverWatch>, resolved: seq<DriverWatch>) {
    |resolved| == |list| && forall k | 0 <= k < |list| :: WatchResolves(root, manifest, list[k], resolved[k])
  }

  predicate RuleResolves(root: string, manifest: string, rule: RoleRule, resolved: RoleRule) {
    PatternsResolve(root, manifest, rule.manifests, resolved.manifests) && PatternsResolve(root, manifest, rule.paths, resolved.paths)
  }

  predicate RulesResolve(root: string, manifest: string, list: seq<RoleRule>, resolved: seq<RoleRule>) {
    |resolved| == |list| && forall k | 0 <= k < |list| :: RuleResolves(root, manifest, list[k], resolved[k])
  }

  /** `resolve_embedded_resource_references`: what a specification of this Manifest resolves to. */
  predicate SpecResolves(root: string, manifest: string, kind: string, spec: Spec, resolved: Spec) {
    if kind == DRIVER_MANIFEST then
      && spec.DriverDoc? && resolved.DriverDoc?
      && ResolveReference(root, manifest, spec.serviceAccount) == Some(resolved.serviceAccount)
      && (if spec.manages == [] then resolved.manages == [manifest] else ReferencesResolve(root, manifest, spec.manages, resolved.manages))
      && WatchesResolve(root, manifest, spec.watches, resolved.watches)
    else if kind == RELATION_MANIFEST then
      && spec.RelationDoc? && resolved.RelationDoc?
      && WatchesResolve(root, manifest, spec.sources, resolved.sources) && WatchesResolve(root, manifest, spec.targets, resolved.targets)
    else if kind == LINK_MANIFEST then
      && spec.LinkDoc? && resolved.LinkDoc?
      && ResolveReference(root, manifest, spec.relation) == Some(resolved.relation)
      && ResolveReference(root, manifest, spec.source) == Some(resolved.source)
      && ResolveReference(root, manifest, spec.target) == Some(resolved.target)
    else if kind == RUN_MANIFEST then
      && spec.RunDoc? && resolved.RunDoc?
      && ResolveReference(root, manifest, spec.resource) == Some(resolved.resource)
      && ResolveReference(root, manifest, spec.action) == Some(resolved.action)
      && (if spec.driver.None? then resolved.driver.None?
          else resolved.driver.Some? && ResolveReference(root, manifest, spec.driver.value) == resolved.driver)
    else if kind == ROLE_MANIFEST then
      spec.RoleDoc? && resolved.RoleDoc? && RulesResolve(root, manifest, spec.rules, resolved.rules)
    else if kind == CREDENTIAL_MANIFEST then
      spec.CredentialDoc? && resolved.CredentialDoc? && ResolveReference(root, manifest, spec.subject) == Some(resolved.subject)
    else resolved == spec
  }

  // ---- Normal forms ----

  lemma PatternsTwice(root: string, manifest: string, list: seq<string>, resolved: seq<string>)
    requires ValidPath(manifest) && PatternsResolve(root, manifest, list, resolved)
    ensures PatternsResolve(root, manifest, resolved, resolved)
  {
  }

  lemma ReferencesTwice(root: string, manifest: string, list: seq<string>, resolved: seq<string>)
    requires ValidPath(manifest) && ReferencesResolve(root, manifest, list, resolved)
    ensures ReferencesResolve(root, manifest, resolved, resolved)
  {
  }

  lemma WatchTwice(root: string, manifest: string, watch: DriverWatch, resolved: DriverWatch)
    requires ValidPath(manifest) && WatchResolves(root, manifest, watch, resolved)
    ensures WatchResolves(root, manifest, resolved, resolved)
  {
    hide ResolvePattern;
    match watch.manifest {
      case One(pattern) => ResolvePatternTwice(root, manifest, pattern);
      case Many(patterns) => PatternsTwice(root, manifest, patterns, resolved.manifest.patterns);
    }
    PatternsTwice(root, manifest, watch.paths, resolved.paths);
  }

  lemma WatchesTwice(root: string, manifest: string, list: seq<DriverWatch>, resolved: seq<DriverWatch>)
    requires ValidPath(manifest) && WatchesResolve(root, manifest, list, resolved)
    ensures WatchesResolve(root, manifest, resolved, resolved)
  {
    hide WatchResolves;
    forall k | 0 <= k < |list| ensures WatchResolves(root, manifest, resolved[k], resolved[k]) {
      WatchTwice(root, manifest, list[k], resolved[k]);
    }
  }

  lemma RulesTwice(root: string, manifest: string, list: seq<RoleRule>, resolved: seq<RoleRule>)
    requires ValidPath(manifest) && RulesResolve(root, manifest, list, resolved)
    ensures RulesResolve(root, manifest, resolved, resolved)
  {
    forall k | 0 <= k < |list| ensures RuleResolves(root, manifest, resolved[k], resolved[k]) {
      assert RuleResolves(root, manifest, list[k], resolved[k]);
      PatternsTwice(root, manifest, list[k].manifests, resolved[k].manifests);
      PatternsTwice(root, manifest, list[k].paths, resolved[k].paths);
    }
  }

  /** Resolving the references of a resolved specification changes nothing. */
  lemma SpecIsNormalForm(root: string, manifest: string, kind: string, spec: Spec, resolved: Spec)
    requires ValidPath(manifest) && SpecResolves(root, manifest, kind, spec, resolved)
    ensures SpecResolves(root, manifest, kind, resolved, resolved)
  {
    hide ResolveReference, WatchesResolve, RulesResolve;
    if kind == DRIVER_MANIFEST {
      ResolveReferenceTwice(root, manifest, spec.serviceAccount);
      ManifestIsItself(root, manifest);
      if spec.manages != [] {
        ReferencesTwice(root, manifest, spec.manages, resolved.manages);
      }
      WatchesTwice(root, manifest, spec.watches, resolved.watches);
    } else if kind == RELATION_MANIFEST {
      WatchesTwice(root, manifest, spec.sources, resolved.sources);
      WatchesTwice(root, manifest, spec.targets, resolved.targets);
    } else if kind == LINK_MANIFEST {
      ResolveReferenceTwice(root, manifest, spec.relation);
      ResolveReferenceTwice(root, manifest, spec.source);
      ResolveReferenceTwice(root, manifest, spec.target);
    } else if kind == RUN_MANIFEST {
      ResolveReferenceTwice(root, manifest, spec.resource);
      ResolveReferenceTwice(root, manifest, spec.action);
      if spec.driver.Some? {
        ResolveReferenceTwice(root, manifest, spec.driver.value);
      }
    } else if kind == ROLE_MANIFEST {
      RulesTwice(root, manifest, spec.rules, resolved.rules);
    } else if kind == CREDENTIAL_MANIFEST {
      ResolveReferenceTwice(root, manifest, spec.subject);
    }
  }

  lemma ManifestIsItself(root: string, manifest: string)
    requires ValidPath(manifest)
    ensures ResolveReference(root, manifest, manifest) == Some(manifest)
  {
  }

  // ---- The first reference that does not resolve ----

  datatype Reference = Exact(text: string) | Fit(text: string)

  predicate Fine(root: string, manifest: string, reference: Reference) {
    match reference
    case Exact(text) => ResolveReference(root, manifest, text).Some?
    case Fit(text) => ResolvePattern(root, manifest, text).Some?
  }

  /** The text reported for a pattern: resolved, if only the resolved pattern is bad. */
  function BlamedPattern(root: string, pattern: string): string {
    if WellFormedRelative(pattern, true) then root + "/" + pattern[2..] else pattern
  }

  function Blamed(root: string, reference: Reference): string {
    if reference.Exact? then reference.text else BlamedPattern(root, reference.text)
  }

  predicate AllFine(root: string, manifest: string, references: seq<Reference>) {
    forall k | 0 <= k < |references| :: Fine(root, manifest, references[k])
  }

  predicate FirstBad(root: string, manifest: string, references: seq<Reference>, wrong: string) {
    exists k | 0 <= k < |references| ::
      !Fine(root, manifest, references[k]) && wrong == Blamed(root, references[k]) && AllFine(root, manifest, references[..k])
  }

  lemma FirstBadWithin(root: string, manifest: string, before: seq<Reference>, bad: seq<Reference>, rest: seq<Reference>,
                       wrong: string)
    requires AllFine(root, manifest, before) && FirstBad(root, manifest, bad, wrong)
    ensures FirstBad(root, manifest, before + bad + rest, wrong)
  {
    hide Fine, Blamed;
    var k :| 0 <= k < |bad| && !Fine(root, manifest, bad[k]) && wrong == Blamed(root, bad[k]) && AllFine(root, manifest, bad[..k]);
    var all := before + bad + rest;
    var n := |before| + k;
    assert all[n] == bad[k] && all[..n] == before + bad[..k];
    AllFineConcat(root, manifest, before, bad[..k]);
  }

  lemma AllFineConcat(root: string, manifest: string, a: seq<Reference>, b: seq<Reference>)
    requires AllFine(root, manifest, a) && AllFine(root, manifest, b)
    ensures AllFine(root, manifest, a + b)
  {
    hide Fine;
  }

  function Exacts(list: seq<string>): seq<Reference> {
    seq(|list|, k requires 0 <= k < |list| => Exact(list[k]))
  }

  function Fits(list: seq<string>): seq<Reference> {
    seq(|list|, k requires 0 <= k < |list| => Fit(list[k]))
  }

  function InWatch(watch: DriverWatch): seq<Reference> {
    (match watch.manifest case One(pattern) => [Fit(pattern)] case Many(patterns) => Fits(patterns)) + Fits(watch.paths)
  }

  function Flatten(parts: seq<seq<Reference>>): seq<Reference> {
    if parts == [] then [] else Flatten(parts[..|parts| - 1]) + parts[|parts| - 1]
  }

  function PerWatch(list: seq<DriverWatch>): seq<seq<Reference>> {
    seq(|list|, k requires 0 <= k < |list| => InWatch(list[k]))
  }

  function InRule(rule: RoleRule): seq<Reference> {
    Fits(rule.manifests) + Fits(rule.paths)
  }

  function PerRule(list: seq<RoleRule>): seq<seq<Reference>> {
    seq(|list|, k requires 0 <= k < |list| => InRule(list[k]))
  }

  function InWatches(list: seq<DriverWatch>): seq<Reference> {
    Flatten(PerWatch(list))
  }

  function InRules(list: seq<RoleRule>): seq<Reference> {
    Flatten(PerRule(list))
  }

  function Listed(driver: Option<string>): seq<string> {
    if driver.Some? then [driver.value] else []
  }

  /** The references of a specification in the order they are resolved, if it is a
      specification for this Manifest at all. */
  function InSpec(kind: string, spec: Spec): Option<seq<Reference>> {
    if kind == DRIVER_MANIFEST then
      if spec.DriverDoc? then Some([Exact(spec.serviceAccount)] + Exacts(spec.manages) + InWatches(spec.watches)) else None
    else if kind == RELATION_MANIFEST then
      if spec.RelationDoc? then Some(InWatches(spec.sources) + InWatches(spec.targets)) else None
    else if kind == LINK_MANIFEST then
      if spec.LinkDoc? then Some(Exacts([spec.relation, spec.source, spec.target])) else None
    else if kind == RUN_MANIFEST then
      if spec.RunDoc? then
        Some(Exacts([spec.resource, spec.action] + Listed(spec.driver)))
      else None
    else if kind == ROLE_MANIFEST then
      if spec.RoleDoc? then Some(InRules(spec.rules)) else None
    else if kind == CREDENTIAL_MANIFEST then
      if spec.CredentialDoc? then Some([Exact(spec.subject)]) else None
    else Some([])
  }

  predicate BlamesSpec(root: string, manifest: string, kind: string, spec: Spec, error: DefinitionError) {
    match InSpec(kind, spec)
    case None => error == InvalidResourceSpec
    case Some(references) => error.InvalidResourcePath? && FirstBad(root, manifest, references, error.path)
  }

  // ---- Resolving lists ----

  method ResolveReferences(root: string, manifest: string, list: seq<string>)
    returns (resolved: Option<seq<string>>, wrong: string)
    ensures resolved.Some? ==> ReferencesResolve(root, manifest, list, resolved.value) && AllFine(root, manifest, Exacts(list))
    ensures resolved.None? ==> forall r :: !ReferencesResolve(root, manifest, list, r)
    ensures resolved.None? ==> FirstBad(root, manifest, Exacts(list), wrong)
  {
    hide ResolveReference;
    wrong := "";
    var done: seq<string> := [];
    for k := 0 to |list|
      invariant |done| == k && forall j | 0 <= j < k :: ResolveReference(root, manifest, list[j]) == Some(done[j])
    {
      var one := ResolveReference(root, manifest, list[k]);
      if one.None? {
        assert !Fine(root, manifest, Exacts(list)[k]);
        return None, list[k];
      }
      done := done + [one.value];
    }
    resolved := Some(done);
  }

  method ResolvePatterns(root: string, manifest: string, list: seq<string>)
    returns (resolved: Option<seq<string>>, wrong: string)
    ensures resolved.Some? ==> PatternsResolve(root, manifest, list, resolved.value) && AllFine(root, manifest, Fits(list))
    ensures resolved.None? ==> forall r :: !PatternsResolve(root, manifest, list, r)
    ensures resolved.None? ==> FirstBad(root, manifest, Fits(list), wrong)
  {
    hide ResolvePattern, BlamedPattern;
    wrong := "";
    var done: seq<string> := [];
    for k := 0 to |list|
      invariant |done| == k && forall j | 0 <= j < k :: ResolvePattern(root, manifest, list[j]) == Some(done[j])
    {
      var one := ResolvePattern(root, manifest, list[k]);
      if one.None? {
        assert !Fine(root, manifest, Fits(list)[k]);
        return None, BlamedPattern(root, list[k]);
      }
      done := done + [one.value];
    }
    resolved := Some(done);
  }

  method ResolveSelector(root: string, manifest: string, selector: ManifestSelector)
    returns (resolved: Option<ManifestSelector>, wrong: string)
    ensures resolved.Some? ==> SelectorResolves(root, manifest, selector, resolved.value)
    ensures resolved.None? ==> forall r :: !SelectorResolves(root, manifest, selector, r)
    ensures var references := InWatch(DriverWatch(selector, []));
            if resolved.Some? then AllFine(root, manifest, references) else FirstBad(root, manifest, references, wrong)
  {
    hide ResolvePattern, PatternsResolve, Fits, FirstBad, BlamedPattern;
    assert Fits([]) == [] by { FitsNothing(); }
    wrong := "";
    match selector {
      case One(pattern) =>
        assert InWatch(DriverWatch(selector, [])) == [Fit(pattern)];
        var one := ResolvePattern(root, manifest, pattern);
        if one.None? {
          wrong := BlamedPattern(root, pattern);
          OneBad(root, manifest, Fit(pattern));
          return None, wrong;
        }
        resolved := Some(One(one.value));
      case Many(patterns) =>
        assert InWatch(DriverWatch(selector, [])) == Fits(patterns);
        var many;
        many, wrong := ResolvePatterns(root, manifest, patterns);
        resolved := if many.None? then None else Some(Many(many.value));
    }
  }

  lemma FitsNothing()
    ensures Fits([]) == []
  {
  }

  lemma OneBad(root: string, manifest: string, reference: Reference)
    requires !Fine(root, manifest, reference)
    ensures FirstBad(root, manifest, [reference], Blamed(root, reference))
  {
    hide Fine, Blamed;
    assert [reference][0] == reference && [reference][..0] == [];
  }

  method ResolveWatch(root: string, manifest: string, watch: DriverWatch)
    returns (resolved: Option<DriverWatch>, wrong: string)
    ensures resolved.Some? ==> WatchResolves(root, manifest, watch, resolved.value) && AllFine(root, manifest, InWatch(watch))
    ensures resolved.None? ==> forall r :: !WatchResolves(root, manifest, watch, r)
    ensures resolved.None? ==> FirstBad(root, manifest, InWatch(watch), wrong)
  {
    hide SelectorResolves, PatternsResolve, FirstBad, AllFine, Fits;
    ghost var first := InWatch(DriverWatch(watch.manifest, []));
    assert InWatch(watch) == first + Fits(watch.paths) by { FitsNothing(); }
    assert InWatch(watch) == [] + first + Fits(watch.paths) && InWatch(watch) == first + Fits(watch.paths) + [];
    NoneBad(root, manifest);
    var selector, paths;
    selector, wrong := ResolveSelector(root, manifest, watch.manifest);
    if selector.None? {
      FirstBadWithin(root, manifest, [], first, Fits(watch.paths), wrong);
      return None, wrong;
    }
    paths, wrong := ResolvePatterns(root, manifest, watch.paths);
    if paths.None? {
      FirstBadWithin(root, manifest, first, Fits(watch.paths), [], wrong);
      return None, wrong;
    }
    AllFineConcat(root, manifest, first, Fits(watch.paths));
    resolved := Some(DriverWatch(selector.value, paths.value));
  }

  lemma NoneBad(root: string, manifest: string)
    ensures AllFine(root, manifest, [])
  {
  }

  lemma {:induction false} FlattenPrefix(parts: seq<seq<Reference>>, k: nat)
    requires k <= |parts|
    ensures Flatten(parts[..k]) <= Flatten(parts)
  {
    if k == |parts| {
      assert parts[..k] == parts;
    } else {
      var front := parts[..|parts| - 1];
      FlattenPrefix(front, k);
      assert front[..k] == parts[..k];
    }
  }

  /** Going through the parts in order, up to the first bad reference in one of them. */
  lemma FlattenStep(root: string, manifest: string, parts: seq<seq<Reference>>, k: nat, wrong: string)
    requires k < |parts| && AllFine(root, manifest, Flatten(parts[..k]))
    ensures AllFine(root, manifest, parts[k]) ==> AllFine(root, manifest, Flatten(parts[..k + 1]))
    ensures FirstBad(root, manifest, parts[k], wrong) ==> FirstBad(root, manifest, Flatten(parts), wrong)
  {
    hide AllFine, FirstBad;
    assert parts[..k + 1][..k] == parts[..k];
    assert Flatten(parts[..k + 1]) == Flatten(parts[..k]) + parts[k];
    if AllFine(root, manifest, parts[k]) {
      AllFineConcat(root, manifest, Flatten(parts[..k]), parts[k]);
    }
    if FirstBad(root, manifest, parts[k], wrong) {
      FlattenPrefix(parts, k + 1);
      var rest := Flatten(parts)[|Flatten(parts[..k + 1])|..];
      assert Flatten(parts) == Flatten(parts[..k]) + parts[k] + rest;
      FirstBadWithin(root, manifest, Flatten(parts[..k]), parts[k], rest, wrong);
    }
  }

  method ResolveWatches(root: string, manifest: string, list: seq<DriverWatch>)
    returns (resolved: Option<seq<DriverWatch>>, wrong: string)
    ensures resolved.Some? ==> WatchesResolve(root, manifest, list, resolved.value) && AllFine(root, manifest, InWatches(list))
    ensures resolved.None? ==> forall r :: !WatchesResolve(root, manifest, list, r)
    ensures resolved.None? ==> FirstBad(root, manifest, InWatches(list), wrong)
  {
    hide WatchResolves, InWatch, FirstBad, AllFine;
    NoneBad(root, manifest);
    wrong := "";
    ghost var parts := PerWatch(list);
    var done: seq<DriverWatch> := [];
    for k := 0 to |list|
      invariant |done| == k && forall j | 0 <= j < k :: WatchResolves(root, manifest, list[j], done[j])
      invariant AllFine(root, manifest, Flatten(parts[..k]))
    {
      var one;
      one, wrong := ResolveWatch(root, manifest, list[k]);
      FlattenStep(root, manifest, parts, k, wrong);
      if one.None? {
        return None, wrong;
      }
      done := done + [one.value];
    }
    assert parts[..|list|] == parts;
    resolved := Some(done);
  }

  method ResolveRule(root: string, manifest: string, rule: RoleRule)
    returns (resolved: Option<RoleRule>, wrong: string)
    ensures resolved.Some? ==> RuleResolves(root, manifest, rule, resolved.value) && AllFine(root, manifest, InRule(rule))
    ensures resolved.None? ==> forall r :: !RuleResolves(root, manifest, rule, r)
    ensures resolved.None? ==> FirstBad(root, manifest, InRule(rule), wrong)
  {
    hide PatternsResolve, FirstBad, AllFine, Fits;
    ghost var references := InRule(rule);
    assert references == [] + Fits(rule.manifests) + Fits(rule.paths) && references == references + [];
    NoneBad(root, manifest);
    var manifests, paths;
    manifests, wrong := ResolvePatterns(root, manifest, rule.manifests);
    if manifests.None? {
      FirstBadWithin(root, manifest, [], Fits(rule.manifests), Fits(rule.paths), wrong);
      return None, wrong;
    }
    paths, wrong := ResolvePatterns(root, manifest, rule.paths);
    if paths.None? {
      FirstBadWithin(root, manifest, Fits(rule.manifests), Fits(rule.paths), [], wrong);
      return None, wrong;
    }
    AllFineConcat(root, manifest, Fits(rule.manifests), Fits(rule.paths));
    resolved := Some(RoleRule(manifests.value, paths.value));
  }

  method ResolveRules(root: string, manifest: string, list: seq<RoleRule>)
    returns (resolved: Option<seq<RoleRule>>, wrong: string)
    ensures resolved.Some? ==> RulesResolve(root, manifest, list, resolved.value) && AllFine(root, manifest, InRules(list))
    ensures resolved.None? ==> forall r :: !RulesResolve(root, manifest, list, r)
    ensures resolved.None? ==> FirstBad(root, manifest, InRules(list), wrong)
  {
    hide RuleResolves, InRule, FirstBad, AllFine;
    NoneBad(root, manifest);
    wrong := "";
    ghost var parts := PerRule(list);
    var done: seq<RoleRule> := [];
    for k := 0 to |list|
      invariant |done| == k && forall j | 0 <= j < k :: RuleResolves(root, manifest, list[j], done[j])
      invariant AllFine(root, manifest, Flatten(parts[..k]))
    {
      var one;
      one, wrong := ResolveRule(root, manifest, list[k]);
      FlattenStep(root, manifest, parts, k, wrong);
      if one.None? {
        return None, wrong;
      }
      done := done + [one.value];
    }
    assert parts[..|list|] == parts;
    resolved := Some(done);
  }

  // ---- Specifications ----

  method ResolveDriverSpec(root: string, manifest: string, spec: Spec) returns (resolved: Option<Spec>, error: DefinitionError)
    requires spec.DriverDoc?
    ensures resolved.Some? ==> SpecResolves(root, manifest, DRIVER_MANIFEST, spec, resolved.value)
    ensures resolved.None? ==> forall r :: !SpecResolves(root, manifest, DRIVER_MANIFEST, spec, r)
    ensures resolved.None? ==> BlamesSpec(root, manifest, DRIVER_MANIFEST, spec, error)
  {
    hide ResolveReference, ReferencesResolve, WatchesResolve, FirstBad, AllFine, Exacts, InWatches;
    ghost var account, manages, watches := [Exact(spec.serviceAccount)], Exacts(spec.manages), InWatches(spec.watches);
    ghost var references := account + manages + watches;
    assert references == [] + account + (manages + watches) && references == references + [];
    NoneBad(root, manifest);
    error := InvalidResourceSpec;
    var serviceAccount := ResolveReference(root, manifest, spec.serviceAccount);
    if serviceAccount.None? {
      OneBad(root, manifest, Exact(spec.serviceAccount));
      FirstBadWithin(root, manifest, [], account, manages + watches, spec.serviceAccount);
      return None, InvalidResourcePath(spec.serviceAccount);
    }
    OneFine(root, manifest, Exact(spec.serviceAccount));
    var managed, wrong := Some([manifest]), "";
    if spec.manages != [] {
      managed, wrong := ResolveReferences(root, manifest, spec.manages);
      if managed.None? {
        FirstBadWithin(root, manifest, account, manages, watches, wrong);
        return None, InvalidResourcePath(wrong);
      }
    } else {
      assert manages == [] by { ExactsNothing(); }
    }
    AllFineConcat(root, manifest, account, manages);
    var watched;
    watched, wrong := ResolveWatches(root, manifest, spec.watches);
    if watched.None? {
      FirstBadWithin(root, manifest, account + manages, watches, [], wrong);
      return None, InvalidResourcePath(wrong);
    }
    resolved := Some(DriverDoc(serviceAccount.value, managed.value, watched.value));
  }

  lemma ExactsNothing()
    ensures Exacts([]) == []
  {
  }

  lemma OneFine(root: string, manifest: string, reference: Reference)
    requires Fine(root, manifest, reference)
    ensures AllFine(root, manifest, [reference])
  {
  }

  method ResolveRelationSpec(root: string, manifest: string, spec: Spec) returns (resolved: Option<Spec>, error: DefinitionError)
    requires spec.RelationDoc?
    ensures resolved.Some? ==> SpecResolves(root, manifest, RELATION_MANIFEST, spec, resolved.value)
    ensures resolved.None? ==> forall r :: !SpecResolves(root, manifest, RELATION_MANIFEST, spec, r)
    ensures resolved.None? ==> BlamesSpec(root, manifest, RELATION_MANIFEST, spec, error)
  {
    hide WatchesResolve, FirstBad, AllFine, InWatches;
    ghost var references := InWatches(spec.sources) + InWatches(spec.targets);
    assert references == [] + InWatches(spec.sources) + InWatches(spec.targets) && references == references + [];
    NoneBad(root, manifest);
    error := InvalidResourceSpec;
    var sources, wrong := ResolveWatches(root, manifest, spec.sources);
    if sources.None? {
      FirstBadWithin(root, manifest, [], InWatches(spec.sources), InWatches(spec.targets), wrong);
      return None, InvalidResourcePath(wrong);
    }
    var targets;
    targets, wrong := ResolveWatches(root, manifest, spec.targets);
    if targets.None? {
      FirstBadWithin(root, manifest, InWatches(spec.sources), InWatches(spec.targets), [], wrong);
      return None, InvalidResourcePath(wrong);
    }
    resolved := Some(RelationDoc(sources.value, targets.value));
  }

  /** A Link and a Run resolve one reference after the other. */
  lemma LinkReferences(root: string, manifest: string, spec: Spec, resolved: Spec)
    requires spec.LinkDoc? && resolved.LinkDoc?
    ensures SpecResolves(root, manifest, LINK_MANIFEST, spec, resolved)
       <==> ReferencesResolve(root, manifest, [spec.relation, spec.source, spec.target],
                              [resolved.relation, resolved.source, resolved.target])
  {
    hide ResolveReference;
    var list, values := [spec.relation, spec.source, spec.target], [resolved.relation, resolved.source, resolved.target];
    assert list[0] == spec.relation && list[1] == spec.source && list[2] == spec.target;
    assert values[0] == resolved.relation && values[1] == resolved.source && values[2] == resolved.target;
  }

  lemma RunReferences(root: string, manifest: string, spec: Spec, resolved: Spec)
    requires spec.RunDoc? && resolved.RunDoc?
    ensures SpecResolves(root, manifest, RUN_MANIFEST, spec, resolved)
       <==> ReferencesResolve(root, manifest, [spec.resource, spec.action] + Listed(spec.driver),
                              [resolved.resource, resolved.action] + Listed(resolved.driver))
  {
    hide ResolveReference;
    var list, values := [spec.resource, spec.action] + Listed(spec.driver), [resolved.resource, resolved.action] + Listed(resolved.driver);
    assert list[0] == spec.resource && list[1] == spec.action && values[0] == resolved.resource && values[1] == resolved.action;
    if spec.driver.Some? && resolved.driver.Some? {
      assert list[2] == spec.driver.value && values[2] == resolved.driver.value;
    }
  }

  method ResolveLinkSpec(root: string, manifest: string, spec: Spec) returns (resolved: Option<Spec>, error: DefinitionError)
    requires spec.LinkDoc?
    ensures resolved.Some? ==> SpecResolves(root, manifest, LINK_MANIFEST, spec, resolved.value)
    ensures resolved.None? ==> forall r :: !SpecResolves(root, manifest, LINK_MANIFEST, spec, r)
    ensures resolved.None? ==> BlamesSpec(root, manifest, LINK_MANIFEST, spec, error)
  {
    hide ResolveReference, SpecResolves, FirstBad, Exacts;
    var ends, wrong := ResolveReferences(root, manifest, [spec.relation, spec.source, spec.target]);
    if ends.None? {
      forall r ensures !SpecResolves(root, manifest, LINK_MANIFEST, spec, r) {
        if SpecResolves(root, manifest, LINK_MANIFEST, spec, r) {
          ResolvesInKind(root, manifest, LINK_MANIFEST, spec, r);
          LinkReferences(root, manifest, spec, r);
        }
      }
      return None, InvalidResourcePath(wrong);
    }
    var link := LinkDoc(ends.value[0], ends.value[1], ends.value[2]);
    LinkReferences(root, manifest, spec, link);
    assert ends.value == [link.relation, link.source, link.target];
    resolved, error := Some(link), InvalidResourceSpec;
  }

  method ResolveRunSpec(root: string, manifest: string, spec: Spec) returns (resolved: Option<Spec>, error: DefinitionError)
    requires spec.RunDoc?
    ensures resolved.Some? ==> SpecResolves(root, manifest, RUN_MANIFEST, spec, resolved.value)
    ensures resolved.None? ==> forall r :: !SpecResolves(root, manifest, RUN_MANIFEST, spec, r)
    ensures resolved.None? ==> BlamesSpec(root, manifest, RUN_MANIFEST, spec, error)
  {
    hide ResolveReference, SpecResolves, FirstBad, Exacts;
    var parts, wrong := ResolveReferences(root, manifest, [spec.resource, spec.action] + Listed(spec.driver));
    if parts.None? {
      forall r ensures !SpecResolves(root, manifest, RUN_MANIFEST, spec, r) {
        if SpecResolves(root, manifest, RUN_MANIFEST, spec, r) {
          ResolvesInKind(root, manifest, RUN_MANIFEST, spec, r);
          RunReferences(root, manifest, spec, r);
        }
      }
      return None, InvalidResourcePath(wrong);
    }
    var run := RunDoc(parts.value[0], parts.value[1], if spec.driver.Some? then Some(parts.value[2]) else None);
    RunReferences(root, manifest, spec, run);
    assert parts.value == [run.resource, run.action] + Listed(run.driver);
    resolved, error := Some(run), InvalidResourceSpec;
  }

  lemma ResolvesInKind(root: string, manifest: string, kind: string, spec: Spec, resolved: Spec)
    requires SpecResolves(root, manifest, kind, spec, resolved)
    ensures kind == LINK_MANIFEST ==> resolved.LinkDoc?
    ensures kind == RUN_MANIFEST ==> resolved.RunDoc?
  {
  }

  /** A malformed specification, or the first reference in it that does not resolve. */
  method ResolveSpec(root: string, manifest: string, kind: string, spec: Spec)
    returns (resolved: Option<Spec>, error: DefinitionError)
    ensures resolved.Some? ==> SpecResolves(root, manifest, kind, spec, resolved.value)
    ensures resolved.None? ==> forall r :: !SpecResolves(root, manifest, kind, spec, r)
    ensures resolved.None? ==> BlamesSpec(root, manifest, kind, spec, error)
  {
    hide ResolveReference, ReferencesResolve, WatchesResolve, RulesResolve, FirstBad, InWatches, InRules;
    resolved, error := None, InvalidResourceSpec;
    if kind == DRIVER_MANIFEST {
      if spec.DriverDoc? {
        resolved, error := ResolveDriverSpec(root, manifest, spec);
      }
    } else if kind == RELATION_MANIFEST {
      if spec.RelationDoc? {
        resolved, error := ResolveRelationSpec(root, manifest, spec);
      }
    } else if kind == LINK_MANIFEST {
      if spec.LinkDoc? {
        resolved, error := ResolveLinkSpec(root, manifest, spec);
      }
    } else if kind == RUN_MANIFEST {
      if spec.RunDoc? {
        resolved, error := ResolveRunSpec(root, manifest, spec);
      }
    } else if kind == ROLE_MANIFEST {
      if spec.RoleDoc? {
        var rules, wrong := ResolveRules(root, manifest, spec.rules);
        if rules.None? {
          error := InvalidResourcePath(wrong);
        } else {
          resolved := Some(RoleDoc(rules.value));
        }
      }
    } else if kind == CREDENTIAL_MANIFEST {
      if spec.CredentialDoc? {
        var subject := ResolveReference(root, manifest, spec.subject);
        if subject.None? {
          OneBad(root, manifest, Exact(spec.subject));
          error := InvalidResourcePath(spec.subject);
        } else {
          resolved := Some(CredentialDoc(subject.value));
        }
      }
    } else {
      resolved := Some(spec);
    }
  }

  // ---- Expansion ----

  /** `validate_package_entrypoint`: a path below the package, without detours. */
  predicate EntrypointOk(entrypoint: Option<string>) {
    entrypoint.Some? ==>
      && StartsRelative(entrypoint.value)
      && forall segment | segment in Split(entrypoint.value[2..]) :: segment != "" && segment != "." && segment != ".."
  }

  /** A path pattern the Manifest declares for its instances. */
  function ResolveOwnPattern(root: string, pattern: string): Option<string> {
    if StartsRelative(pattern) then ResolvePatternBelow(root, pattern)
    else if "/packages/kas/" <= root && ValidPattern(pattern) then Some(pattern)
    else None
  }

  predicate OwnPatternsResolve(root: string, list: seq<string>, resolved: seq<string>) {
    |resolved| == |list| && forall k | 0 <= k < |list| :: ResolveOwnPattern(root, list[k]) == Some(resolved[k])
  }

  /** The path and the Manifest of a packaged Resource. */
  predicate IdentityExpands(root: string, manifest: string, definition: Definition, path: string, kind: string) {
    && ResolveBelow(root, definition.path) == Some(path)
    && ResolveReference(root, manifest, definition.manifest) == Some(kind) && kind != MANIFEST_MANIFEST
  }

  predicate DefinitionExpands(root: string, manifest: string, definition: Definition, planned: Planned) {
    && IdentityExpands(root, manifest, definition, planned.path, planned.manifest)
    && EntrypointOk(definition.entrypoint)
    && SpecResolves(root, manifest, planned.manifest, definition.spec, planned.spec)
  }

  predicate DefinitionsExpand(root: string, manifest: string, definitions: seq<Definition>, planned: seq<Planned>) {
    |planned| == |definitions| && forall k | 0 <= k < |definitions| :: DefinitionExpands(root, manifest, definitions[k], planned[k])
  }

  predicate DistinctPaths(root: string, planned: seq<Planned>) {
    && (forall k | 0 <= k < |planned| :: planned[k].path != root)
    && (forall j, k | 0 <= j < k < |planned| :: planned[j].path != planned[k].path)
  }

  predicate OneDriver(planned: seq<Planned>) {
    forall j, k | 0 <= j < k < |planned| :: !(planned[j].manifest == DRIVER_MANIFEST && planned[k].manifest == DRIVER_MANIFEST)
  }

  /** What the package means: its definitions, resolved one by one and in order, if they
      are distinct and at most one of them is a Driver. */
  predicate Expands(package: Package, e: Expansion) {
    && PackageRootOfManifest(package.path) == Some(e.packagePath)
    && OwnPatternsResolve(e.packagePath, package.patterns, e.patterns)
    && (if package.manifest == "." then e.manifest == package.path
        else ResolveReference(e.packagePath, package.path, package.manifest) == Some(e.manifest))
    && DefinitionsExpand(e.packagePath, package.path, package.resources, e.resources)
    && DistinctPaths(package.path, e.resources) && OneDriver(e.resources)
    && e.owners == (map path | path in {package.path} + Taken(e.resources) :: package.path)
  }

  function Taken(planned: seq<Planned>): set<string> {
    set k | 0 <= k < |planned| :: planned[k].path
  }

  // ---- What is reported ----

  predicate BlamesPattern(root: string, list: seq<string>, text: string) {
    exists k | 0 <= k < |list| :: ResolveOwnPattern(root, list[k]).None? && text == BlamedPattern(root, list[k])
                                  && forall j | 0 <= j < k :: ResolveOwnPattern(root, list[j]).Some?
  }

  predicate BlamesIdentity(root: string, manifest: string, definition: Definition, error: DefinitionError) {
    var path, kind := ResolveBelow(root, definition.path), ResolveReference(root, manifest, definition.manifest);
    if path.None? then error == InvalidResourcePath(definition.path)
    else if kind.None? then error == InvalidResourcePath(definition.manifest)
    else kind.value == MANIFEST_MANIFEST && error == NestedManifest(path.value)
  }

  /** The error is about the definition after those planned, all of which are fine. */
  ghost predicate Blames(package: Package, root: string, planned: seq<Planned>, error: DefinitionError) {
    && |planned| < |package.resources|
    && DefinitionsExpand(root, package.path, package.resources[..|planned|], planned)
    && DistinctPaths(package.path, planned) && OneDriver(planned)
    && var definition := package.resources[|planned|];
    (|| BlamesIdentity(root, package.path, definition, error)
     || exists path, kind :: IdentityExpands(root, package.path, definition, path, kind)
                             && BlamesContent(package, root, planned, definition, path, kind, error))
  }

  ghost predicate BlamesContent(package: Package, root: string, planned: seq<Planned>, definition: Definition,
                                path: string, kind: string, error: DefinitionError) {
    var again := path in {package.path} + Taken(planned);
    var second := kind == DRIVER_MANIFEST && exists j | 0 <= j < |planned| :: planned[j].manifest == DRIVER_MANIFEST;
    match error
    case DuplicateResourcePath(text) => again && text == path
    case MultipleDrivers => !again && second
    case InvalidEntrypoint => !again && !second && !EntrypointOk(definition.entrypoint)
    case _ =>
      !again && !second && EntrypointOk(definition.entrypoint) && BlamesSpec(root, package.path, kind, definition.spec, error)
  }

  /** The error reported is the first there is. */
  ghost predicate Reports(package: Package, error: DefinitionError) {
    match PackageRootOfManifest(package.path)
    case None => error == InvalidManifestPath
    case Some(root) =>
      if exists k | 0 <= k < |package.patterns| :: ResolveOwnPattern(root, package.patterns[k]).None? then
        error.InvalidResourcePath? && BlamesPattern(root, package.patterns, error.path)
      else if package.manifest != "." && ResolveReference(root, package.path, package.manifest).None? then
        error == InvalidResourcePath(package.manifest)
      else
        exists planned :: Blames(package, root, planned, error)
  }

  method ResolveOwnPatterns(root: string, list: seq<string>) returns (resolved: Option<seq<string>>, wrong: string)
    ensures resolved.Some? ==> OwnPatternsResolve(root, list, resolved.value)
    ensures resolved.None? ==> forall r :: !OwnPatternsResolve(root, list, r)
    ensures resolved.None? ==> BlamesPattern(root, list, wrong)
  {
    hide ResolveOwnPattern, BlamedPattern;
    wrong := "";
    var done: seq<string> := [];
    for k := 0 to |list|
      invariant |done| == k && forall j | 0 <= j < k :: ResolveOwnPattern(root, list[j]) == Some(done[j])
    {
      var one := ResolveOwnPattern(root, list[k]);
      if one.None? {
        return None, BlamedPattern(root, list[k]);
      }
      done := done + [one.value];
    }
    resolved := Some(done);
  }

  method ExpandIdentity(root: string, manifest: string, definition: Definition)
    returns (identity: Option<(string, string)>, error: DefinitionError)
    ensures identity.Some? ==> IdentityExpands(root, manifest, definition, identity.value.0, identity.value.1)
    ensures identity.None? ==> forall path, kind :: !IdentityExpands(root, manifest, definition, path, kind)
    ensures identity.None? ==> BlamesIdentity(root, manifest, definition, error)
  {
    hide ResolveReference;
    identity, error := None, InvalidResourcePath(definition.path);
    var path := ResolveBelow(root, definition.path);
    if path.None? {
      return;
    }
    var kind := ResolveReference(root, manifest, definition.manifest);
    if kind.None? {
      error := InvalidResourcePath(definition.manifest);
    } else if kind.value == MANIFEST_MANIFEST {
      error := NestedManifest(path.value);
    } else {
      identity := Some((path.value, kind.value));
    }
  }

  /** Expansion succeeds exactly on the packages that mean something, with that meaning;
      otherwise it reports the first thing that is wrong. */
  method Expand(package: Package) returns (result: Result)
    ensures result.Ok? ==> Expands(package, result.value)
    ensures result.Err? ==> (forall e :: !Expands(package, e)) && Reports(package, result.error)
  {
    hide ResolveReference, ResolveOwnPattern, OwnPatternsResolve, IdentityExpands, SpecResolves, EntrypointOk, BlamesPattern,
      BlamesIdentity, DistinctPaths, OneDriver, Taken;
    NothingPlanned(package);
    var root := PackageRootOfManifest(package.path);
    if root.None? {
      return Err(InvalidManifestPath);
    }
    var patterns, wrong := ResolveOwnPatterns(root.value, package.patterns);
    OwnPatternsExactly(root.value, package.patterns, patterns, wrong);
    if patterns.None? {
      return Err(InvalidResourcePath(wrong));
    }
    var kind := if package.manifest == "." then Some(package.path) else ResolveReference(root.value, package.path, package.manifest);
    if kind.None? {
      return Err(InvalidResourcePath(package.manifest));
    }
    var planned: seq<Planned> := [];
    var taken, drivers := {package.path}, 0;
    var owners := map[package.path := package.path];
    for k := 0 to |package.resources|
      invariant DefinitionsExpand(root.value, package.path, package.resources[..k], planned)
      invariant DistinctPaths(package.path, planned) && taken == {package.path} + Taken(planned)
      invariant OneDriver(planned) && drivers <= 1 && (drivers == 1 <==> exists j | 0 <= j < k :: planned[j].manifest == DRIVER_MANIFEST)
      invariant owners == (map path | path in {package.path} + Taken(planned) :: package.path)
    {
      var definition := package.resources[k];
      var identity, error := ExpandIdentity(root.value, package.path, definition);
      if identity.None? {
        NoIdentity(package, root.value, k);
        assert Blames(package, root.value, planned, error);
        return Err(error);
      }
      var (path, resourceKind) := identity.value;
      var duplicate := path in taken;
      if duplicate || (resourceKind == DRIVER_MANIFEST && drivers == 1) {
        RefusedForGood(package, root.value, planned, path, resourceKind, k);
        var refusal := if duplicate then DuplicateResourcePath(path) else MultipleDrivers;
        BlamedContent(package, root.value, planned, path, resourceKind, refusal);
        return Err(refusal);
      }
      if !EntrypointOk(definition.entrypoint) {
        BlamedContent(package, root.value, planned, path, resourceKind, InvalidEntrypoint);
        return Err(InvalidEntrypoint);
      }
      var spec, unresolved := ResolveSpec(root.value, package.path, resourceKind, definition.spec);
      if spec.None? {
        UnresolvedForGood(package, root.value, path, resourceKind, k);
        BlamedContent(package, root.value, planned, path, resourceKind, unresolved);
        return Err(unresolved);
      }
      var next := Planned(path, resourceKind, spec.value);
      drivers := if resourceKind == DRIVER_MANIFEST then drivers + 1 else drivers;
      taken, owners := taken + {path}, owners[path := package.path];
      OneMore(package, root.value, planned, next, k);
      planned := planned + [next];
    }
    assert package.resources[..|package.resources|] == package.resources;
    result := Ok(Expansion(root.value, patterns.value, kind.value, planned, owners));
  }

  lemma OwnPatternsExactly(root: string, list: seq<string>, resolved: Option<seq<string>>, wrong: string)
    requires resolved.Some? ==> OwnPatternsResolve(root, list, resolved.value)
    requires resolved.None? ==> BlamesPattern(root, list, wrong)
    ensures resolved.None? <==> exists k | 0 <= k < |list| :: ResolveOwnPattern(root, list[k]).None?
  {
    hide ResolveOwnPattern, BlamedPattern;
  }

  lemma BlamedContent(package: Package, root: string, planned: seq<Planned>, path: string, kind: string,
                      error: DefinitionError)
    requires |planned| < |package.resources| && DefinitionsExpand(root, package.path, package.resources[..|planned|], planned)
    requires DistinctPaths(package.path, planned) && OneDriver(planned)
    requires IdentityExpands(root, package.path, package.resources[|planned|], path, kind)
    requires BlamesContent(package, root, planned, package.resources[|planned|], path, kind, error)
    ensures Blames(package, root, planned, error)
  {
    hide IdentityExpands, BlamesContent, DefinitionsExpand, BlamesIdentity;
  }

  lemma NothingPlanned(package: Package)
    ensures DistinctPaths(package.path, []) && OneDriver([]) && Taken([]) == {}
  {
  }

  lemma NoIdentity(package: Package, root: string, k: nat)
    requires PackageRootOfManifest(package.path) == Some(root) && k < |package.resources|
    requires forall path, kind :: !IdentityExpands(root, package.path, package.resources[k], path, kind)
    ensures forall e :: !Expands(package, e)
  {
    hide IdentityExpands, Expands;
    forall e ensures !Expands(package, e) {
      if Expands(package, e) {
        HasIdentity(package, root, e, k);
      }
    }
  }

  lemma HasIdentity(package: Package, root: string, e: Expansion, k: nat)
    requires Expands(package, e) && PackageRootOfManifest(package.path) == Some(root) && k < |package.resources|
    ensures k < |e.resources|
    ensures IdentityExpands(root, package.path, package.resources[k], e.resources[k].path, e.resources[k].manifest)
  {
    hide IdentityExpands, SpecResolves, OwnPatternsResolve, ResolveReference;
    assert DefinitionExpands(root, package.path, package.resources[k], e.resources[k]);
  }

  lemma OneMore(package: Package, root: string, planned: seq<Planned>, next: Planned, k: nat)
    requires k < |package.resources| && DefinitionsExpand(root, package.path, package.resources[..k], planned)
    requires DefinitionExpands(root, package.path, package.resources[k], next)
    ensures DefinitionsExpand(root, package.path, package.resources[..k + 1], planned + [next])
    ensures Taken(planned + [next]) == Taken(planned) + {next.path}
    ensures DistinctPaths(package.path, planned) && next.path !in {package.path} + Taken(planned) ==>
              DistinctPaths(package.path, planned + [next])
    ensures OneDriver(planned)
            && !(next.manifest == DRIVER_MANIFEST && exists j | 0 <= j < k :: planned[j].manifest == DRIVER_MANIFEST) ==>
              OneDriver(planned + [next])
  {
    hide DefinitionExpands;
    var more := planned + [next];
    forall path | path in Taken(planned) + {next.path} ensures path in Taken(more) {
      if path in Taken(planned) {
        var j :| 0 <= j < |planned| && planned[j].path == path;
        assert more[j].path == path;
      } else {
        assert more[|planned|].path == path;
      }
    }
  }

  /** Definitions resolve in one way only, so a clash is a clash in every expansion. */
  lemma RefusedForGood(package: Package, root: string, planned: seq<Planned>, path: string, kind: string, k: nat)
    requires PackageRootOfManifest(package.path) == Some(root)
    requires k < |package.resources| && DefinitionsExpand(root, package.path, package.resources[..k], planned)
    requires IdentityExpands(root, package.path, package.resources[k], path, kind)
    requires path in {package.path} + Taken(planned)
             || (kind == DRIVER_MANIFEST && exists j | 0 <= j < k :: planned[j].manifest == DRIVER_MANIFEST)
    ensures forall e :: !Expands(package, e)
  {
    hide IdentityExpands, SpecResolves, EntrypointOk, OwnPatternsResolve, ResolveReference;
    forall e ensures !Expands(package, e) {
      if Expands(package, e) {
        assert DefinitionExpands(root, package.path, package.resources[k], e.resources[k]);
        SameIdentity(root, package.path, package.resources[k], path, kind, e.resources[k].path, e.resources[k].manifest);
        forall j | 0 <= j < k ensures planned[j].path == e.resources[j].path && planned[j].manifest == e.resources[j].manifest {
          assert package.resources[..k][j] == package.resources[j];
          assert DefinitionExpands(root, package.path, package.resources[j], e.resources[j]);
          SameIdentity(root, package.path, package.resources[j], planned[j].path, planned[j].manifest, e.resources[j].path, e.resources[j].manifest);
        }
        assert false;
      }
    }
  }

  lemma UnresolvedForGood(package: Package, root: string, path: string, kind: string, k: nat)
    requires PackageRootOfManifest(package.path) == Some(root) && k < |package.resources|
    requires IdentityExpands(root, package.path, package.resources[k], path, kind)
    requires forall spec :: !SpecResolves(root, package.path, kind, package.resources[k].spec, spec)
    ensures forall e :: !Expands(package, e)
  {
    hide IdentityExpands, SpecResolves, OwnPatternsResolve, ResolveReference;
    forall e ensures !Expands(package, e) {
      if Expands(package, e) {
        assert DefinitionExpands(root, package.path, package.resources[k], e.resources[k]);
        SameIdentity(root, package.path, package.resources[k], path, kind, e.resources[k].path, e.resources[k].manifest);
        assert false;
      }
    }
  }

  lemma SameIdentity(root: string, manifest: string, definition: Definition, path: string, kind: string,
                     path': string, kind': string)
    requires IdentityExpands(root, manifest, definition, path, kind) && IdentityExpands(root, manifest, definition, path', kind')
    ensures path == path' && kind == kind'
  {
  }

  // ---- The sandbox ----

  /** On success every Resource lies in the sandbox of the package under a valid path of
      its own, is owned by its Manifest, and refers to nothing relative any more. */
  lemma ExpansionIsSandboxed(package: Package, e: Expansion, k: nat)
    requires Expands(package, e) && k < |e.resources|
    ensures var planned := e.resources[k];
            && ValidPath(planned.path) && PackageRoot(planned.path) == Some(e.packagePath)
            && planned.path != e.packagePath && planned.path != package.path
            && planned.path in e.owners && e.owners[planned.path] == package.path
            && ValidPath(planned.manifest) && planned.manifest != MANIFEST_MANIFEST
            && SpecResolves(e.packagePath, package.path, planned.manifest, planned.spec, planned.spec)
    ensures PackageRoot(package.path) == Some(e.packagePath) && package.path == e.packagePath + "/manifest"
    ensures e.owners.Keys == {package.path} + Taken(e.resources)
  {
    hide SpecResolves, OwnPatternsResolve;
    var definition, planned := package.resources[k], e.resources[k];
    assert DefinitionExpands(e.packagePath, package.path, definition, planned);
    RootOfDescendant(package.path, definition.path[2..]);
    ResolveReferenceTwice(e.packagePath, package.path, definition.manifest);
    SpecIsNormalForm(e.packagePath, package.path, planned.manifest, definition.spec, planned.spec);
    assert planned.path in Taken(e.resources);
  }

  /** The Driver Resources of the whole plan: the packaged ones, and the Manifest of the
      package itself if it is declared to be one. */
  function PlannedDrivers(package: Package, e: Expansion): set<string> {
    (if e.manifest == DRIVER_MANIFEST then {package.path} else {})
    + set k | 0 <= k < |e.resources| && e.resources[k].manifest == DRIVER_MANIFEST :: e.resources[k].path
  }

  /** The reference, of the package's own Manifest or of a packaged Resource, makes what it
      stands for a Driver. */
  predicate DeclaresDriver(package: Package, reference: string) {
    var root := PackageRootOfManifest(package.path);
    root.Some? && ResolveReference(root.value, package.path, reference) == Some(DRIVER_MANIFEST)
  }

  /** The check for several Drivers counts the packaged Resources only: a plan holds at
      most two, and at most one exactly if the package does not declare both its own
      Manifest and one of its Resources to be Drivers. */
  lemma AtMostOneDriverExactly(package: Package, e: Expansion)
    requires Expands(package, e)
    ensures |PlannedDrivers(package, e)| <= 2
    ensures |PlannedDrivers(package, e)| <= 1 <==>
            !(&& DeclaresDriver(package, package.manifest)
              && exists k | 0 <= k < |package.resources| :: DeclaresDriver(package, package.resources[k].manifest))
  {
    hide OwnPatternsResolve, ResolveReference, SpecResolves, EntrypointOk, ResolveBelow;
    RootDeclared(package, e);
    forall k | 0 <= k < |e.resources|
      ensures e.resources[k].manifest == DRIVER_MANIFEST <==> DeclaresDriver(package, package.resources[k].manifest)
    {
      assert DefinitionExpands(e.packagePath, package.path, package.resources[k], e.resources[k]);
    }
    var packaged := set k | 0 <= k < |e.resources| && e.resources[k].manifest == DRIVER_MANIFEST :: e.resources[k].path;
    if k :| 0 <= k < |e.resources| && e.resources[k].manifest == DRIVER_MANIFEST {
      assert packaged == {e.resources[k].path};
      assert package.path !in packaged;
    } else {
      assert packaged == {};
    }
  }

  lemma RootDeclared(package: Package, e: Expansion)
    requires Expands(package, e)
    ensures e.manifest == DRIVER_MANIFEST <==> DeclaresDriver(package, package.manifest)
  {
    hide OwnPatternsResolve, DefinitionsExpand, DistinctPaths, OneDriver, Taken, PackageRootOfManifest, ResolveBelow, ValidPath;
  }

  lemma RootManifestIsFree(package: Package, e: Expansion, kind: string)
    requires Expands(package, e) && ValidPath(kind)
    ensures Expands(package.(manifest := kind), e.(manifest := kind))
  {
    hide DefinitionsExpand, OwnPatternsResolve, DistinctPaths, OneDriver, PackageRootOfManifest, Taken;
    assert kind[0] == '/';
    assert ResolveReference(e.packagePath, package.path, kind) == Some(kind);
    assert package.(manifest := kind).resources == package.resources;
  }

  /** And nothing stops a package with a Driver from declaring its Manifest as another. */
  lemma RootDriverIsNotCounted(package: Package, e: Expansion)
    requires Expands(package, e)
    ensures Expands(package.(manifest := DRIVER_MANIFEST), e.(manifest := DRIVER_MANIFEST))
  {
    hide Expands, ValidPath;
    DriverManifestIsPath();
    RootManifestIsFree(package, e, DRIVER_MANIFEST);
  }

  /** A package with one Resource, a Driver like its own Manifest. */
  function TwoDrivers(publisher: string, name: string): Package {
    Package(RootPath(publisher, name) + "/manifest", DRIVER_MANIFEST, [],
            [Definition("./d", DRIVER_MANIFEST, None, DriverDoc(".", [], []))])
  }

  function TwoDriversExpansion(publisher: string, name: string): Expansion {
    var root, manifest := RootPath(publisher, name), RootPath(publisher, name) + "/manifest";
    Expansion(root, [], DRIVER_MANIFEST, [Planned(root + "/d", DRIVER_MANIFEST, DriverDoc(manifest, [manifest], []))],
              map[manifest := manifest, root + "/d" := manifest])
  }

  lemma BelowRoot(publisher: string, name: string, rest: string)
    requires PlainSegment(publisher) && PlainSegment(name) && PlainSegment(rest)
    ensures var path := RootPath(publisher, name) + "/" + rest;
            ValidPath(path) && PackageRoot(path) == Some(RootPath(publisher, name))
  {
    hide Split, PlainSegment;
    var root := RootPath(publisher, name);
    RootPathSegments(publisher, name);
    PlainHasNoSlash(rest);
    SplitOne(rest);
    DescendantSegments(root, rest);
    PackagesIsPlain();
    SegmentBounds(publisher, name, rest);
    assert Segments(root + "/" + rest) == [PACKAGES, publisher, name, rest];
  }

  lemma SegmentBounds(publisher: string, name: string, rest: string)
    requires PlainSegment(publisher) && PlainSegment(name) && PlainSegment(rest)
    ensures |RootPath(publisher, name) + "/" + rest| <= MAX_PATH_BYTES && RootPath(publisher, name)[0] == '/'
  {
  }

  lemma DotD(root: string)
    requires ValidPath(root + "/" + "d")
    ensures ResolveBelow(root, "./d") == Some(root + "/" + "d") && root + "/" + "d" == root + "/d"
  {
    hide Split;
    SplitOne("d");
    assert "./d"[2..] == "d" && "./d"[..2] == "./";
    assert PlainByte("d", 0);
  }

  /** Every publisher has such a package, and it expands, with two Drivers. */
  lemma TwoDriversExpand(publisher: string, name: string)
    requires PlainSegment(publisher) && PlainSegment(name)
    ensures var package, e := TwoDrivers(publisher, name), TwoDriversExpansion(publisher, name);
            Expands(package, e) && PlannedDrivers(package, e) == {package.path, e.packagePath + "/d"}
            && |PlannedDrivers(package, e)| == 2
  {
    var package, e := TwoDrivers(publisher, name), TwoDriversExpansion(publisher, name);
    var root := RootPath(publisher, name);
    WordsArePlain();
    BelowRoot(publisher, name, "manifest");
    BelowRoot(publisher, name, "d");
    assert root + "/" + "manifest" == root + "/manifest" && root + "/" + "d" == root + "/d";
    DotD(root);
    DriverManifestIsPath();
    DriverManifestIsNoReference();
    assert root + "/manifest" != root + "/d" by { assert |root + "/manifest"| != |root + "/d"|; }
    hide ResolveBelow, PackageRoot, RootPath, ValidPath, ResolvePattern, EntrypointOk;
    NoEntrypoint();
    assert ResolveReference(root, package.path, DRIVER_MANIFEST) == Some(DRIVER_MANIFEST);
    assert SpecResolves(root, package.path, DRIVER_MANIFEST, package.resources[0].spec, e.resources[0].spec);
    assert DefinitionExpands(root, package.path, package.resources[0], e.resources[0]);
    assert Taken(e.resources) == {e.resources[0].path};
    assert e.resources[0] in e.resources;
  }

  lemma NoEntrypoint()
    ensures EntrypointOk(None)
  {
  }

  lemma DriverManifestIsNoReference()
    ensures DRIVER_MANIFEST != "." && !StartsRelative(DRIVER_MANIFEST) && DRIVER_MANIFEST != MANIFEST_MANIFEST
  {
    assert DRIVER_MANIFEST[0] == '/';
    assert |DRIVER_MANIFEST| != |MANIFEST_MANIFEST|;
  }

  /** For instance the package under /packages/a/b. */
  lemma TwoDriversInOnePackage()
    ensures exists e :: Expands(TwoDrivers("a", "b"), e) && |PlannedDrivers(TwoDrivers("a", "b"), e)| == 2
  {
    hide Expands, PlannedDrivers;
    assert PlainByte("a", 0) && PlainByte("b", 0);
    TwoDriversExpand("a", "b");
  }

  lemma DriverManifestIsPath()
    ensures ValidPath(DRIVER_MANIFEST)
  {
    hide ValidPath, PackageRoot, PlainSegment;
    WordsArePlain();
    BelowRoot("kas", "driver", "manifest");
    assert RootPath("kas", "driver") + "/" + "manifest" == DRIVER_MANIFEST;
  }

  lemma WordsArePlain()
    ensures PlainSegment("packages") && PlainSegment("kas") && PlainSegment("driver") && PlainSegment("manifest") && PlainSegment("d")
  {
  }

  /** The patterns a Manifest declares for its instances are not a normal form: outside
      the packages of the platform itself an absolute pattern is refused. */
  lemma OwnPatternsAreRefusedTwice(root: string, pattern: string)
    requires StartsRelative(pattern) && ResolveOwnPattern(root, pattern).Some?
    ensures ResolveOwnPattern(root, ResolveOwnPattern(root, pattern).value)
         == if "/packages/kas/" <= root then ResolveOwnPattern(root, pattern) else None
  {
  }
}
