/** Where the references of an expanded package lead (crates/kas-core/src/lib.rs). */
module Sandbox {
  import opened Wrappers
  import opened Paths
  import opened Matching
  import opened Resources
  import opened Packages

  // ---- Patterns with a literal beginning ----

  lemma {:induction false} MatchesShifted(before: seq<string>, pattern: seq<string>, front: seq<string>, word: seq<string>,
                                          i: nat, j: nat)
    requires i <= |pattern| && j <= |word|
    ensures Matches(before + pattern, front + word, |before| + i, |front| + j) <==> Matches(pattern, word, i, j)
    decreases |pattern| - i + |word| - j
  {
    if i < |pattern| {
      assert (before + pattern)[|before| + i] == pattern[i];
      MatchesShifted(before, pattern, front, word, i + 1, j);
      if j < |word| {
        assert (front + word)[|front| + j] == word[j];
        MatchesShifted(before, pattern, front, word, i, j + 1);
        MatchesShifted(before, pattern, front, word, i + 1, j + 1);
      }
    }
  }

  /** A pattern that begins with literals matches what begins with them and goes on as the
      rest of the pattern says. */
  lemma {:induction false} LiteralPrefix(literals: seq<string>, pattern: seq<string>, word: seq<string>, i: nat)
    requires i <= |literals| && i <= |word| && forall segment | segment in literals :: !Wildcard(segment)
    ensures Matches(literals + pattern, word, i, i)
       <==> |literals| <= |word| && word[i..|literals|] == literals[i..] && Matches(pattern, word[|literals|..], 0, 0)
    decreases |literals| - i
  {
    if i == |literals| {
      assert word == word[..i] + word[i..];
      MatchesShifted(literals, pattern, word[..i], word[i..], 0, 0);
    } else {
      assert literals[i] in literals && (literals + pattern)[i] == literals[i];
      assert literals[i..] == [literals[i]] + literals[i + 1..];
      if i < |word| {
        LiteralPrefix(literals, pattern, word, i + 1);
        if |literals| <= |word| {
          assert word[i..|literals|] == [word[i]] + word[i + 1..|literals|];
        }
      }
    }
  }

  // ---- Inside a package ----

  /** The package of a path is the one whose root it is, or begins with. */
  lemma RootIsPrefix(path: string, publisher: string, name: string)
    requires ValidPath(path) && PlainSegment(publisher) && PlainSegment(name)
    ensures var root := "/packages/" + publisher + "/" + name;
            PackageRoot(path) == Some(root) <==> path == root || root + "/" <= path
  {
    hide PlainSegment, WellFormed, PackageRoot;
    if PackageRoot(path) == Some(RootPath(publisher, name)) {
      PrefixOfMember(path, RootPath(publisher, name));
    }
    if path == RootPath(publisher, name) || RootPath(publisher, name) + "/" <= path {
      RootOfPrefixed(path, publisher, name);
    }
  }

  lemma RootOfPrefixed(path: string, publisher: string, name: string)
    requires ValidPath(path) && PlainSegment(publisher) && PlainSegment(name)
    requires var root := RootPath(publisher, name); path == root || root + "/" <= path
    ensures PackageRoot(path) == Some(RootPath(publisher, name))
  {
    hide Split, PlainSegment, WellFormed, PackageRoot;
    RootPathSegments(publisher, name);
    RootIsAbsolute(publisher, name);
    hide RootPath;
    var root := RootPath(publisher, name);
    if path != root {
      assert path == root + "/" + path[|root| + 1..];
      DescendantSegments(root, path[|root| + 1..]);
    }
    assert Segments(path)[0..3] == [PACKAGES, publisher, name];
    RootFromSegments(path, publisher, name);
  }

  lemma PrefixOfMember(path: string, root: string)
    requires PackageRoot(path) == Some(root)
    ensures path == root || root + "/" <= path
  {
    hide Split, PlainSegment, WellFormed;
    PathIsAbsolute(path);
    var segments := Segments(path);
    JoinSplit(path[1..]);
    if |segments| > 3 {
      JoinThree(segments);
      assert path == root + "/" + Join(segments[3..]);
    } else {
      JoinLast(segments);
    }
  }

  lemma PathIsAbsolute(path: string)
    requires ValidPath(path)
    ensures path != "" && path == "/" + path[1..]
  {
  }

  lemma JoinThree(segments: seq<string>)
    requires |segments| > 3
    ensures Join(segments) == segments[0] + "/" + (segments[1] + "/" + (segments[2] + "/" + Join(segments[3..])))
  {
    assert segments[1..][1..] == segments[2..] && segments[2..][1..] == segments[3..];
    assert Join(segments[1..]) == segments[1] + "/" + Join(segments[2..]);
    assert Join(segments[2..]) == segments[2] + "/" + Join(segments[3..]);
  }

  lemma JoinLast(segments: seq<string>)
    requires |segments| == 3
    ensures Join(segments) == segments[0] + "/" + (segments[1] + "/" + segments[2])
  {
    assert segments[1..][1..] == segments[2..] && Join(segments[2..]) == segments[2];
    assert Join(segments[1..]) == segments[1] + "/" + Join(segments[2..]);
  }

  /** Everything the pattern matches is the root of the package or lies below it. */
  ghost predicate Inside(root: string, pattern: string) {
    forall path | PathMatches(pattern, path) :: path == root || root + "/" <= path
  }

  /** Below the root it matches exactly what the relative pattern matches, block by block. */
  ghost predicate MeansBelow(root: string, relative: string, pattern: string) {
    forall rest | ValidPath(root + "/" + rest) ::
      PathMatches(pattern, root + "/" + rest) <==> exists cuts :: Division(Split(relative), Split(rest), 0, 0, cuts)
  }

  lemma RootOfPackage(manifest: string, root: string) returns (publisher: string, name: string)
    requires PackageRootOfManifest(manifest) == Some(root)
    ensures PlainSegment(publisher) && PlainSegment(name) && root == RootPath(publisher, name)
    ensures Segments(root) == [PACKAGES, publisher, name]
  {
    var segments := Segments(manifest);
    publisher, name := segments[1], segments[2];
    assert publisher in segments && name in segments;
    RootPathSegments(publisher, name);
  }

  lemma PlainIsNoWildcard(segment: string)
    requires PlainSegment(segment)
    ensures !Wildcard(segment)
  {
    assert PlainByte(segment, 0);
  }

  /** A relative pattern, resolved, means the same below the root and nothing elsewhere. */
  lemma RelativeStaysInside(manifest: string, root: string, pattern: string)
    requires PackageRootOfManifest(manifest) == Some(root) && ResolvePatternBelow(root, pattern).Some?
    ensures var resolved := ResolvePatternBelow(root, pattern).value;
            Inside(root, resolved) && MeansBelow(root, pattern[2..], resolved)
  {
    var resolved := ResolvePatternBelow(root, pattern).value;
    var relative := pattern[2..];
    hide WellFormedRelative, PackageRootOfManifest;
    var publisher, name := RootOfPackage(manifest, root);
    hide PlainSegment, Split, RootPath, ValidPattern;
    var literals := [PACKAGES, publisher, name];
    PackagesIsPlain();
    forall segment | segment in literals ensures !Wildcard(segment) {
      PlainIsNoWildcard(segment);
    }
    RootIsAbsolute(publisher, name);
    DescendantSegments(root, relative);
    assert Segments(resolved) == literals + Split(relative);
    forall path | PathMatches(resolved, path) ensures path == root || root + "/" <= path {
      LiteralPrefix(literals, Split(relative), Segments(path), 0);
      RootFromSegments(path, publisher, name);
      RootIsPrefix(path, publisher, name);
      assert "/packages/" + publisher + "/" + name == RootPath(publisher, name);
    }
    forall rest | ValidPath(root + "/" + rest)
      ensures PathMatches(resolved, root + "/" + rest) <==> exists cuts :: Division(Split(relative), Split(rest), 0, 0, cuts)
    {
      var word := Segments(root + "/" + rest);
      DescendantSegments(root, rest);
      LiteralPrefix(literals, Split(relative), word, 0);
      assert word[0..3] == literals && word[3..] == Split(rest);
      MatchesIffDivision(Split(relative), Split(rest), 0, 0);
    }
  }

  lemma RootIsAbsolute(publisher: string, name: string)
    ensures RootPath(publisher, name) != ""
  {
  }

  lemma RootFromSegments(path: string, publisher: string, name: string)
    requires ValidPath(path) && |Segments(path)| >= 3 && Segments(path)[0..3] == [PACKAGES, publisher, name]
    ensures PackageRoot(path) == Some(RootPath(publisher, name))
  {
    var segments := Segments(path);
    assert segments[0] == segments[0..3][0] && segments[1] == segments[0..3][1] && segments[2] == segments[0..3][2];
  }

  // ---- What resolves ----

  /** A relative text that can be continued below the root: acceptable segments, not too long. */
  predicate FitsBelow(root: string, text: string, wildcards: bool) {
    && "./" <= text && |root| + |text| - 1 <= 1024
    && forall segment | segment in Split(text[2..]) :: PlainSegment(segment) || (wildcards && segment in {"*", "**"})
  }

  lemma BelowIsWellFormed(manifest: string, root: string, text: string, wildcards: bool)
    requires PackageRootOfManifest(manifest) == Some(root)
    ensures WellFormedRelative(text, wildcards) && WellFormed(root + "/" + text[2..], wildcards) <==> FitsBelow(root, text, wildcards)
  {
    if "./" <= text {
      var relative := text[2..];
      assert StartsRelative(text);
      hide PackageRootOfManifest;
      var publisher, name := RootOfPackage(manifest, root);
      RootIsAbsolute(publisher, name);
      RootIsLong(publisher, name);
      hide RootPath, Split, PlainSegment;
      PackagesIsPlain();
      DescendantSegments(root, relative);
      forall segment | segment in [PACKAGES, publisher, name] ensures AcceptableSegment(segment, wildcards) {
      }
      assert Segments(root + "/" + relative) == [PACKAGES, publisher, name] + Split(relative);
    } else {
      assert !StartsRelative(text);
    }
  }

  lemma RootIsLong(publisher: string, name: string)
    ensures |RootPath(publisher, name)| >= 2 && RootPath(publisher, name)[0] == '/'
  {
  }

  /** Exactly these patterns and references resolve: what fits below the root, ".", what is
      a valid pattern or path itself, and for patterns "*"; for the patterns a Manifest
      declares, absolute ones in the packages of the platform only. */
  lemma ResolvesExactly(manifest: string, root: string, text: string)
    requires PackageRootOfManifest(manifest) == Some(root)
    ensures ResolvePattern(root, manifest, text).Some?
       <==> text == "*" || text == "." || FitsBelow(root, text, true) || (!("./" <= text) && ValidPattern(text))
    ensures ResolveReference(root, manifest, text).Some?
       <==> text == "." || FitsBelow(root, text, false) || (!("./" <= text) && ValidPath(text))
    ensures ResolveOwnPattern(root, text).Some?
       <==> FitsBelow(root, text, true) || (!("./" <= text) && "/packages/kas/" <= root && ValidPattern(text))
    ensures ResolveBelow(root, text).Some? <==> FitsBelow(root, text, false)
  {
    BelowIsWellFormed(manifest, root, text, true);
    BelowIsWellFormed(manifest, root, text, false);
    assert StartsRelative(text) <==> "./" <= text;
    assert StartsRelative(text) ==> text != "*" && text != ".";
    hide WellFormedRelative, FitsBelow, PackageRootOfManifest, WellFormed;
  }

  /** A pattern that does not resolve is named as it was written, or, if only the absolute
      pattern it stands for is too long, as that. */
  lemma BlamedAsWritten(manifest: string, root: string, pattern: string)
    requires PackageRootOfManifest(manifest) == Some(root) && ResolvePattern(root, manifest, pattern).None?
    ensures var blamed := BlamedPattern(root, pattern);
            if "./" <= pattern && |pattern| <= 1024
               && forall segment | segment in Split(pattern[2..]) :: PlainSegment(segment) || segment in {"*", "**"}
            then |blamed| > 1024 && blamed != "" && Segments(blamed) == Segments(root) + Split(pattern[2..])
            else blamed == pattern
  {
    assert StartsRelative(pattern) <==> "./" <= pattern;
    hide PackageRootOfManifest;
    var publisher, name := RootOfPackage(manifest, root);
    RootIsAbsolute(publisher, name);
    RootIsLong(publisher, name);
    ResolvesExactly(manifest, root, pattern);
    if "./" <= pattern {
      hide RootPath, Split, PlainSegment, ResolvePattern, ValidPattern;
      DescendantSegments(root, pattern[2..]);
      forall segment ensures AcceptableSegment(segment, true) <==> PlainSegment(segment) || segment in {"*", "**"} {
      }
    }
  }

  // ---- Entry points ----

  /** How far below its start a walk along the segments ends; ".." goes up. */
  function Depth(segments: seq<string>): int {
    if segments == [] then 0
    else
      var last := segments[|segments| - 1];
      Depth(segments[..|segments| - 1]) + (if last == "" || last == "." then 0 else if last == ".." then -1 else 1)
  }

  /** Every step of the walk goes down. */
  predicate GoesDown(segments: seq<string>) {
    forall k | 0 <= k <= |segments| :: Depth(segments[..k]) == k
  }

  predicate Detour(segment: string) {
    segment == "" || segment == "." || segment == ".."
  }

  lemma DownSnoc(front: seq<string>, last: string)
    ensures GoesDown(front + [last]) <==> GoesDown(front) && !Detour(last)
  {
    var segments := front + [last];
    assert segments[..|front|] == front && front[..|front|] == front && segments[..|segments|] == segments;
    assert Depth(segments) == Depth(front) + (if last == "" || last == "." then 0 else if last == ".." then -1 else 1);
    forall k | 0 <= k <= |front| ensures segments[..k] == front[..k] {
    }
    if GoesDown(front) && !Detour(last) {
      forall k | 0 <= k <= |segments| ensures Depth(segments[..k]) == k {
        if k <= |front| {
          assert segments[..k] == front[..k];
        }
      }
    }
    if GoesDown(segments) {
      forall k | 0 <= k <= |front| ensures Depth(front[..k]) == k {
        assert segments[..k] == front[..k];
      }
      assert Depth(segments[..|segments|]) == |segments| && Depth(front[..|front|]) == |front|;
    }
  }

  lemma {:induction false} DownStepByStep(segments: seq<string>)
    ensures GoesDown(segments) <==> forall segment | segment in segments :: !Detour(segment)
  {
    hide Detour;
    if segments != [] {
      var front, last := segments[..|segments| - 1], segments[|segments| - 1];
      hide GoesDown;
      DownStepByStep(front);
      DownSnoc(front, last);
      assert segments == front + [last];
    }
  }

  /** An entry point is a walk down from the root of the package. */
  lemma EntrypointsGoDown(entrypoint: string)
    ensures EntrypointOk(Some(entrypoint)) <==> "./" <= entrypoint && GoesDown(Split(entrypoint[2..]))
  {
    assert StartsRelative(entrypoint) <==> "./" <= entrypoint;
    if "./" <= entrypoint {
      DownStepByStep(Split(entrypoint[2..]));
    }
  }

  // ---- What is written in a specification ----

  /** Relative patterns stay in the package, "." is its Manifest, anything else is itself. */
  ghost predicate PatternLeads(root: string, manifest: string, pattern: string, resolved: string) {
    if "./" <= pattern then Inside(root, resolved) && MeansBelow(root, pattern[2..], resolved)
    else resolved == if pattern == "." then manifest else pattern
  }

  /** The like for a reference to one Resource. */
  ghost predicate ReferenceLeads(root: string, manifest: string, reference: string, resolved: string) {
    && ValidPath(resolved)
    && if "./" <= reference then
         PackageRoot(resolved) == Some(root) && Segments(resolved) == Segments(root) + Split(reference[2..])
       else resolved == if reference == "." then manifest else reference
  }

  ghost predicate PatternsLead(root: string, manifest: string, list: seq<string>, resolved: seq<string>) {
    |resolved| == |list| && forall k | 0 <= k < |list| :: PatternLeads(root, manifest, list[k], resolved[k])
  }

  ghost predicate ReferencesLead(root: string, manifest: string, list: seq<string>, resolved: seq<string>) {
    |resolved| == |list| && forall k | 0 <= k < |list| :: ReferenceLeads(root, manifest, list[k], resolved[k])
  }

  ghost predicate WatchLeads(root: string, manifest: string, watch: DriverWatch, resolved: DriverWatch) {
    && (match watch.manifest
        case One(pattern) => resolved.manifest.One? && PatternLeads(root, manifest, pattern, resolved.manifest.pattern)
        case Many(patterns) => resolved.manifest.Many? && PatternsLead(root, manifest, patterns, resolved.manifest.patterns))
    && PatternsLead(root, manifest, watch.paths, resolved.paths)
  }

  ghost predicate WatchesLead(root: string, manifest: string, list: seq<DriverWatch>, resolved: seq<DriverWatch>) {
    |resolved| == |list| && forall k | 0 <= k < |list| :: WatchLeads(root, manifest, list[k], resolved[k])
  }

  ghost predicate RulesLead(root: string, manifest: string, list: seq<RoleRule>, resolved: seq<RoleRule>) {
    |resolved| == |list| && forall k | 0 <= k < |list| ::
      && PatternsLead(root, manifest, list[k].manifests, resolved[k].manifests)
      && PatternsLead(root, manifest, list[k].paths, resolved[k].paths)
  }

  /** Every reference in the specification leads where it should. A Driver that names
      nothing manages the Manifest of its package. */
  ghost predicate SpecLeads(root: string, manifest: string, spec: Spec, resolved: Spec) {
    match spec
    case DriverDoc(serviceAccount, manages, watches) =>
      && resolved.DriverDoc? && ReferenceLeads(root, manifest, serviceAccount, resolved.serviceAccount)
      && ReferencesLead(root, manifest, if manages == [] then ["."] else manages, resolved.manages)
      && WatchesLead(root, manifest, watches, resolved.watches)
    case RelationDoc(sources, targets) =>
      && resolved.RelationDoc?
      && WatchesLead(root, manifest, sources, resolved.sources) && WatchesLead(root, manifest, targets, resolved.targets)
    case LinkDoc(relation, source, target) =>
      && resolved.LinkDoc? && ReferenceLeads(root, manifest, relation, resolved.relation)
      && ReferenceLeads(root, manifest, source, resolved.source) && ReferenceLeads(root, manifest, target, resolved.target)
    case RunDoc(resource, action, driver) =>
      && resolved.RunDoc? && ReferenceLeads(root, manifest, resource, resolved.resource)
      && ReferenceLeads(root, manifest, action, resolved.action)
      && (driver.Some? <==> resolved.driver.Some?)
      && (driver.Some? ==> ReferenceLeads(root, manifest, driver.value, resolved.driver.value))
    case RoleDoc(rules) => resolved.RoleDoc? && RulesLead(root, manifest, rules, resolved.rules)
    case CredentialDoc(subject) => resolved.CredentialDoc? && ReferenceLeads(root, manifest, subject, resolved.subject)
    case OtherDoc(content) => resolved == spec
  }

  /** The specifications of these Manifests are read; under any other Manifest nothing is. */
  predicate SpecOf(kind: string, spec: Spec) {
    && (kind == "/packages/kas/driver/manifest" ==> spec.DriverDoc?)
    && (kind == "/packages/kas/relation/manifest" ==> spec.RelationDoc?)
    && (kind == "/packages/kas/link/manifest" ==> spec.LinkDoc?)
    && (kind == "/packages/kas/run/manifest" ==> spec.RunDoc?)
    && (kind == "/packages/kas/role/manifest" ==> spec.RoleDoc?)
    && (kind == "/packages/kas/credential/manifest" ==> spec.CredentialDoc?)
  }

  const READ: set<string> := {
    "/packages/kas/driver/manifest", "/packages/kas/relation/manifest", "/packages/kas/link/manifest",
    "/packages/kas/run/manifest", "/packages/kas/role/manifest", "/packages/kas/credential/manifest"}

  lemma PatternLeadsThere(manifest: string, root: string, pattern: string)
    requires PackageRootOfManifest(manifest) == Some(root) && ResolvePattern(root, manifest, pattern).Some?
    ensures PatternLeads(root, manifest, pattern, ResolvePattern(root, manifest, pattern).value)
  {
    hide PackageRootOfManifest, Inside, MeansBelow, ValidPattern, ResolvePatternBelow;
    assert StartsRelative(pattern) <==> "./" <= pattern;
    if StartsRelative(pattern) {
      RelativeStaysInside(manifest, root, pattern);
    }
  }

  lemma ReferenceLeadsThere(manifest: string, root: string, reference: string)
    requires PackageRootOfManifest(manifest) == Some(root) && ResolveReference(root, manifest, reference).Some?
    ensures ReferenceLeads(root, manifest, reference, ResolveReference(root, manifest, reference).value)
  {
    var resolved := ResolveReference(root, manifest, reference).value;
    assert StartsRelative(reference) <==> "./" <= reference;
    if StartsRelative(reference) {
      hide PackageRootOfManifest, WellFormedRelative, PackageRoot;
      var publisher, name := RootOfPackage(manifest, root);
      RootIsAbsolute(publisher, name);
      hide RootPath, Split;
      DescendantSegments(root, reference[2..]);
      assert Segments(resolved)[0..3] == [PACKAGES, publisher, name];
      RootFromSegments(resolved, publisher, name);
    }
  }

  lemma PatternsLeadThere(manifest: string, root: string, list: seq<string>, resolved: seq<string>)
    requires PackageRootOfManifest(manifest) == Some(root) && PatternsResolve(root, manifest, list, resolved)
    ensures PatternsLead(root, manifest, list, resolved)
  {
    hide PackageRootOfManifest, ResolvePattern, PatternLeads;
    forall k | 0 <= k < |list| ensures PatternLeads(root, manifest, list[k], resolved[k]) {
      PatternLeadsThere(manifest, root, list[k]);
    }
  }

  lemma ReferencesLeadThere(manifest: string, root: string, list: seq<string>, resolved: seq<string>)
    requires PackageRootOfManifest(manifest) == Some(root) && ReferencesResolve(root, manifest, list, resolved)
    ensures ReferencesLead(root, manifest, list, resolved)
  {
    hide PackageRootOfManifest, ResolveReference, ReferenceLeads;
    forall k | 0 <= k < |list| ensures ReferenceLeads(root, manifest, list[k], resolved[k]) {
      ReferenceLeadsThere(manifest, root, list[k]);
    }
  }

  lemma WatchesLeadThere(manifest: string, root: string, list: seq<DriverWatch>, resolved: seq<DriverWatch>)
    requires PackageRootOfManifest(manifest) == Some(root) && WatchesResolve(root, manifest, list, resolved)
    ensures WatchesLead(root, manifest, list, resolved)
  {
    hide PackageRootOfManifest, ResolvePattern, PatternLeads, PatternsResolve, PatternsLead;
    forall k | 0 <= k < |list| ensures WatchLeads(root, manifest, list[k], resolved[k]) {
      assert WatchResolves(root, manifest, list[k], resolved[k]);
      match list[k].manifest {
        case One(pattern) => PatternLeadsThere(manifest, root, pattern);
        case Many(patterns) => PatternsLeadThere(manifest, root, patterns, resolved[k].manifest.patterns);
      }
      PatternsLeadThere(manifest, root, list[k].paths, resolved[k].paths);
    }
  }

  lemma RulesLeadThere(manifest: string, root: string, list: seq<RoleRule>, resolved: seq<RoleRule>)
    requires PackageRootOfManifest(manifest) == Some(root) && RulesResolve(root, manifest, list, resolved)
    ensures RulesLead(root, manifest, list, resolved)
  {
    hide PackageRootOfManifest, PatternsResolve, PatternsLead;
    forall k | 0 <= k < |list|
      ensures PatternsLead(root, manifest, list[k].manifests, resolved[k].manifests)
      ensures PatternsLead(root, manifest, list[k].paths, resolved[k].paths)
    {
      assert RuleResolves(root, manifest, list[k], resolved[k]);
      PatternsLeadThere(manifest, root, list[k].manifests, resolved[k].manifests);
      PatternsLeadThere(manifest, root, list[k].paths, resolved[k].paths);
    }
  }

  lemma SpecLeadsThere(manifest: string, root: string, kind: string, spec: Spec, resolved: Spec)
    requires PackageRootOfManifest(manifest) == Some(root) && SpecResolves(root, manifest, kind, spec, resolved)
    ensures SpecOf(kind, spec)
    ensures if kind in READ then SpecLeads(root, manifest, spec, resolved) else resolved == spec
  {
    hide PackageRootOfManifest, ResolveReference, ReferencesResolve, WatchesResolve, RulesResolve, ReferenceLeads, ReferencesLead,
      WatchesLead, RulesLead;
    if spec.DriverDoc? && kind == DRIVER_MANIFEST {
      ReferenceLeadsThere(manifest, root, spec.serviceAccount);
      if spec.manages == [] {
        ManifestManagesItself(manifest, root);
      } else {
        ReferencesLeadThere(manifest, root, spec.manages, resolved.manages);
      }
      WatchesLeadThere(manifest, root, spec.watches, resolved.watches);
    } else if spec.RelationDoc? && kind == RELATION_MANIFEST {
      WatchesLeadThere(manifest, root, spec.sources, resolved.sources);
      WatchesLeadThere(manifest, root, spec.targets, resolved.targets);
    } else if spec.LinkDoc? && kind == LINK_MANIFEST {
      ReferenceLeadsThere(manifest, root, spec.relation);
      ReferenceLeadsThere(manifest, root, spec.source);
      ReferenceLeadsThere(manifest, root, spec.target);
    } else if spec.RunDoc? && kind == RUN_MANIFEST {
      ReferenceLeadsThere(manifest, root, spec.resource);
      ReferenceLeadsThere(manifest, root, spec.action);
      if spec.driver.Some? {
        ReferenceLeadsThere(manifest, root, spec.driver.value);
      }
    } else if spec.RoleDoc? && kind == ROLE_MANIFEST {
      RulesLeadThere(manifest, root, spec.rules, resolved.rules);
    } else if spec.CredentialDoc? && kind == CREDENTIAL_MANIFEST {
      ReferenceLeadsThere(manifest, root, spec.subject);
    }
  }

  lemma ManifestManagesItself(manifest: string, root: string)
    requires PackageRootOfManifest(manifest) == Some(root)
    ensures ReferencesLead(root, manifest, ["."], [manifest])
  {
    assert ReferenceLeads(root, manifest, ".", manifest);
  }

  // ---- The plan ----

  /** Where everything in a plan leads: each Resource is where its relative path says, below
      the root, and an entry point goes down from there; its Manifest and every reference in its specification lead inside the package
      if they are relative, and are themselves otherwise; the patterns the Manifest declares
      for its instances are relative, except in the packages of the platform. */
  lemma ExpansionLeads(package: Package, e: Expansion)
    requires Expands(package, e)
    ensures |e.resources| == |package.resources| && |e.patterns| == |package.patterns|
    ensures forall k | 0 <= k < |package.resources| ::
              var definition, planned := package.resources[k], e.resources[k];
              && "./" <= definition.path && ReferenceLeads(e.packagePath, package.path, definition.path, planned.path)
              && ReferenceLeads(e.packagePath, package.path, definition.manifest, planned.manifest)
              && SpecOf(planned.manifest, definition.spec)
              && (definition.entrypoint.Some? ==>
                    "./" <= definition.entrypoint.value && GoesDown(Split(definition.entrypoint.value[2..])))
              && (if planned.manifest in READ then SpecLeads(e.packagePath, package.path, definition.spec, planned.spec)
                  else planned.spec == definition.spec)
    ensures ReferenceLeads(e.packagePath, package.path, package.manifest, e.manifest)
    ensures forall k | 0 <= k < |package.patterns| ::
              if "./" <= package.patterns[k]
              then Inside(e.packagePath, e.patterns[k]) && MeansBelow(e.packagePath, package.patterns[k][2..], e.patterns[k])
              else "/packages/kas/" <= e.packagePath && ValidPattern(e.patterns[k]) && e.patterns[k] == package.patterns[k]
  {
    var root := e.packagePath;
    assert PackageRootOfManifest(package.path) == Some(root);
    ManifestIsPath(package.path, root);
    hide PackageRootOfManifest, ReferenceLeads, SpecLeads, SpecOf, SpecResolves, Inside, MeansBelow, ResolvePatternBelow, ResolveReference,
      ValidPattern, DistinctPaths, OneDriver, EntrypointOk, GoesDown, Split;
    forall k | 0 <= k < |package.resources|
      ensures var definition, planned := package.resources[k], e.resources[k];
              && "./" <= definition.path && ReferenceLeads(root, package.path, definition.path, planned.path)
              && ReferenceLeads(root, package.path, definition.manifest, planned.manifest)
              && SpecOf(planned.manifest, definition.spec)
              && (definition.entrypoint.Some? ==>
                    "./" <= definition.entrypoint.value && GoesDown(Split(definition.entrypoint.value[2..])))
              && (if planned.manifest in READ then SpecLeads(root, package.path, definition.spec, planned.spec)
                  else planned.spec == definition.spec)
    {
      var definition, planned := package.resources[k], e.resources[k];
      assert DefinitionExpands(root, package.path, definition, planned);
      if definition.entrypoint.Some? {
        EntrypointsGoDown(definition.entrypoint.value);
      }
      BelowIsReference(root, package.path, definition.path);
      ReferenceLeadsThere(package.path, root, definition.path);
      ReferenceLeadsThere(package.path, root, definition.manifest);
      SpecLeadsThere(package.path, root, planned.manifest, definition.spec, planned.spec);
    }
    if package.manifest == "." {
      DotLeads(root, package.path);
    } else {
      ReferenceLeadsThere(package.path, root, package.manifest);
    }
    forall k | 0 <= k < |package.patterns|
      ensures if "./" <= package.patterns[k]
              then Inside(root, e.patterns[k]) && MeansBelow(root, package.patterns[k][2..], e.patterns[k])
              else "/packages/kas/" <= root && ValidPattern(e.patterns[k]) && e.patterns[k] == package.patterns[k]
    {
      assert ResolveOwnPattern(root, package.patterns[k]) == Some(e.patterns[k]);
      assert StartsRelative(package.patterns[k]) <==> "./" <= package.patterns[k];
      if StartsRelative(package.patterns[k]) {
        RelativeStaysInside(package.path, root, package.patterns[k]);
      }
    }
  }

  lemma ManifestIsPath(manifest: string, root: string)
    requires PackageRootOfManifest(manifest) == Some(root)
    ensures ValidPath(manifest) && manifest == root + "/manifest"
  {
  }

  lemma BelowIsReference(root: string, manifest: string, path: string)
    requires ResolveBelow(root, path).Some?
    ensures "./" <= path && ResolveReference(root, manifest, path) == ResolveBelow(root, path)
  {
  }

  lemma DotLeads(root: string, manifest: string)
    requires ValidPath(manifest)
    ensures ReferenceLeads(root, manifest, ".", manifest)
  {
  }
}
