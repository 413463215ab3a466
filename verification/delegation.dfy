/** Authorization rules and their delegation (crates/kas-auth/src/lib.rs). */
module Delegation {
  import opened Paths
  import opened Matching
  import opened Inclusion

  datatype Rule = Rule(manifests: seq<string>, verbs: seq<string>, paths: seq<string>)

  /** The path of a request, when it names one. */
  datatype Target = NoPath | At(path: string)

  predicate ManifestMatches(pattern: string, manifest: string) {
    pattern == "*" || pattern == manifest || PathMatches(pattern, manifest)
  }

  predicate VerbCovers(owned: string, verb: string) {
    owned == "*" || owned == verb
  }

  predicate TargetCovers(paths: seq<string>, target: Target) {
    match target
    case At(path) => paths == [] || exists pattern | pattern in paths :: PathMatches(pattern, path)
    case NoPath => paths == []
  }

  predicate RuleAllows(rule: Rule, manifest: string, verb: string, target: Target) {
    && (exists pattern | pattern in rule.manifests :: ManifestMatches(pattern, manifest))
    && (exists owned | owned in rule.verbs :: VerbCovers(owned, verb))
    && TargetCovers(rule.paths, target)
  }

  predicate Allows(rules: seq<Rule>, manifest: string, verb: string, target: Target) {
    exists rule | rule in rules :: RuleAllows(rule, manifest, verb, target)
  }

  /** What `PathPatternContains` decides. */
  ghost predicate PatternContains(container: string, candidate: string) {
    && ValidPattern(container) && ValidPattern(candidate)
    && Includes(Segments(container), Segments(candidate))
  }

  ghost predicate ManifestPatternContains(container: string, candidate: string) {
    container == "*" || (candidate != "*" && (container == candidate || PatternContains(container, candidate)))
  }

  ghost predicate RuleCovers(rule: Rule, manifest: string, verb: string) {
    && (exists owned | owned in rule.manifests :: ManifestPatternContains(owned, manifest))
    && (exists owned | owned in rule.verbs :: VerbCovers(owned, verb))
  }

  ghost predicate PathOwned(rule: Rule, path: string) {
    rule.paths == [] || exists owned | owned in rule.paths :: PatternContains(owned, path)
  }

  ghost predicate CoveredByCaller(caller: seq<Rule>, manifest: string, verb: string, paths: seq<string>) {
    if paths == [] then
      exists rule | rule in caller :: rule.paths == [] && RuleCovers(rule, manifest, verb)
    else
      forall path | path in paths ::
        exists rule | rule in caller :: RuleCovers(rule, manifest, verb) && PathOwned(rule, path)
  }

  ghost predicate RuleIsSubset(proposed: Rule, caller: seq<Rule>) {
    && (forall path | path in proposed.paths :: ValidPattern(path))
    && (forall manifest | manifest in proposed.manifests :: manifest == "*" || ValidPattern(manifest))
    && (forall manifest, verb | manifest in proposed.manifests && verb in proposed.verbs ::
          CoveredByCaller(caller, manifest, verb, proposed.paths))
  }

  /** `rules_are_subset`. */
  ghost predicate RulesAreSubset(proposed: seq<Rule>, caller: seq<Rule>) {
    forall rule | rule in proposed :: RuleIsSubset(rule, caller)
  }

  // ---- What rules say ----

  /** What is allowed, in terms of the texts: one rule has the Manifest under one of its
      entries, the verb, and, if it lists paths, the path under one of them. */
  lemma AllowsExactly(rules: seq<Rule>, manifest: string, verb: string, target: Target)
    ensures Allows(rules, manifest, verb, target) <==>
            exists k | 0 <= k < |rules| ::
              && (exists pattern | pattern in rules[k].manifests :: pattern in {"*", manifest} || Divides(pattern, manifest))
              && ("*" in rules[k].verbs || verb in rules[k].verbs)
              && (rules[k].paths == []
                  || (target.At? && exists pattern | pattern in rules[k].paths :: Divides(pattern, target.path)))
  {
    forall rule | rule in rules
      ensures RuleAllows(rule, manifest, verb, target) <==>
              && (exists pattern | pattern in rule.manifests :: pattern in {"*", manifest} || Divides(pattern, manifest))
              && ("*" in rule.verbs || verb in rule.verbs)
              && (rule.paths == [] || (target.At? && exists pattern | pattern in rule.paths :: Divides(pattern, target.path)))
    {
      RuleAllowsExactly(rule, manifest, verb, target);
    }
  }

  lemma RuleAllowsExactly(rule: Rule, manifest: string, verb: string, target: Target)
    ensures RuleAllows(rule, manifest, verb, target) <==>
            && (exists pattern | pattern in rule.manifests :: pattern in {"*", manifest} || Divides(pattern, manifest))
            && ("*" in rule.verbs || verb in rule.verbs)
            && (rule.paths == [] || (target.At? && exists pattern | pattern in rule.paths :: Divides(pattern, target.path)))
  {
    hide PathMatches, Divides;
    forall pattern ensures PathMatches(pattern, manifest) <==> Divides(pattern, manifest) {
      MatchesIfDivides(pattern, manifest);
    }
    if target.At? {
      forall pattern ensures PathMatches(pattern, target.path) <==> Divides(pattern, target.path) {
        MatchesIfDivides(pattern, target.path);
      }
    }
    assert "*" in rule.verbs ==> VerbCovers("*", verb);
    assert verb in rule.verbs ==> VerbCovers(verb, verb);
  }

  /** A pattern that is no path: some segment of it is a wildcard. */
  predicate WildcardPattern(manifest: string) {
    ValidPattern(manifest) && !ValidPath(manifest)
  }

  lemma ContainedMatches(container: string, candidate: string, path: string)
    requires PatternContains(container, candidate) && PathMatches(candidate, path)
    ensures PathMatches(container, path)
  {
  }

  lemma CoveringRuleAllows(rule: Rule, pattern: string, owned: string, manifest: string, verb: string)
    requires RuleCovers(rule, pattern, owned)
    requires ManifestMatches(pattern, manifest) && VerbCovers(owned, verb) && !WildcardPattern(manifest)
    ensures exists pattern | pattern in rule.manifests :: ManifestMatches(pattern, manifest)
    ensures exists owned | owned in rule.verbs :: VerbCovers(owned, verb)
  {
    var container :| container in rule.manifests && ManifestPatternContains(container, pattern);
    if container != "*" && container != pattern {
      if pattern == manifest {
        PatternMatchesItself(pattern);
      }
      ContainedMatches(container, pattern, manifest);
    }
    assert ManifestMatches(container, manifest);
    var verbs :| verbs in rule.verbs && VerbCovers(verbs, owned);
    assert VerbCovers(verbs, verb);
  }

  lemma PatternMatchesItself(path: string)
    requires ValidPath(path)
    ensures PathMatches(path, path)
  {
    forall segment | segment in Segments(path) ensures !Wildcard(segment) {
      assert segment != "" ==> PlainByte(segment, 0);
    }
    LiteralMatchesItself(Segments(path), Segments(path), 0, 0);
  }

  /** Delegation is sound: whoever holds only a subset of a caller's rules can do
      nothing the caller could not do, with any Manifest that is no wildcard pattern. */
  lemma DelegationIsSound(proposed: seq<Rule>, caller: seq<Rule>, manifest: string, verb: string, target: Target)
    requires RulesAreSubset(proposed, caller)
    requires !WildcardPattern(manifest)
    requires Allows(proposed, manifest, verb, target)
    ensures Allows(caller, manifest, verb, target)
  {
    var rule :| rule in proposed && RuleAllows(rule, manifest, verb, target);
    var pattern :| pattern in rule.manifests && ManifestMatches(pattern, manifest);
    var owned :| owned in rule.verbs && VerbCovers(owned, verb);
    assert RuleIsSubset(rule, caller);
    assert CoveredByCaller(caller, pattern, owned, rule.paths);
    if rule.paths == [] {
      var covering :| covering in caller && covering.paths == [] && RuleCovers(covering, pattern, owned);
      CoveringRuleAllows(covering, pattern, owned, manifest, verb);
      assert RuleAllows(covering, manifest, verb, target);
    } else {
      var path :| path in rule.paths && PathMatches(path, target.path);
      var covering :| covering in caller && RuleCovers(covering, pattern, owned) && PathOwned(covering, path);
      CoveringRuleAllows(covering, pattern, owned, manifest, verb);
      if covering.paths != [] {
        var container :| container in covering.paths && PatternContains(container, path);
        ContainedMatches(container, path, target.path);
      }
      assert RuleAllows(covering, manifest, verb, target);
    }
  }

  // ---- What counts as a subset ----

  predicate WellFormedRule(rule: Rule) {
    && (forall path | path in rule.paths :: ValidPattern(path))
    && (forall manifest | manifest in rule.manifests :: manifest == "*" || ValidPattern(manifest))
  }

  /** The container is a pattern with, block by block, every word of the candidate's. */
  ghost predicate Wider(container: string, candidate: string) {
    && ValidPattern(container) && ValidPattern(candidate)
    && forall word, cuts | Word(word) && Division(Segments(candidate), word, 0, 0, cuts) ::
         exists wider :: Division(Segments(container), word, 0, 0, wider)
  }

  lemma WiderContainsIt(container: string, candidate: string)
    ensures PatternContains(container, candidate) <==> Wider(container, candidate)
  {
    if ValidPattern(container) && ValidPattern(candidate) {
      forall word ensures Matches(Segments(container), word, 0, 0) <==> exists cuts :: Division(Segments(container), word, 0, 0, cuts) {
        MatchesIffDivision(Segments(container), word, 0, 0);
      }
      forall word ensures Matches(Segments(candidate), word, 0, 0) <==> exists cuts :: Division(Segments(candidate), word, 0, 0, cuts) {
        MatchesIffDivision(Segments(candidate), word, 0, 0);
      }
    }
  }

  /** Each Manifest, verb and path of the rule is in the wide one, under a wildcard for all
      of them, or under a wider pattern. */
  ghost predicate Narrows(rule: Rule, wide: Rule) {
    && (forall manifest | manifest in rule.manifests ::
          || "*" in wide.manifests || manifest in wide.manifests
          || (manifest != "*" && exists owned | owned in wide.manifests :: Wider(owned, manifest)))
    && (forall verb | verb in rule.verbs :: "*" in wide.verbs || verb in wide.verbs)
    && (wide.paths == []
        || (rule.paths != []
            && forall path | path in rule.paths :: path in wide.paths || exists owned | owned in wide.paths :: Wider(owned, path)))
  }

  /** Whoever holds a rule may delegate what is narrower, and so any of his own rules;
      nobody may delegate what is not well formed. */
  lemma NarrowerIsSubset(proposed: seq<Rule>, caller: seq<Rule>)
    requires forall rule | rule in proposed :: exists wide | wide in caller :: Narrows(rule, wide)
    ensures RulesAreSubset(proposed, caller) <==> forall rule | rule in proposed :: WellFormedRule(rule)
  {
    hide Narrows, CoveredByCaller;
    if forall rule | rule in proposed :: WellFormedRule(rule) {
      forall rule, manifest, verb | rule in proposed && manifest in rule.manifests && verb in rule.verbs
        ensures CoveredByCaller(caller, manifest, verb, rule.paths)
      {
        var wide :| wide in caller && Narrows(rule, wide);
        NarrowIsCovered(rule, wide, caller, manifest, verb);
      }
    }
  }

  lemma NarrowIsCovered(rule: Rule, wide: Rule, caller: seq<Rule>, manifest: string, verb: string)
    requires WellFormedRule(rule) && wide in caller && Narrows(rule, wide)
    requires manifest in rule.manifests && verb in rule.verbs
    ensures CoveredByCaller(caller, manifest, verb, rule.paths)
  {
    hide Wider, ValidPattern, PatternContains;
    forall container, candidate ensures PatternContains(container, candidate) <==> Wider(container, candidate) {
      WiderContainsIt(container, candidate);
    }
    assert "*" in wide.manifests ==> ManifestPatternContains("*", manifest);
    assert "*" in wide.verbs ==> VerbCovers("*", verb);
    assert verb in wide.verbs ==> VerbCovers(verb, verb);
    assert RuleCovers(wide, manifest, verb);
    forall path | path in rule.paths ensures PathOwned(wide, path) {
      if path in wide.paths {
        WiderThanItself(path);
      }
    }
  }

  lemma WiderThanItself(pattern: string)
    requires ValidPattern(pattern)
    ensures PatternContains(pattern, pattern)
  {
  }

  lemma HasItsOwnRules(rules: seq<Rule>)
    requires forall rule | rule in rules :: WellFormedRule(rule)
    ensures RulesAreSubset(rules, rules)
  {
    forall rule | rule in rules ensures Narrows(rule, rule) {
    }
    NarrowerIsSubset(rules, rules);
  }

  /** Delegation may be repeated: what may be handed on by somebody who holds a subset
      may be handed on directly. */
  lemma SubsetsCompose(proposed: seq<Rule>, holder: seq<Rule>, caller: seq<Rule>)
    requires RulesAreSubset(proposed, holder) && RulesAreSubset(holder, caller)
    ensures RulesAreSubset(proposed, caller)
  {
    hide CoveredByCaller, ValidPattern;
    forall rule, manifest, verb | rule in proposed && manifest in rule.manifests && verb in rule.verbs
      ensures CoveredByCaller(caller, manifest, verb, rule.paths)
    {
      assert RuleIsSubset(rule, holder);
      CoverComposes(holder, caller, manifest, verb, rule.paths);
    }
  }

  lemma CoverComposes(holder: seq<Rule>, caller: seq<Rule>, manifest: string, verb: string, paths: seq<string>)
    requires RulesAreSubset(holder, caller) && CoveredByCaller(holder, manifest, verb, paths)
    ensures CoveredByCaller(caller, manifest, verb, paths)
  {
    hide ValidPattern, RuleCovers, RulesAreSubset, PatternContains;
    if paths == [] {
      var rule :| rule in holder && rule.paths == [] && RuleCovers(rule, manifest, verb);
      var covering := CoveringOne(holder, caller, rule, manifest, verb, "");
    } else {
      forall path | path in paths
        ensures exists covering | covering in caller :: RuleCovers(covering, manifest, verb) && PathOwned(covering, path)
      {
        var rule :| rule in holder && RuleCovers(rule, manifest, verb) && PathOwned(rule, path);
        var covering := CoveringOne(holder, caller, rule, manifest, verb, path);
      }
    }
  }

  lemma CoveringOne(holder: seq<Rule>, caller: seq<Rule>, rule: Rule, manifest: string, verb: string, path: string)
    returns (covering: Rule)
    requires RulesAreSubset(holder, caller) && rule in holder && RuleCovers(rule, manifest, verb)
    requires rule.paths == [] || PathOwned(rule, path)
    ensures covering in caller && RuleCovers(covering, manifest, verb)
    ensures if rule.paths == [] then covering.paths == [] else PathOwned(covering, path)
  {
    hide ValidPattern;
    assert RuleIsSubset(rule, caller);
    var owned :| owned in rule.manifests && ManifestPatternContains(owned, manifest);
    var verbs :| verbs in rule.verbs && VerbCovers(verbs, verb);
    assert CoveredByCaller(caller, owned, verbs, rule.paths);
    if rule.paths == [] {
      covering :| covering in caller && covering.paths == [] && RuleCovers(covering, owned, verbs);
    } else {
      var within :| within in rule.paths && PatternContains(within, path);
      covering :| covering in caller && RuleCovers(covering, owned, verbs) && PathOwned(covering, within);
      if covering.paths != [] {
        var outer :| outer in covering.paths && PatternContains(outer, within);
        assert PatternContains(outer, path);
      }
    }
    CoversCompose(covering, owned, verbs, manifest, verb);
  }

  lemma CoversCompose(rule: Rule, owned: string, verbs: string, manifest: string, verb: string)
    requires RuleCovers(rule, owned, verbs) && ManifestPatternContains(owned, manifest) && VerbCovers(verbs, verb)
    ensures RuleCovers(rule, manifest, verb)
  {
    hide ValidPattern;
    var outer :| outer in rule.manifests && ManifestPatternContains(outer, owned);
    assert ManifestPatternContains(outer, manifest);
    var all :| all in rule.verbs && VerbCovers(all, verbs);
    assert VerbCovers(all, verb);
  }

  // ---- Manifests that are patterns ----

  /** No rules that pass for a subset give away anything about this Manifest. */
  ghost predicate SoundFor(manifest: string) {
    forall proposed, caller, verb, target | RulesAreSubset(proposed, caller) && Allows(proposed, manifest, verb, target) ::
      Allows(caller, manifest, verb, target)
  }

  /** A pattern that matches every path, and is another text than this one. */
  function WiderPattern(manifest: string): string {
    if manifest == "/**" then "/**/**" else "/**"
  }

  lemma WiderSegments()
    ensures Segments("/**") == ["**"] && Segments("/**/**") == ["**", "**"]
    ensures ValidPattern("/**") && ValidPattern("/**/**")
  {
    SplitOne("**");
    SplitFirst("**", "**");
    assert "/**"[1..] == "**" && "/**/**"[1..] == "**" + "/" + "**";
  }

  lemma {:induction false} DoubleStarsMatch(pattern: seq<string>, word: seq<string>, i: nat, j: nat)
    requires i < |pattern| && j <= |word| && forall segment | segment in pattern :: segment == "**"
    ensures Matches(pattern, word, i, j)
    decreases |pattern| - i + |word| - j
  {
    assert pattern[i] in pattern;
    if j < |word| {
      DoubleStarsMatch(pattern, word, i, j + 1);
    } else if i + 1 < |pattern| {
      DoubleStarsMatch(pattern, word, i + 1, j);
    } else {
      assert Matches(pattern, word, i + 1, j);
    }
  }

  lemma WiderContains(manifest: string)
    requires ValidPattern(manifest)
    ensures PatternContains(WiderPattern(manifest), manifest)
  {
    WiderSegments();
    var container := Segments(WiderPattern(manifest));
    forall word | Word(word) && Matches(Segments(manifest), word, 0, 0) ensures Matches(container, word, 0, 0) {
      DoubleStarsMatch(container, word, 0, 0);
    }
  }

  /** A rule may name a wildcard pattern; the pattern's own text is allowed by equality,
      and the caller's wider pattern does not match it. */
  lemma WildcardPatternEscapes(manifest: string, verb: string)
    requires WildcardPattern(manifest)
    ensures var proposed, caller := [Rule([manifest], [verb], [])], [Rule([WiderPattern(manifest)], [verb], [])];
            && RulesAreSubset(proposed, caller)
            && Allows(proposed, manifest, verb, NoPath) && !Allows(caller, manifest, verb, NoPath)
  {
    var wide := WiderPattern(manifest);
    var proposed, caller := [Rule([manifest], [verb], [])], [Rule([wide], [verb], [])];
    WiderContains(manifest);
    assert ManifestPatternContains(wide, manifest);
    assert wide in caller[0].manifests && manifest in proposed[0].manifests;
    assert verb in caller[0].verbs && VerbCovers(verb, verb) && verb in proposed[0].verbs;
    assert RuleCovers(caller[0], manifest, verb);
    assert caller[0] in caller && proposed[0] in proposed;
    assert ManifestMatches(manifest, manifest) && RuleAllows(proposed[0], manifest, verb, NoPath);
  }

  /** Exactly the wildcard patterns escape delegation: for every other text, a path or
      not, a subset of rules gives no more than the rules. */
  lemma SoundExactly(manifest: string)
    ensures SoundFor(manifest) <==> !WildcardPattern(manifest)
  {
    hide RulesAreSubset, Allows;
    if WildcardPattern(manifest) {
      WildcardPatternEscapes(manifest, "get");
    } else {
      forall proposed, caller, verb, target | RulesAreSubset(proposed, caller) && Allows(proposed, manifest, verb, target)
        ensures Allows(caller, manifest, verb, target)
      {
        DelegationIsSound(proposed, caller, manifest, verb, target);
      }
    }
  }
}
