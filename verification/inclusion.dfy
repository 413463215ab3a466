/** `path_pattern_contains` (crates/kas-auth/src/lib.rs): does one pattern match
    everything another one matches? A search over pairs of state lists. */
module Inclusion {
  import opened Wrappers
  import opened Paths
  import opened Matching
  import opened StateLists
  import opened Automaton

  /** The symbol that stands for every segment neither pattern names. */
  const OTHER := "\0other"

  /** Every object path the candidate matches is matched by the container. */
  ghost predicate Includes(container: seq<string>, candidate: seq<string>) {
    forall word | Word(word) :: Matches(candidate, word, 0, 0) ==> Matches(container, word, 0, 0)
  }

  /** One item of the work list. */
  datatype Node = Node(candidate: seq<nat>, container: seq<nat>, consumed: bool)

  ghost predicate WellShaped(container: seq<string>, candidate: seq<string>, node: Node) {
    && Increasing(node.candidate) && Below(node.candidate, |candidate| + 1)
    && Increasing(node.container) && Below(node.container, |container| + 1)
  }

  /** The node holds the states of both automata after reading `word`. */
  ghost predicate At(container: seq<string>, candidate: seq<string>, node: Node, word: seq<string>, j: nat)
    requires j <= |word|
  {
    && Elements(node.candidate) == After(candidate, word, j)
    && Elements(node.container) == After(container, word, j)
    && node.consumed == (j > 0)
  }

  ghost predicate Witnessed(container: seq<string>, candidate: seq<string>, node: Node) {
    exists word: seq<string> ::
      (forall segment | segment in word :: PlainSegment(segment)) && At(container, candidate, node, word, |word|)
  }

  /** A non-empty word leads here that the candidate accepts and the container does not. */
  predicate Refutes(container: seq<string>, candidate: seq<string>, node: Node) {
    node.consumed && |candidate| in node.candidate && |container| !in node.container
  }

  /** The successor of the node under the symbol is known, unless the candidate is stuck. */
  ghost predicate Covered(container: seq<string>, candidate: seq<string>, node: Node, symbol: string,
                          known: set<Node>) {
    var states := Step(candidate, Elements(node.candidate), symbol);
    states == {} ||
    exists next :: next in known && next.consumed
                   && Elements(next.candidate) == states
                   && Elements(next.container) == Step(container, Elements(node.container), symbol)
  }

  function Literals(pattern: seq<string>): set<string> {
    set segment | segment in pattern && !Wildcard(segment)
  }

  function Alphabet(container: seq<string>, candidate: seq<string>): set<string> {
    Literals(container) + Literals(candidate) + {OTHER}
  }

  ghost predicate PatternSegments(pattern: seq<string>) {
    pattern != [] && forall segment | segment in pattern :: PatternSegment(segment)
  }

  // ---- Termination: only finitely many nodes are well shaped ----

  ghost function Universe(container: seq<string>, candidate: seq<string>): set<Node> {
    set s, t, consumed | s in Lists(|candidate| + 1) && t in Lists(|container| + 1) && consumed in {false, true} ::
      Node(s, t, consumed)
  }

  lemma InUniverse(container: seq<string>, candidate: seq<string>, node: Node)
    requires WellShaped(container, candidate, node)
    ensures node in Universe(container, candidate)
  {
    InLists(node.candidate, |candidate| + 1);
    InLists(node.container, |container| + 1);
    assert node.consumed in {false, true};
    assert node == Node(node.candidate, node.container, node.consumed);
  }

  // ---- The alphabet: OTHER behaves like any segment that no pattern names ----

  function Representative(alphabet: set<string>, segment: string): string {
    if segment in alphabet then segment else OTHER
  }

  lemma OtherIsNoSegment()
    ensures !PatternSegment(OTHER)
  {
    assert !PlainByte(OTHER, 0);
  }

  lemma SameReading(pattern: seq<string>, alphabet: set<string>, states: set<nat>, segment: string)
    requires PatternSegments(pattern) && Literals(pattern) <= alphabet && OTHER in alphabet
    ensures Step(pattern, states, segment) == Step(pattern, states, Representative(alphabet, segment))
  {
    OtherIsNoSegment();
    var symbol := Representative(alphabet, segment);
    forall k | 0 <= k < |pattern| ensures Reads(pattern[k], segment) <==> Reads(pattern[k], symbol) {
      assert pattern[k] in pattern;
      assert !Wildcard(pattern[k]) ==> pattern[k] in Literals(pattern);
    }
    assert Move(pattern, states, segment) == Move(pattern, states, symbol);
  }

  /** A segment that can stand for OTHER in a real path. */
  ghost predicate Fresh(container: seq<string>, candidate: seq<string>, segment: string) {
    PlainSegment(segment) && segment !in container && segment !in candidate
  }

  function Spell(symbol: string, novel: string): string {
    if symbol == OTHER then novel else symbol
  }

  lemma SameStep(pattern: seq<string>, states: set<nat>, novel: string)
    requires PatternSegments(pattern) && PlainSegment(novel) && novel !in pattern
    ensures Step(pattern, states, OTHER) == Step(pattern, states, novel)
  {
    OtherIsNoSegment();
    forall k | 0 <= k < |pattern| ensures Reads(pattern[k], OTHER) <==> Reads(pattern[k], novel) {
      assert pattern[k] in pattern;
    }
    assert Move(pattern, states, OTHER) == Move(pattern, states, novel);
  }

  // ---- Soundness: when the search runs dry, every run stays inside ----

  ghost predicate Closed(container: seq<string>, candidate: seq<string>, alphabet: set<string>, known: set<Node>) {
    forall node, symbol | node in known && symbol in alphabet :: Covered(container, candidate, node, symbol, known)
  }

  lemma StuckStaysStuck(pattern: seq<string>, word: seq<string>, j: nat)
    requires j < |word|
    ensures After(pattern, word, j) == {} ==> After(pattern, word, j + 1) == {}
  {
  }

  lemma {:induction false} RunVisited(container: seq<string>, candidate: seq<string>, alphabet: set<string>,
                                      known: set<Node>, word: seq<string>, j: nat) returns (node: Node)
    requires PatternSegments(container) && PatternSegments(candidate)
    requires alphabet == Alphabet(container, candidate) && Closed(container, candidate, alphabet, known)
    requires exists start :: start in known && At(container, candidate, start, word, 0)
    requires j <= |word| && After(candidate, word, j) != {}
    ensures node in known && At(container, candidate, node, word, j)
  {
    if j == 0 {
      node :| node in known && At(container, candidate, node, word, 0);
    } else {
      StuckStaysStuck(candidate, word, j - 1);
      var before := RunVisited(container, candidate, alphabet, known, word, j - 1);
      var symbol := Representative(alphabet, word[j - 1]);
      SameReading(candidate, alphabet, Elements(before.candidate), word[j - 1]);
      SameReading(container, alphabet, Elements(before.container), word[j - 1]);
      assert Covered(container, candidate, before, symbol, known);
      node :| node in known && node.consumed
              && Elements(node.candidate) == Step(candidate, Elements(before.candidate), symbol)
              && Elements(node.container) == Step(container, Elements(before.container), symbol);
    }
  }

  /** Holds of every non-empty word over any segments at all, not only valid ones. */
  lemma SearchSound(container: seq<string>, candidate: seq<string>, alphabet: set<string>, known: set<Node>,
                    word: seq<string>)
    requires PatternSegments(container) && PatternSegments(candidate)
    requires alphabet == Alphabet(container, candidate) && Closed(container, candidate, alphabet, known)
    requires exists start :: start in known && At(container, candidate, start, word, 0)
    requires forall node | node in known :: !Refutes(container, candidate, node)
    requires word != [] && Matches(candidate, word, 0, 0)
    ensures Matches(container, word, 0, 0)
  {
    AcceptanceIsMatching(candidate, word);
    AcceptanceIsMatching(container, word);
    var node := RunVisited(container, candidate, alphabet, known, word, |word|);
    assert |candidate| in Elements(node.candidate);
    assert |container| in Elements(node.container);
  }

  // ---- Completeness: a refuting node comes with a real counterexample ----

  lemma RefutationIsReal(container: seq<string>, candidate: seq<string>, node: Node)
    requires Witnessed(container, candidate, node) && Refutes(container, candidate, node)
    ensures !Includes(container, candidate)
  {
    var word: seq<string> :| (forall segment | segment in word :: PlainSegment(segment))
                             && At(container, candidate, node, word, |word|);
    AcceptanceIsMatching(candidate, word);
    AcceptanceIsMatching(container, word);
    assert |candidate| in Elements(node.candidate);
    assert |container| in Elements(node.container) <==> |container| in node.container;
    assert Word(word);
  }

  lemma WitnessExtends(container: seq<string>, candidate: seq<string>, node: Node, symbol: string, next: Node,
                       novel: string)
    requires PatternSegments(container) && PatternSegments(candidate)
    requires Witnessed(container, candidate, node)
    requires symbol in Alphabet(container, candidate) && Fresh(container, candidate, novel)
    requires next.consumed
    requires Elements(next.candidate) == Step(candidate, Elements(node.candidate), symbol)
    requires Elements(next.container) == Step(container, Elements(node.container), symbol)
    ensures Witnessed(container, candidate, next)
  {
    var word: seq<string> :| (forall segment | segment in word :: PlainSegment(segment))
                             && At(container, candidate, node, word, |word|);
    var segment := Spell(symbol, novel);
    SameStep(candidate, Elements(node.candidate), novel);
    SameStep(container, Elements(node.container), novel);
    AfterSnoc(candidate, word, segment);
    AfterSnoc(container, word, segment);
    assert At(container, candidate, next, word + [segment], |word + [segment]|);
  }

  // ---- A fresh segment exists: two patterns of 1024 bytes cannot name 19 long segments ----

  function Unary(length: nat): string {
    seq(length, _ => 'a')
  }

  ghost function LongSegments(pattern: seq<string>): set<string> {
    set segment | segment in pattern && |segment| >= 110
  }

  lemma {:induction false} FewLongSegments(pattern: seq<string>)
    ensures 111 * |LongSegments(pattern)| <= TotalLength(pattern)
  {
    if pattern != [] {
      FewLongSegments(pattern[1..]);
      var rest := LongSegments(pattern[1..]);
      if |pattern[0]| >= 110 {
        assert LongSegments(pattern) == rest + {pattern[0]};
      } else {
        assert LongSegments(pattern) == rest;
      }
    }
  }

  ghost function Candidates(count: nat): set<string>
    requires count <= 19
  {
    if count == 0 then {} else Candidates(count - 1) + {Unary(109 + count)}
  }

  lemma {:induction false} CandidatesAreMany(count: nat)
    requires count <= 19
    ensures |Candidates(count)| == count
    ensures forall segment | segment in Candidates(count) ::
              PlainSegment(segment) && 110 <= |segment| <= 109 + count
  {
    if count > 0 {
      CandidatesAreMany(count - 1);
      assert Unary(109 + count) !in Candidates(count - 1);
    }
  }

  lemma FreshSegmentExists(container: seq<string>, candidate: seq<string>) returns (novel: string)
    requires TotalLength(container) <= MAX_PATH_BYTES && TotalLength(candidate) <= MAX_PATH_BYTES
    ensures Fresh(container, candidate, novel)
  {
    CandidatesAreMany(19);
    FewLongSegments(container);
    FewLongSegments(candidate);
    var named := LongSegments(container) + LongSegments(candidate);
    assert |named| <= |LongSegments(container)| + |LongSegments(candidate)|;
    assert !(Candidates(19) <= named) by {
      if Candidates(19) <= named {
        SubsetSize(Candidates(19), named);
        assert false;
      }
    }
    novel :| novel in Candidates(19) && novel !in named;
  }

  // ---- The search ----

  ghost predicate Progress(container: seq<string>, candidate: seq<string>, alphabet: set<string>,
                           visited: set<Node>, known: set<Node>) {
    && (forall node | node in known :: WellShaped(container, candidate, node) && Witnessed(container, candidate, node))
    && (forall node | node in visited :: !Refutes(container, candidate, node))
    && (forall node, symbol | node in visited && symbol in alphabet :: Covered(container, candidate, node, symbol, known))
    && (exists start :: start in known && Start(container, candidate, start))
  }

  ghost predicate Start(container: seq<string>, candidate: seq<string>, node: Node) {
    && Elements(node.candidate) == Closure(candidate, {0})
    && Elements(node.container) == Closure(container, {0})
    && !node.consumed
  }

  lemma InitialProgress(container: seq<string>, candidate: seq<string>, alphabet: set<string>, start: Node)
    requires Increasing(start.candidate) && Elements(start.candidate) == Closure(candidate, Elements([0 as nat]))
    requires Increasing(start.container) && Elements(start.container) == Closure(container, Elements([0 as nat]))
    requires !start.consumed
    ensures Progress(container, candidate, alphabet, {}, {start})
  {
    assert Elements([0 as nat]) == {0};
    ClosureBounded(candidate, {0}, start.candidate);
    ClosureBounded(container, {0}, start.container);
    assert At(container, candidate, start, [], 0);
    assert Start(container, candidate, start);
  }

  lemma KnownNode(container: seq<string>, candidate: seq<string>, alphabet: set<string>,
                  visited: set<Node>, known: set<Node>, node: Node)
    requires Progress(container, candidate, alphabet, visited, known) && node in known
    ensures WellShaped(container, candidate, node) && Witnessed(container, candidate, node)
  {
  }

  lemma Exhausted(container: seq<string>, candidate: seq<string>, alphabet: set<string>, visited: set<Node>)
    requires PatternSegments(container) && PatternSegments(candidate)
    requires alphabet == Alphabet(container, candidate)
    requires Progress(container, candidate, alphabet, visited, visited)
    ensures Includes(container, candidate)
    ensures forall word: seq<string> | word != [] :: Matches(candidate, word, 0, 0) ==> Matches(container, word, 0, 0)
  {
    var start :| start in visited && Start(container, candidate, start);
    forall word: seq<string> | word != [] && Matches(candidate, word, 0, 0) ensures Matches(container, word, 0, 0) {
      assert At(container, candidate, start, word, 0);
      SearchSound(container, candidate, alphabet, visited, word);
    }
  }

  method Search(container: seq<string>, candidate: seq<string>) returns (contained: bool)
    requires PatternSegments(container) && PatternSegments(candidate)
    requires TotalLength(container) <= MAX_PATH_BYTES && TotalLength(candidate) <= MAX_PATH_BYTES
    ensures contained <==> Includes(container, candidate)
    ensures contained ==> forall word: seq<string> | word != [] ::
                Matches(candidate, word, 0, 0) ==> Matches(container, word, 0, 0)
  {
    hide Progress, Includes, PatternSegments, Fresh, Universe, WellShaped, Witnessed, TotalLength, Alphabet;
    var alphabet := Alphabet(container, candidate);
    ghost var novel := FreshSegmentExists(container, candidate);
    var candidateStart := EpsilonClosure(candidate, [0]);
    var containerStart := EpsilonClosure(container, [0]);
    var start := Node(candidateStart, containerStart, false);
    var pending, visited := [start], {};
    ghost var known := {start};
    InitialProgress(container, candidate, alphabet, start);
    while pending != []
      invariant known == visited + Elements(pending)
      invariant Progress(container, candidate, alphabet, visited, known)
      decreases Universe(container, candidate) - visited, |pending|
    {
      var node := pending[0];
      assert node in known;
      assert Elements(pending) == {node} + Elements(pending[1..]);
      pending := pending[1..];
      if node in visited {
        continue;
      }
      KnownNode(container, candidate, alphabet, visited, known, node);
      InUniverse(container, candidate, node);
      if Refutes(container, candidate, node) {
        RefutationIsReal(container, candidate, node);
        return false;
      }
      pending, known := Expand(container, candidate, alphabet, node, pending, visited + {node}, known, novel);
      visited := visited + {node};
    }
    assert known == visited;
    Exhausted(container, candidate, alphabet, visited);
    contained := true;
  }

  /** The work item for the states reached from `node` under the symbol, if the candidate
      reaches any. */
  ghost predicate Follows(container: seq<string>, candidate: seq<string>, node: Node, symbol: string, next: Node) {
    && next.consumed && next.candidate != [] && Increasing(next.candidate) && Increasing(next.container)
    && Elements(next.candidate) == Step(candidate, Elements(node.candidate), symbol)
    && Elements(next.container) == Step(container, Elements(node.container), symbol)
  }

  ghost predicate Successor(container: seq<string>, candidate: seq<string>, symbols: set<string>, node: Node,
                            next: Node) {
    exists symbol | symbol in symbols :: Follows(container, candidate, node, symbol, next)
  }

  /** The inner loop: behind what is queued, exactly the successors of the node under all
      symbols are queued. */
  method Expand(container: seq<string>, candidate: seq<string>, alphabet: set<string>, node: Node,
                before: seq<Node>, ghost visited: set<Node>, ghost knownBefore: set<Node>, ghost novel: string)
    returns (pending: seq<Node>, ghost known: set<Node>)
    requires PatternSegments(container) && PatternSegments(candidate)
    requires alphabet == Alphabet(container, candidate) && Fresh(container, candidate, novel)
    requires node in knownBefore && node in visited && !Refutes(container, candidate, node)
    requires knownBefore == visited + Elements(before)
    requires Progress(container, candidate, alphabet, visited - {node}, knownBefore)
    ensures known == visited + Elements(pending)
    ensures Progress(container, candidate, alphabet, visited, known)
    ensures |before| <= |pending| && pending[..|before|] == before
    ensures forall next :: next in pending[|before|..] <==> Successor(container, candidate, alphabet, node, next)
  {
    hide Progress, Witnessed, Refutes, PatternSegments, Fresh, Alphabet, Covered, Closure, Move, Follows;
    pending, known := before, knownBefore;
    var todo := alphabet;
    while todo != {}
      invariant todo <= alphabet
      invariant known == visited + Elements(pending) && node in known
      invariant Progress(container, candidate, alphabet, visited - {node}, known)
      invariant forall symbol | symbol in alphabet - todo :: Covered(container, candidate, node, symbol, known)
      invariant |before| <= |pending| && pending[..|before|] == before
      invariant forall next :: next in pending[|before|..] <==> Successor(container, candidate, alphabet - todo, node, next)
    {
      var symbol :| symbol in todo;
      OneMoreSymbol(container, candidate, alphabet - todo, node, symbol);
      assert alphabet - (todo - {symbol}) == alphabet - todo + {symbol};
      todo := todo - {symbol};
      KnownNode(container, candidate, alphabet, visited - {node}, known, node);
      var nextCandidate := Transition(candidate, node.candidate, symbol);
      if nextCandidate == [] {
        NothingToCover(container, candidate, node, symbol, known);
        NothingFollows(container, candidate, node, symbol);
        continue;
      }
      var nextContainer := Transition(container, node.container, symbol);
      var next := Node(nextCandidate, nextContainer, true);
      NextNode(container, candidate, node, symbol, next, novel, known);
      OnlyNext(container, candidate, node, symbol, next);
      assert (pending + [next])[|before|..] == pending[|before|..] + [next];
      assert Elements(pending + [next]) == Elements(pending) + {next};
      KnownGrows(container, candidate, alphabet, visited - {node}, known, next);
      forall other | other in alphabet - todo ensures Covered(container, candidate, node, other, known + {next}) {
        if other != symbol {
          CoveredGrows(container, candidate, node, other, known, next);
        }
      }
      pending, known := pending + [next], known + {next};
    }
    NodeDone(container, candidate, alphabet, visited, known, node);
  }

  lemma OneMoreSymbol(container: seq<string>, candidate: seq<string>, symbols: set<string>, node: Node, symbol: string)
    ensures forall next :: Successor(container, candidate, symbols + {symbol}, node, next) <==>
                           Successor(container, candidate, symbols, node, next) || Follows(container, candidate, node, symbol, next)
  {
    hide Follows;
  }

  lemma NothingFollows(container: seq<string>, candidate: seq<string>, node: Node, symbol: string)
    requires Step(candidate, Elements(node.candidate), symbol) == {}
    ensures forall next :: !Follows(container, candidate, node, symbol, next)
  {
    hide Step;
    forall next ensures !Follows(container, candidate, node, symbol, next) {
      assert next.candidate != [] ==> next.candidate[0] in Elements(next.candidate);
    }
  }

  /** State lists are canonical, so one item follows under a symbol and no other. */
  lemma OnlyNext(container: seq<string>, candidate: seq<string>, node: Node, symbol: string, next: Node)
    requires next.consumed && next.candidate != [] && Increasing(next.candidate) && Increasing(next.container)
    requires Elements(next.candidate) == Step(candidate, Elements(node.candidate), symbol)
    requires Elements(next.container) == Step(container, Elements(node.container), symbol)
    ensures forall other :: Follows(container, candidate, node, symbol, other) <==> other == next
  {
    hide Step, Increasing;
    forall other | Follows(container, candidate, node, symbol, other) ensures other == next {
      IncreasingCanonical(other.candidate, next.candidate);
      IncreasingCanonical(other.container, next.container);
    }
  }

  /** No state of the candidate is left: there is nothing to follow. */
  lemma NothingToCover(container: seq<string>, candidate: seq<string>, node: Node, symbol: string, known: set<Node>)
    requires Step(candidate, Elements(node.candidate), symbol) == {}
    ensures Covered(container, candidate, node, symbol, known)
  {
  }

  lemma NextNode(container: seq<string>, candidate: seq<string>, node: Node, symbol: string, next: Node,
                 novel: string, known: set<Node>)
    requires PatternSegments(container) && PatternSegments(candidate) && Fresh(container, candidate, novel)
    requires symbol in Alphabet(container, candidate)
    requires WellShaped(container, candidate, node) && Witnessed(container, candidate, node)
    requires next.consumed && next.candidate != [] && Increasing(next.candidate) && Increasing(next.container)
    requires Elements(next.candidate) == Step(candidate, Elements(node.candidate), symbol)
    requires Elements(next.container) == Step(container, Elements(node.container), symbol)
    ensures WellShaped(container, candidate, next) && Witnessed(container, candidate, next)
    ensures Covered(container, candidate, node, symbol, known + {next})
  {
    WitnessExtends(container, candidate, node, symbol, next, novel);
    ClosureBounded(candidate, Move(candidate, Elements(node.candidate), symbol), next.candidate);
    ClosureBounded(container, Move(container, Elements(node.container), symbol), next.container);
  }

  lemma NodeDone(container: seq<string>, candidate: seq<string>, alphabet: set<string>, visited: set<Node>,
                 known: set<Node>, node: Node)
    requires Progress(container, candidate, alphabet, visited - {node}, known)
    requires !Refutes(container, candidate, node)
    requires forall symbol | symbol in alphabet :: Covered(container, candidate, node, symbol, known)
    ensures Progress(container, candidate, alphabet, visited, known)
  {
    hide WellShaped, Witnessed, Refutes, Covered;
  }

  lemma ClosureBounded(pattern: seq<string>, states: set<nat>, list: seq<nat>)
    requires Elements(list) == Closure(pattern, states)
    ensures Below(list, |pattern| + 1)
  {
    assert forall state | state in list :: state in Elements(list);
  }

  lemma CoveredGrows(container: seq<string>, candidate: seq<string>, node: Node, symbol: string, known: set<Node>,
                     next: Node)
    requires Covered(container, candidate, node, symbol, known)
    ensures Covered(container, candidate, node, symbol, known + {next})
  {
  }

  lemma KnownGrows(container: seq<string>, candidate: seq<string>, alphabet: set<string>,
                   visited: set<Node>, known: set<Node>, next: Node)
    requires Progress(container, candidate, alphabet, visited, known)
    requires WellShaped(container, candidate, next) && Witnessed(container, candidate, next)
    ensures Progress(container, candidate, alphabet, visited, known + {next})
  {
    var start :| start in known && Start(container, candidate, start);
    assert start in known + {next};
    forall node, symbol | node in visited && symbol in alphabet
      ensures Covered(container, candidate, node, symbol, known + {next})
    {
      CoveredGrows(container, candidate, node, symbol, known, next);
    }
  }

  /** `path_pattern_contains`. Inclusion is over all paths of valid segments; that a
      path may not exceed 1024 bytes in total is not taken into account. */
  method PathPatternContains(container: string, candidate: string) returns (contained: bool)
    ensures contained <==>
            && ValidPattern(container) && ValidPattern(candidate)
            && Includes(Segments(container), Segments(candidate))
  {
    var containerVerdict := ValidateAbsolute(container, true);
    var candidateVerdict := ValidateAbsolute(candidate, true);
    if containerVerdict != Valid || candidateVerdict != Valid {
      return false;
    }
    SplitLength(container[1..]);
    SplitLength(candidate[1..]);
    contained := Search(Segments(container), Segments(candidate));
  }
}
