/** A path pattern as a nondeterministic automaton (crates/kas-auth/src/lib.rs).
    State `i` stands for the suffix `pattern[i..]`; `|pattern|` accepts. */
module Automaton {
  import opened Paths
  import opened Matching
  import opened StateLists

  ghost predicate Stars(pattern: seq<string>, from: nat, to: nat) {
    from <= to <= |pattern| && forall k | from <= k < to :: pattern[k] == "**"
  }

  ghost predicate Skips(pattern: seq<string>, states: set<nat>, to: nat) {
    exists from :: from in states && Stars(pattern, from, to)
  }

  /** The states reachable by skipping over `**` segments. */
  ghost function Closure(pattern: seq<string>, states: set<nat>): set<nat> {
    set to: nat | to <= |pattern| && Skips(pattern, states, to)
  }

  ghost predicate Moves(pattern: seq<string>, states: set<nat>, symbol: string, to: nat)
    requires to <= |pattern|
  {
    || (to in states && to < |pattern| && pattern[to] == "**")
    || (to > 0 && to - 1 in states && Reads(pattern[to - 1], symbol))
  }

  /** The states that reading `symbol` leads to. A `**` stays where it is. */
  ghost function Move(pattern: seq<string>, states: set<nat>, symbol: string): set<nat> {
    set to: nat | to <= |pattern| && Moves(pattern, states, symbol, to)
  }

  ghost predicate Reads(segment: string, symbol: string) {
    segment != "**" && (segment == "*" || segment == symbol)
  }

  ghost function Step(pattern: seq<string>, states: set<nat>, symbol: string): set<nat> {
    Closure(pattern, Move(pattern, states, symbol))
  }

  /** The states after reading the first `j` segments of `word`. */
  ghost function After(pattern: seq<string>, word: seq<string>, j: nat): set<nat>
    requires j <= |word|
  {
    if j == 0 then Closure(pattern, {0}) else Step(pattern, After(pattern, word, j - 1), word[j - 1])
  }

  ghost predicate Followed(pattern: seq<string>, states: seq<nat>, state: nat) {
    state < |pattern| && pattern[state] == "**" ==> state + 1 in states
  }

  ghost predicate StarClosed(pattern: seq<string>, states: seq<nat>, upTo: nat)
    requires upTo <= |states|
  {
    forall k {:trigger Followed(pattern, states, states[k])} | 0 <= k < upTo :: Followed(pattern, states, states[k])
  }

  /** The list holds the closure so far, with the states before `index` done. */
  ghost predicate Growing(pattern: seq<string>, states: seq<nat>, list: seq<nat>, index: nat) {
    && index <= |list|
    && Distinct(list) && Below(list, |pattern| + 1)
    && Elements(states) <= Elements(list) <= Closure(pattern, Elements(states))
    && StarClosed(pattern, list, index)
  }

  /** `epsilon_closure` computes the closure as an increasing list. */
  method EpsilonClosure(pattern: seq<string>, states: seq<nat>) returns (result: seq<nat>)
    requires Distinct(states) && Below(states, |pattern| + 1)
    ensures Increasing(result)
    ensures Elements(result) == Closure(pattern, Elements(states))
  {
    result := states;
    var index := 0;
    ClosureContains(pattern, states);
    while index < |result|
      invariant Growing(pattern, states, result, index)
      decreases |pattern| + 1 - index
    {
      DistinctLength(result, |pattern| + 1);
      var state := result[index];
      if state < |pattern| && pattern[state] == "**" && state + 1 !in result {
        var successor: nat := state + 1;
        GrowingExtends(pattern, states, result, index);
        result := result + [successor];
      } else {
        GrowingSkips(pattern, states, result, index);
      }
      index := index + 1;
    }
    StarClosedIsClosure(pattern, states, result);
    result := Sort(result);
  }

  lemma GrowingSkips(pattern: seq<string>, states: seq<nat>, list: seq<nat>, index: nat)
    requires Growing(pattern, states, list, index) && index < |list|
    requires Followed(pattern, list, list[index])
    ensures Growing(pattern, states, list, index + 1)
  {
  }

  lemma GrowingExtends(pattern: seq<string>, states: seq<nat>, list: seq<nat>, index: nat)
    requires Growing(pattern, states, list, index) && index < |list|
    requires list[index] < |pattern| && pattern[list[index]] == "**" && list[index] + 1 !in list
    ensures var successor: nat := list[index] + 1;
            Growing(pattern, states, list + [successor], index + 1)
  {
    var successor: nat := list[index] + 1;
    var grown := list + [successor];
    assert list[index] in Elements(list);
    ClosureExtends(pattern, Elements(states), list[index]);
    assert Elements(grown) == Elements(list) + {successor};
    SuccessorFollows(pattern, list, index);
    assert forall x | x in grown :: x in list || x == successor;
  }

  lemma ClosureExtends(pattern: seq<string>, states: set<nat>, state: nat)
    requires state in Closure(pattern, states) && state < |pattern| && pattern[state] == "**"
    ensures state + 1 in Closure(pattern, states)
  {
  }

  lemma SuccessorFollows(pattern: seq<string>, list: seq<nat>, index: nat)
    requires index < |list| && StarClosed(pattern, list, index)
    ensures var successor: nat := list[index] + 1;
            StarClosed(pattern, list + [successor], index + 1)
  {
    var successor: nat := list[index] + 1;
    var grown := list + [successor];
    forall k | 0 <= k <= index ensures Followed(pattern, grown, grown[k]) {
      assert k < index ==> Followed(pattern, list, list[k]);
      assert grown[|list|] == successor;
    }
  }

  lemma ClosureContains(pattern: seq<string>, states: seq<nat>)
    requires Below(states, |pattern| + 1)
    ensures Elements(states) <= Closure(pattern, Elements(states))
  {
  }

  lemma StarClosedIsClosure(pattern: seq<string>, states: seq<nat>, list: seq<nat>)
    requires Growing(pattern, states, list, |list|)
    ensures Elements(list) == Closure(pattern, Elements(states))
  {
    forall to | to in Closure(pattern, Elements(states)) ensures to in list {
      var from :| from in Elements(states) && Stars(pattern, from, to);
      assert from in Elements(list);
      ClosedUnderStars(pattern, list, from, to);
    }
  }

  lemma {:induction false} ClosedUnderStars(pattern: seq<string>, states: seq<nat>, from: nat, to: nat)
    requires from <= to && from in states && Stars(pattern, from, to)
    requires StarClosed(pattern, states, |states|)
    ensures to in states
    decreases |pattern| - from
  {
    if from < to {
      var k :| 0 <= k < |states| && states[k] == from;
      assert Followed(pattern, states, states[k]);
      ClosedUnderStars(pattern, states, from + 1, to);
    }
  }

  /** `transition`: one step of the subset construction. */
  method Transition(pattern: seq<string>, states: seq<nat>, symbol: string) returns (result: seq<nat>)
    requires Below(states, |pattern| + 1)
    ensures Increasing(result)
    ensures Elements(result) == Step(pattern, Elements(states), symbol)
  {
    var next: seq<nat> := [];
    for k := 0 to |states|
      invariant Below(next, |pattern| + 1)
      invariant Elements(next) == Move(pattern, Elements(states[..k]), symbol)
    {
      var state := states[k];
      assert state in states;
      assert states[..k + 1] == states[..k] + [state];
      assert Elements(states[..k + 1]) == Elements(states[..k]) + {state};
      ghost var before := next;
      if state == |pattern| {
        continue;
      }
      if pattern[state] == "**" {
        next := next + [state];
        assert Elements(next) == Elements(before) + {state};
      } else if pattern[state] == "*" || pattern[state] == symbol {
        next := next + [state + 1];
        assert Elements(next) == Elements(before) + {state + 1};
      }
    }
    assert states[..|states|] == states;
    next := Dedup(Sort(next));
    result := EpsilonClosure(pattern, next);
  }

  /** The pattern accepts `word[j..]` from one of the states. */
  ghost predicate Accepts(pattern: seq<string>, states: set<nat>, word: seq<string>, j: nat)
    requires j <= |word|
  {
    exists i :: i in states && i <= |pattern| && Matches(pattern, word, i, j)
  }

  lemma {:induction false} SkipStars(pattern: seq<string>, word: seq<string>, from: nat, to: nat, j: nat)
    requires Stars(pattern, from, to) && j <= |word|
    requires Matches(pattern, word, to, j)
    ensures Matches(pattern, word, from, j)
    decreases |pattern| - from
  {
    if from < to {
      SkipStars(pattern, word, from + 1, to, j);
    }
  }

  lemma ClosureAccepts(pattern: seq<string>, states: set<nat>, word: seq<string>, j: nat)
    requires j <= |word|
    ensures Accepts(pattern, Closure(pattern, states), word, j) <==> Accepts(pattern, states, word, j)
  {
    forall i | i in Closure(pattern, states) && Matches(pattern, word, i, j)
      ensures Accepts(pattern, states, word, j)
    {
      var from :| from in states && Stars(pattern, from, i);
      SkipStars(pattern, word, from, i, j);
    }
    forall i | i in states && i <= |pattern| ensures i in Closure(pattern, states) {
      assert Stars(pattern, i, i);
    }
  }

  /** One step reads one segment: the heart of the subset construction. */
  lemma StepAccepts(pattern: seq<string>, states: set<nat>, word: seq<string>, j: nat)
    requires j < |word| && Closure(pattern, states) == states
    ensures Accepts(pattern, states, word, j) <==> Accepts(pattern, Step(pattern, states, word[j]), word, j + 1)
  {
    var moved := Move(pattern, states, word[j]);
    if Accepts(pattern, states, word, j) {
      var i :| i in states && i <= |pattern| && Matches(pattern, word, i, j);
      ReadOne(pattern, states, word, i, j);
    }
    if Accepts(pattern, moved, word, j + 1) {
      var to :| to in moved && to <= |pattern| && Matches(pattern, word, to, j + 1);
      var from := if to in states && to < |pattern| && pattern[to] == "**" then to else to - 1;
      assert Matches(pattern, word, from, j);
    }
    ClosureAccepts(pattern, moved, word, j + 1);
  }

  lemma {:induction false} ReadOne(pattern: seq<string>, states: set<nat>, word: seq<string>, i: nat, j: nat)
    requires j < |word| && Closure(pattern, states) == states
    requires i in states && i <= |pattern| && Matches(pattern, word, i, j)
    ensures Accepts(pattern, Move(pattern, states, word[j]), word, j + 1)
    decreases |pattern| - i
  {
    var moved := Move(pattern, states, word[j]);
    if pattern[i] != "**" {
      assert i + 1 in moved;
    } else if Matches(pattern, word, i, j + 1) {
      assert i in moved;
    } else {
      assert Stars(pattern, i, i + 1);
      assert i + 1 in Closure(pattern, states);
      ReadOne(pattern, states, word, i + 1, j);
    }
  }

  lemma {:induction false} AfterClosed(pattern: seq<string>, word: seq<string>, j: nat)
    requires j <= |word|
    ensures Closure(pattern, After(pattern, word, j)) == After(pattern, word, j)
    ensures forall i | i in After(pattern, word, j) :: i <= |pattern|
  {
  }

  lemma {:induction false} AfterAccepts(pattern: seq<string>, word: seq<string>, j: nat)
    requires j <= |word|
    ensures Matches(pattern, word, 0, 0) <==> Accepts(pattern, After(pattern, word, j), word, j)
  {
    hide Matches, Accepts, Step;
    if j == 0 {
      StartAccepts(pattern, word);
    } else {
      AfterAccepts(pattern, word, j - 1);
      AfterClosed(pattern, word, j - 1);
      StepAccepts(pattern, After(pattern, word, j - 1), word, j - 1);
    }
  }

  lemma StartAccepts(pattern: seq<string>, word: seq<string>)
    ensures Matches(pattern, word, 0, 0) <==> Accepts(pattern, After(pattern, word, 0), word, 0)
  {
    assert Matches(pattern, word, 0, 0) ==> 0 in {0} && Accepts(pattern, {0}, word, 0);
    ClosureAccepts(pattern, {0}, word, 0);
  }

  lemma {:induction false} MatchesNothingLeft(pattern: seq<string>, word: seq<string>, i: nat)
    requires i <= |pattern| && Matches(pattern, word, i, |word|)
    ensures Stars(pattern, i, |pattern|)
    decreases |pattern| - i
  {
    if i < |pattern| {
      MatchesNothingLeft(pattern, word, i + 1);
    }
  }

  /** The automaton accepts exactly the words the matcher matches. */
  lemma AcceptanceIsMatching(pattern: seq<string>, word: seq<string>)
    ensures Matches(pattern, word, 0, 0) <==> |pattern| in After(pattern, word, |word|)
  {
    var states := After(pattern, word, |word|);
    AfterAccepts(pattern, word, |word|);
    AfterClosed(pattern, word, |word|);
    if Matches(pattern, word, 0, 0) {
      var i :| i in states && i <= |pattern| && Matches(pattern, word, i, |word|);
      MatchesNothingLeft(pattern, word, i);
      assert |pattern| in Closure(pattern, states);
    }
  }

  lemma {:induction false} AfterPrefix(pattern: seq<string>, word: seq<string>, more: seq<string>, j: nat)
    requires j <= |word|
    ensures After(pattern, word + more, j) == After(pattern, word, j)
  {
    if j > 0 {
      AfterPrefix(pattern, word, more, j - 1);
      assert (word + more)[j - 1] == word[j - 1];
    }
  }

  lemma AfterSnoc(pattern: seq<string>, word: seq<string>, symbol: string)
    ensures After(pattern, word + [symbol], |word| + 1) == Step(pattern, After(pattern, word, |word|), symbol)
  {
    AfterPrefix(pattern, word, [symbol], |word|);
    assert (word + [symbol])[|word|] == symbol;
  }
}
