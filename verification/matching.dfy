/** Pattern matching over path segments (crates/kas-core/src/path.rs): the
    memoised matcher, and what `*` and `**` mean. */
module Matching {
  import opened Paths

  /** The value the matcher computes for the suffixes `pattern[i..]` and `path[j..]`. */
  predicate Matches(pattern: seq<string>, path: seq<string>, i: nat, j: nat)
    requires i <= |pattern| && j <= |path|
    decreases |pattern| - i + |path| - j
  {
    if i == |pattern| then
      j == |path|
    else if pattern[i] == "**" then
      Matches(pattern, path, i + 1, j) || (j < |path| && Matches(pattern, path, i, j + 1))
    else
      && j < |path|
      && (pattern[i] == "*" || pattern[i] == path[j])
      && Matches(pattern, path, i + 1, j + 1)
  }

  /** A division of `path[j..]` into consecutive blocks, one for every segment of
      `pattern[i..]`: block `k` is `path[cuts[k]..cuts[k + 1]]`. A `**` takes any
      block, a `*` any block of length one, a literal the block made of itself. */
  ghost predicate Division(pattern: seq<string>, path: seq<string>, i: nat, j: nat, cuts: seq<nat>)
    requires i <= |pattern| && j <= |path|
  {
    && |cuts| == |pattern| - i + 1
    && cuts[0] == j && cuts[|pattern| - i] == |path|
    && forall k | 0 <= k < |pattern| - i :: Block(pattern[i + k], path, cuts[k], cuts[k + 1])
  }

  ghost predicate Block(segment: string, path: seq<string>, from: nat, to: nat) {
    && from <= to <= |path|
    && (segment == "**" || (to == from + 1 && (segment == "*" || segment == path[from])))
  }

  /** The recursion decides whether such a division exists. */
  lemma {:induction false} MatchesIffDivision(pattern: seq<string>, path: seq<string>, i: nat, j: nat)
    requires i <= |pattern| && j <= |path|
    ensures Matches(pattern, path, i, j) <==> exists cuts :: Division(pattern, path, i, j, cuts)
  {
    if Matches(pattern, path, i, j) {
      var cuts := FindDivision(pattern, path, i, j);
    }
    if cuts :| Division(pattern, path, i, j, cuts) {
      DivisionMatches(pattern, path, i, j, cuts);
    }
  }

  lemma {:induction false} FindDivision(pattern: seq<string>, path: seq<string>, i: nat, j: nat)
    returns (cuts: seq<nat>)
    requires i <= |pattern| && j <= |path|
    requires Matches(pattern, path, i, j)
    ensures Division(pattern, path, i, j, cuts)
    decreases |pattern| - i + |path| - j
  {
    if i == |pattern| {
      cuts := [j];
    } else if pattern[i] == "**" && !Matches(pattern, path, i + 1, j) {
      var rest := FindDivision(pattern, path, i, j + 1);
      cuts := [j] + rest[1..];
      assert Block(pattern[i + 0], path, rest[0], rest[1]);
      forall k | 0 <= k < |pattern| - i ensures Block(pattern[i + k], path, cuts[k], cuts[k + 1]) {
        assert Block(pattern[i + k], path, rest[k], rest[k + 1]);
      }
    } else {
      var rest := FindDivision(pattern, path, i + 1, if pattern[i] == "**" then j else j + 1);
      cuts := [j] + rest;
      forall k | 0 <= k < |pattern| - i ensures Block(pattern[i + k], path, cuts[k], cuts[k + 1]) {
        if k > 0 {
          assert Block(pattern[i + 1 + (k - 1)], path, rest[k - 1], rest[k]);
        }
      }
    }
  }

  lemma {:induction false} DivisionMatches(pattern: seq<string>, path: seq<string>, i: nat, j: nat, cuts: seq<nat>)
    requires i <= |pattern| && j <= |path|
    requires Division(pattern, path, i, j, cuts)
    ensures Matches(pattern, path, i, j)
    decreases |pattern| - i + |path| - j
  {
    if i < |pattern| {
      assert Block(pattern[i + 0], path, cuts[0], cuts[1]);
      if pattern[i] == "**" && cuts[1] > j {
        var later := cuts[0 := j + 1];
        forall k | 0 <= k < |pattern| - i ensures Block(pattern[i + k], path, later[k], later[k + 1]) {
          assert Block(pattern[i + k], path, cuts[k], cuts[k + 1]);
        }
        DivisionMatches(pattern, path, i, j + 1, later);
      } else {
        var later := cuts[1..];
        forall k | 0 <= k < |pattern| - (i + 1) ensures Block(pattern[i + 1 + k], path, later[k], later[k + 1]) {
          assert Block(pattern[i + (k + 1)], path, cuts[k + 1], cuts[k + 2]);
        }
        DivisionMatches(pattern, path, i + 1, cuts[1], later);
      }
    }
  }

  /** A pattern without wildcards matches only itself. */
  lemma {:induction false} LiteralMatchesItself(pattern: seq<string>, path: seq<string>, i: nat, j: nat)
    requires i <= |pattern| && j <= |path|
    requires forall segment | segment in pattern :: !Wildcard(segment)
    ensures Matches(pattern, path, i, j) <==> pattern[i..] == path[j..]
    decreases |pattern| - i
  {
    if i < |pattern| {
      assert pattern[i] in pattern;
      assert pattern[i..] == [pattern[i]] + pattern[i + 1..];
      if j < |path| {
        LiteralMatchesItself(pattern, path, i + 1, j + 1);
        assert path[j..] == [path[j]] + path[j + 1..];
      }
    }
  }

  /** `path_matches`, as a predicate on texts. */
  predicate PathMatches(pattern: string, path: string) {
    ValidPattern(pattern) && ValidPath(path) && Matches(Segments(pattern), Segments(path), 0, 0)
  }

  /** `resource_path_matches`: a lone `*` also selects everything. */
  predicate ResourcePathMatches(pattern: string, path: string) {
    pattern == "*" || PathMatches(pattern, path)
  }

  /** The path can be cut into blocks, one for each segment of the pattern. */
  ghost predicate Divides(pattern: string, path: string) {
    && ValidPattern(pattern) && ValidPath(path)
    && exists cuts :: Division(Segments(pattern), Segments(path), 0, 0, cuts)
  }

  lemma MatchesIfDivides(pattern: string, path: string)
    ensures PathMatches(pattern, path) <==> Divides(pattern, path)
  {
    if ValidPattern(pattern) && ValidPath(path) {
      MatchesIffDivision(Segments(pattern), Segments(path), 0, 0);
    }
  }

  /** A selector without a `*` selects one path and no other. */
  lemma ExactSelector(pattern: string, path: string)
    requires '*' !in pattern
    ensures ResourcePathMatches(pattern, path) ==> pattern == path
    ensures ValidPath(pattern) ==> ResourcePathMatches(pattern, pattern)
  {
    if pattern != "" && pattern[0] == '/' {
      forall segment | segment in Segments(pattern) ensures !Wildcard(segment) {
        if Wildcard(segment) {
          SegmentCharacters(pattern[1..], segment, '*');
        }
      }
      LiteralMatchesItself(Segments(pattern), Segments(pattern), 0, 0);
      if PathMatches(pattern, path) {
        LiteralMatchesItself(Segments(pattern), Segments(path), 0, 0);
        SegmentsInjective(pattern, path);
      }
    }
  }

  datatype Cell = Unknown | Known(result: bool)

  /** Every filled cell of the table holds the true answer for its suffix pair. */
  ghost predicate Sound(memo: array2<Cell>, pattern: seq<string>, path: seq<string>)
    reads memo
  {
    && memo.Length0 == |pattern| + 1 && memo.Length1 == |path| + 1
    && forall i: nat, j: nat | i <= |pattern| && j <= |path| && memo[i, j].Known? ::
         memo[i, j].result == Matches(pattern, path, i, j)
  }

  /** `matches_segments`: fills the table in place on its way to the answer. */
  method MatchesSegments(pattern: seq<string>, path: seq<string>, i: nat, j: nat, memo: array2<Cell>)
    returns (result: bool)
    requires i <= |pattern| && j <= |path|
    requires Sound(memo, pattern, path)
    modifies memo
    ensures Sound(memo, pattern, path)
    ensures result == Matches(pattern, path, i, j)
    ensures memo[i, j] == Known(result)
    ensures forall k: nat, l: nat | k <= |pattern| && l <= |path| && old(memo[k, l]).Known? ::
              memo[k, l] == old(memo[k, l])
    decreases |pattern| - i + |path| - j
  {
    if memo[i, j].Known? {
      return memo[i, j].result;
    }
    if i == |pattern| {
      result := j == |path|;
    } else if pattern[i] == "**" {
      result := MatchesSegments(pattern, path, i + 1, j, memo);
      if !result && j < |path| {
        result := MatchesSegments(pattern, path, i, j + 1, memo);
      }
    } else {
      result := j < |path| && (pattern[i] == "*" || pattern[i] == path[j]);
      if result {
        result := MatchesSegments(pattern, path, i + 1, j + 1, memo);
      }
    }
    memo[i, j] := Known(result);
  }

  method DecidePathMatches(pattern: string, path: string) returns (result: bool)
    ensures result <==> PathMatches(pattern, path)
    ensures result <==>
            && ValidPattern(pattern) && ValidPath(path)
            && exists cuts :: Division(Segments(pattern), Segments(path), 0, 0, cuts)
  {
    var patternVerdict := ValidateAbsolute(pattern, true);
    var pathVerdict := ValidateAbsolute(path, false);
    if patternVerdict != Valid || pathVerdict != Valid {
      return false;
    }
    var patternSegments, pathSegments := Segments(pattern), Segments(path);
    var memo := new Cell[|patternSegments| + 1, |pathSegments| + 1]((_, _) => Unknown);
    result := MatchesSegments(patternSegments, pathSegments, 0, 0, memo);
    MatchesIffDivision(patternSegments, pathSegments, 0, 0);
  }
}
