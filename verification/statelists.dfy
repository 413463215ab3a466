/** Lists of automaton states: sorting, removing duplicates, and the finite set
    of all increasing lists below a bound (crates/kas-auth/src/lib.rs). */
module StateLists {
  ghost function Elements<T>(s: seq<T>): set<T> {
    set x | x in s
  }

  predicate Distinct<T(==)>(s: seq<T>) {
    forall i, j | 0 <= i < j < |s| :: s[i] != s[j]
  }

  predicate Sorted(s: seq<nat>) {
    forall i, j | 0 <= i < j < |s| :: s[i] <= s[j]
  }

  predicate Increasing(s: seq<nat>) {
    forall i, j | 0 <= i < j < |s| :: s[i] < s[j]
  }

  predicate Below(s: seq<nat>, bound: nat) {
    forall x | x in s :: x < bound
  }

  function Insert(x: nat, s: seq<nat>): (r: seq<nat>)
    requires Sorted(s)
    ensures forall y :: y in r <==> y in s || y == x
    ensures Sorted(r)
    ensures Increasing(s) && x !in s ==> Increasing(r)
  {
    if s == [] || x <= s[0] then [x] + s
    else
      var rest := Insert(x, s[1..]);
      assert forall k | 0 <= k < |rest| :: rest[k] in rest;
      [s[0]] + rest
  }

  /** `sort_unstable` on state lists. */
  function Sort(s: seq<nat>): (r: seq<nat>)
    ensures forall y :: y in r <==> y in s
    ensures Sorted(r)
    ensures Distinct(s) ==> Increasing(r)
  {
    if s == [] then []
    else
      assert Distinct(s) ==> s[0] !in s[1..];
      Insert(s[0], Sort(s[1..]))
  }

  /** `dedup`: drops an element equal to its successor. */
  function Dedup(s: seq<nat>): (r: seq<nat>)
    requires Sorted(s)
    ensures forall y :: y in r <==> y in s
    ensures Increasing(r)
  {
    if |s| <= 1 then s
    else
      var rest := Dedup(s[1..]);
      assert forall k | 0 <= k < |rest| :: rest[k] in s[1..];
      if s[0] == s[1] then rest else [s[0]] + rest
  }

  /** An increasing list is determined by its elements: the canonical form of a set. */
  lemma {:induction false} IncreasingCanonical(s: seq<nat>, t: seq<nat>)
    requires Increasing(s) && Increasing(t) && Elements(s) == Elements(t)
    ensures s == t
  {
    if s == [] {
      assert forall k | 0 <= k < |t| :: t[k] in Elements(t);
    } else {
      assert s[0] in Elements(t) && t != [];
      assert t[0] in Elements(s);
      assert s[0] == t[0];
      assert Elements(s[1..]) == Elements(s) - {s[0]};
      assert Elements(t[1..]) == Elements(t) - {t[0]};
      IncreasingCanonical(s[1..], t[1..]);
      assert s == [s[0]] + s[1..] && t == [t[0]] + t[1..];
    }
  }

  lemma {:induction false} DistinctLength(s: seq<nat>, bound: nat)
    requires Distinct(s) && Below(s, bound)
    ensures |s| <= bound
    decreases bound
  {
    if s == [] {
    } else if s[0] in s && bound - 1 in s {
      var k :| 0 <= k < |s| && s[k] == bound - 1;
      var others := s[..k] + s[k + 1..];
      forall x | x in others ensures x < bound - 1 {
        assert x in s;
      }
      DistinctLength(others, bound - 1);
    } else {
      DistinctLength(s, bound - 1);
    }
  }

  ghost function Snoc(s: seq<nat>, x: nat): seq<nat> {
    s + [x]
  }

  /** All increasing lists of numbers below the bound. */
  ghost function Lists(bound: nat): set<seq<nat>> {
    if bound == 0 then {[]}
    else
      var shorter := Lists(bound - 1);
      shorter + set s | s in shorter :: Snoc(s, bound - 1)
  }

  lemma {:induction false} InLists(s: seq<nat>, bound: nat)
    requires Increasing(s) && Below(s, bound)
    ensures s in Lists(bound)
  {
    if s == [] {
      if bound > 0 {
        InLists(s, bound - 1);
      }
    } else if s[0] in s && s[|s| - 1] == bound - 1 {
      var front := s[..|s| - 1];
      InLists(front, bound - 1);
      assert s == Snoc(front, bound - 1);
    } else {
      forall x | x in s ensures x < bound - 1 {
        assert x <= s[|s| - 1] && s[|s| - 1] in s;
      }
      InLists(s, bound - 1);
    }
  }
}
