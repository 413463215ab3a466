/** Removing a row (`hard_delete_resource`, `maybe_finish_deleted_resource` in
    crates/kas-store/src/lib.rs).

    A row takes its Runs with it, and may let the Resources its Link depended on finish
    their own deletion. The order in which rows go is given by the single removals. */
module Cascade {
  import opened Wrappers
  import opened Resources
  import opened Control

  datatype Kind = Plain | LinkOf(relation: string, source: string, target: string) | RunOf(subject: string)

  datatype Row = Row(kind: Kind, resource: Resource)

  type Rows = map<string, Row>

  predicate Deleting(row: Row) {
    row.resource.desired.metadata.state == STATE_DELETED
  }

  /** The row is a Link whose validity depends on this path. */
  predicate References(row: Row, path: string) {
    row.kind.LinkOf? && (row.kind.relation == path || row.kind.source == path || row.kind.target == path)
  }

  predicate HasDependentLinks(rows: Rows, path: string) {
    exists q | q in rows :: References(rows[q], path)
  }

  /** The condition under which a deletion is finished. */
  predicate Finishable(rows: Rows, path: string) {
    path in rows && Finished(rows[path].resource) && !HasDependentLinks(rows, path)
  }

  function Dependencies(row: Row): set<string> {
    if row.kind.LinkOf? then {row.kind.relation, row.kind.source, row.kind.target} else {}
  }

  // ---- Runs are always newer than what they run on ----

  ghost function Rank(rank: map<string, nat>, path: string): nat {
    if path in rank then rank[path] else 0
  }

  /** Every Run's target exists, and the targets of Runs form no cycle. */
  ghost predicate Grounded(rows: Rows, rank: map<string, nat>, top: nat) {
    forall p | p in rows ::
      && Rank(rank, p) <= top
      && (rows[p].kind.RunOf? ==> rows[p].kind.subject in rows && Rank(rank, rows[p].kind.subject) < Rank(rank, p))
  }

  /** Enqueuing a Run for an existing Resource cannot close a cycle. */
  lemma EnqueuingStaysGrounded(rows: Rows, rank: map<string, nat>, top: nat, run: string, row: Row)
    returns (rank': map<string, nat>, top': nat)
    requires Grounded(rows, rank, top) && run !in rows && row.kind.RunOf? && row.kind.subject in rows
    ensures Grounded(rows[run := row], rank', top')
  {
    rank', top' := rank[run := Rank(rank, row.kind.subject) + 1], top + 1;
    assert forall p | p in rows :: Rank(rank', p) == Rank(rank, p);
  }

  // ---- What a cascade may do ----

  /** Nothing differs but the revision and the observations. */
  predicate SameLink(row: Row, row': Row) {
    && row'.kind == row.kind && row'.resource.path == row.resource.path
    && row'.resource.desired.spec == row.resource.desired.spec
    && row'.resource.desired.metadata == row.resource.desired.metadata.(revision := row'.resource.desired.metadata.revision)
    && row'.resource.status.metadata == row.resource.status.metadata && row'.resource.status.spec == row.resource.status.spec
  }

  /** A Link that is not being deleted moves to a new revision when a Resource it
      depends on goes. */
  ghost predicate Kept(drivers: map<string, Driver>, rows: Rows, rows': Rows, q: string)
    requires q in rows && q in rows'
  {
    || rows'[q] == rows[q]
    || (&& rows[q].kind.LinkOf? && SameLink(rows[q], rows'[q]) && !Deleting(rows[q]) && !Deleting(rows'[q])
        && rows[q].resource.Revision() < rows'[q].resource.Revision() && Observed(drivers, rows'[q].resource)
        && exists gone | gone in rows && gone !in rows' :: References(rows[q], gone))
  }

  ghost predicate Shrinks(drivers: map<string, Driver>, rows: Rows, rows': Rows) {
    rows'.Keys <= rows.Keys && forall q | q in rows' :: Kept(drivers, rows, rows', q)
  }

  /** Every Link that outlives something it depends on is handed to its Drivers again. */
  ghost predicate LinksTold(drivers: map<string, Driver>, rows: Rows, rows': Rows) {
    forall q, gone | q in rows' && q in rows && gone in rows && gone !in rows' && References(rows[q], gone) && !Deleting(rows[q]) ::
      rows[q].resource.Revision() < rows'[q].resource.Revision() && Observed(drivers, rows'[q].resource)
  }

  /** It ran on something removed. */
  ghost predicate LostItsSubject(rows: Rows, rows': Rows, p: string)
    requires p in rows
  {
    rows[p].kind.RunOf? && rows[p].kind.subject in rows && rows[p].kind.subject !in rows'
  }

  // ---- One removal after the other ----

  function Bumped(drivers: map<string, Driver>, row: Row): Row {
    var metadata := row.resource.desired.metadata;
    var desired := row.resource.desired.(metadata := metadata.(revision := metadata.revision + 1));
    row.(resource := Reobserve(drivers, row.resource.(desired := desired)))
  }

  /** The table without the row, its dependent Links at their new revision. */
  function Removal(drivers: map<string, Driver>, rows: Rows, path: string): Rows {
    map q | q in rows && q != path ::
      if References(rows[q], path) && !Deleting(rows[q]) then Bumped(drivers, rows[q]) else rows[q]
  }

  /** The table after these rows were removed, in this order. */
  function Table(drivers: map<string, Driver>, rows: Rows, order: seq<string>): Rows {
    if order == [] then rows
    else Removal(drivers, Table(drivers, rows, order[..|order| - 1]), order[|order| - 1])
  }

  /** Why a row goes: it was asked for, it runs on something that goes later, or at this
      very moment its deletion has finished and no Link depends on it. */
  ghost predicate Reason(table: Rows, p: string, later: seq<string>, asked: Option<string>) {
    && p in table
    && (|| asked == Some(p)
        || (table[p].kind.RunOf? && table[p].kind.subject in later)
        || Finishable(table, p))
  }

  ghost predicate Reasoned(drivers: map<string, Driver>, rows: Rows, order: seq<string>, asked: Option<string>,
                           tail: seq<string>) {
    forall k | 0 <= k < |order| :: Reason(Table(drivers, rows, order[..k]), order[k], order[k + 1..] + tail, asked)
  }

  ghost predicate OnlyRuns(rows: Rows, rows': Rows, path: string, rank: map<string, nat>) {
    forall p | p in rows && p !in rows' :: Rank(rank, path) <= Rank(rank, p) && (p == path || LostItsSubject(rows, rows', p))
  }

  ghost predicate NothingNewToFinish(rows: Rows, rows': Rows) {
    forall q | Finishable(rows', q) :: Finishable(rows, q)
  }

  ghost predicate Cascaded(drivers: map<string, Driver>, rows: Rows, rows': Rows, rank: map<string, nat>, top: nat) {
    && Shrinks(drivers, rows, rows') && LinksTold(drivers, rows, rows')
    && NothingNewToFinish(rows, rows') && Grounded(rows', rank, top)
  }

  // ---- Composition ----

  lemma ShrinksTransitive(drivers: map<string, Driver>, a: Rows, b: Rows, c: Rows)
    requires Shrinks(drivers, a, b) && Shrinks(drivers, b, c)
    ensures Shrinks(drivers, a, c)
  {
  }

  lemma LinksToldTransitive(drivers: map<string, Driver>, a: Rows, b: Rows, c: Rows)
    requires Shrinks(drivers, a, b) && Shrinks(drivers, b, c) && LinksTold(drivers, a, b) && LinksTold(drivers, b, c)
    ensures LinksTold(drivers, a, c)
  {
  }

  lemma FewerLinks(drivers: map<string, Driver>, a: Rows, b: Rows, path: string)
    requires Shrinks(drivers, a, b)
    ensures HasDependentLinks(b, path) ==> HasDependentLinks(a, path)
  {
  }

  /** Only live Links change, so what is finished was finished before. */
  lemma FinishedBefore(drivers: map<string, Driver>, a: Rows, b: Rows, q: string)
    requires Shrinks(drivers, a, b) && q in b
    ensures Finished(b[q].resource) == Finished(a[q].resource) && b[q].kind == a[q].kind
  {
  }

  lemma {:induction false} TableConcat(drivers: map<string, Driver>, rows: Rows, first: seq<string>,
                                       second: seq<string>)
    ensures Table(drivers, rows, first + second) == Table(drivers, Table(drivers, rows, first), second)
  {
    hide Removal;
    if second == [] {
      assert first + second == first;
    } else {
      TableConcat(drivers, rows, first, second[..|second| - 1]);
      assert (first + second)[..|first + second| - 1] == first + second[..|second| - 1];
    }
  }

  /** The orders of two stretches make one order. */
  lemma ReasonsConcat(drivers: map<string, Driver>, rows: Rows, first: seq<string>, second: seq<string>,
                      asked: Option<string>, asked': Option<string>, tail: seq<string>, tail': seq<string>)
    requires Reasoned(drivers, rows, first, asked, tail') && Reasoned(drivers, Table(drivers, rows, first), second, asked', tail)
    requires (forall p | p in tail' :: p in second + tail) && (asked.None? || asked == asked' || asked'.None?)
    ensures Reasoned(drivers, rows, first + second, if asked.Some? then asked else asked', tail)
    ensures Table(drivers, rows, first + second) == Table(drivers, Table(drivers, rows, first), second)
  {
    hide Table, Finishable;
    var whole := first + second;
    TableConcat(drivers, rows, first, second);
    forall k | 0 <= k < |whole|
      ensures Reason(Table(drivers, rows, whole[..k]), whole[k], whole[k + 1..] + tail, if asked.Some? then asked else asked')
    {
      if k < |first| {
        assert whole[..k] == first[..k] && whole[k + 1..] == first[k + 1..] + second;
        assert Reason(Table(drivers, rows, first[..k]), first[k], first[k + 1..] + tail', asked);
      } else {
        var l := k - |first|;
        assert whole[..k] == first + second[..l] && whole[k + 1..] == second[l + 1..];
        TableConcat(drivers, rows, first, second[..l]);
        assert Reason(Table(drivers, Table(drivers, rows, first), second[..l]), second[l], second[l + 1..] + tail, asked');
      }
    }
  }

  // ---- Removing one row ----

  /** `touch_dependent_links`. */
  method TouchDependentLinks(rows: Rows, drivers: map<string, Driver>, path: string) returns (touched: Rows)
    ensures IsTouched(rows, drivers, touched, path)
  {
    touched := rows;
    var links := set q | q in rows && q != path && References(rows[q], path);
    var todo := links;
    while todo != {}
      invariant todo <= links && touched.Keys == rows.Keys
      invariant forall q | q in rows ::
                  touched[q] == if q in links - todo && !Deleting(rows[q]) then Bumped(drivers, rows[q]) else rows[q]
    {
      var q :| q in todo;
      todo := todo - {q};
      if Deleting(rows[q]) {
        continue;
      }
      touched := touched[q := Bumped(drivers, rows[q])];
    }
  }

  ghost predicate IsTouched(rows: Rows, drivers: map<string, Driver>, touched: Rows, path: string) {
    && touched.Keys == rows.Keys
    && forall q | q in rows ::
         touched[q] == if q != path && References(rows[q], path) && !Deleting(rows[q]) then Bumped(drivers, rows[q]) else rows[q]
  }

  lemma RemovedRow(rows: Rows, drivers: map<string, Driver>, touched: Rows, path: string)
    requires path in rows && IsTouched(rows, drivers, touched, path)
    ensures var after := touched - {path};
            && Shrinks(drivers, rows, after) && LinksTold(drivers, rows, after) && |after| < |rows|
            && (forall p | p in rows && p !in after :: p == path)
            && (forall q | Finishable(after, q) :: Finishable(rows, q) || q in Dependencies(rows[path]))
  {
    var after := touched - {path};
    TouchedShrinks(rows, drivers, touched, path);
    assert after.Keys == rows.Keys - {path};
    assert |after.Keys| < |rows.Keys|;
    hide Shrinks, Finished, Bumped, IsTouched;
    forall q | Finishable(after, q) ensures Finishable(rows, q) || q in Dependencies(rows[path]) {
      FinishedBefore(drivers, rows, after, q);
      LinksRemain(drivers, rows, after, path, q);
    }
  }

  lemma TouchedShrinks(rows: Rows, drivers: map<string, Driver>, touched: Rows, path: string)
    requires path in rows && IsTouched(rows, drivers, touched, path)
    ensures Shrinks(drivers, rows, touched - {path}) && LinksTold(drivers, rows, touched - {path})
  {
    hide Observed, Reobserve;
    var after := touched - {path};
    forall q | q in after && References(rows[q], path) && !Deleting(rows[q])
      ensures after[q] == Bumped(drivers, rows[q]) && Observed(drivers, after[q].resource) && !Deleting(after[q]) && SameLink(rows[q], after[q])
      ensures rows[q].resource.Revision() < after[q].resource.Revision()
    {
      BumpedIsObserved(drivers, rows[q]);
    }
    forall q | q in after ensures Kept(drivers, rows, after, q) {
      if rows[q] != after[q] {
        assert References(rows[q], path) && path !in after;
      }
    }
  }

  lemma BumpedIsObserved(drivers: map<string, Driver>, row: Row)
    ensures var after := Bumped(drivers, row);
            && Observed(drivers, after.resource) && SameLink(row, after) && Deleting(after) == Deleting(row)
            && after.resource.Revision() == row.resource.Revision() + 1
  {
  }

  /** Only the Links of the removed row itself can have held a Resource it names. */
  lemma LinksRemain(drivers: map<string, Driver>, rows: Rows, after: Rows, path: string, q: string)
    requires Shrinks(drivers, rows, after) && path in rows && after.Keys == rows.Keys - {path}
    ensures HasDependentLinks(rows, q) ==> HasDependentLinks(after, q) || q in Dependencies(rows[path])
  {
    if r :| r in rows && References(rows[r], q) {
      if r != path {
        assert Kept(drivers, rows, after, r);
        assert References(after[r], q);
      }
    }
  }

  lemma RemovedGrounded(drivers: map<string, Driver>, rows: Rows, rows': Rows, rank: map<string, nat>, top: nat,
                        path: string)
    requires Grounded(rows, rank, top) && Shrinks(drivers, rows, rows') && rows'.Keys == rows.Keys - {path}
    requires forall q | q in rows' :: rows'[q].kind != RunOf(path)
    ensures Grounded(rows', rank, top)
  {
  }

  lemma RemovalIsTouched(rows: Rows, drivers: map<string, Driver>, touched: Rows, path: string)
    requires IsTouched(rows, drivers, touched, path)
    ensures touched - {path} == Removal(drivers, rows, path)
  {
    hide Bumped;
  }

  lemma RemovalShrinks(rows: Rows, drivers: map<string, Driver>, path: string)
    requires path in rows
    ensures Shrinks(drivers, rows, Removal(drivers, rows, path))
  {
    hide Bumped;
    var touched := map q | q in rows ::
      if q != path && References(rows[q], path) && !Deleting(rows[q]) then Bumped(drivers, rows[q]) else rows[q];
    RemovalIsTouched(rows, drivers, touched, path);
    TouchedShrinks(rows, drivers, touched, path);
  }

  lemma {:induction false} TableShrinks(drivers: map<string, Driver>, rows: Rows, order: seq<string>,
                                        asked: Option<string>, tail: seq<string>)
    requires Reasoned(drivers, rows, order, asked, tail)
    ensures Shrinks(drivers, rows, Table(drivers, rows, order))
  {
    hide Shrinks, Reason, Removal, Reasoned;
    if order == [] {
      NothingShrinks(drivers, rows);
    } else {
      var front, last := order[..|order| - 1], order[|order| - 1];
      ReasonedPrefix(drivers, rows, order, |front|, asked, tail);
      TableShrinks(drivers, rows, front, asked, order[|front|..] + tail);
      ReasonAt(drivers, rows, order, asked, tail, |front|);
      RemovalShrinks(Table(drivers, rows, front), drivers, last);
      ShrinksTransitive(drivers, rows, Table(drivers, rows, front), Table(drivers, rows, order));
    }
  }

  lemma ReasonAt(drivers: map<string, Driver>, rows: Rows, order: seq<string>, asked: Option<string>,
                 tail: seq<string>, k: nat)
    requires Reasoned(drivers, rows, order, asked, tail) && k < |order|
    ensures Reason(Table(drivers, rows, order[..k]), order[k], order[k + 1..] + tail, asked)
    ensures order[k] in Table(drivers, rows, order[..k])
  {
    hide Table, Finishable;
  }

  /** Exactly the rows of the order go. */
  lemma {:induction false} OrderIsWhatGoes(drivers: map<string, Driver>, rows: Rows, order: seq<string>)
    ensures Table(drivers, rows, order).Keys == rows.Keys - set p | p in order
  {
    hide Bumped;
    if order != [] {
      OrderIsWhatGoes(drivers, rows, order[..|order| - 1]);
      assert forall p :: p in order <==> p in order[..|order| - 1] || p == order[|order| - 1];
    }
  }

  lemma NothingShrinks(drivers: map<string, Driver>, rows: Rows)
    ensures Shrinks(drivers, rows, rows)
  {
  }

  lemma ReasonedPrefix(drivers: map<string, Driver>, rows: Rows, order: seq<string>, n: nat, asked: Option<string>,
                       tail: seq<string>)
    requires Reasoned(drivers, rows, order, asked, tail) && n <= |order|
    ensures Reasoned(drivers, rows, order[..n], asked, order[n..] + tail)
  {
    hide Reason, Table;
    forall k | 0 <= k < n
      ensures Reason(Table(drivers, rows, order[..n][..k]), order[..n][k], order[..n][k + 1..] + (order[n..] + tail), asked)
    {
      assert order[..n][..k] == order[..k];
      assert order[..n][k + 1..] + (order[n..] + tail) == order[k + 1..] + tail;
      assert Reason(Table(drivers, rows, order[..k]), order[k], order[k + 1..] + tail, asked);
    }
  }

  /** A Run removed for its own sake goes because what it ran on goes. */
  lemma RunReasons(drivers: map<string, Driver>, rows: Rows, order: seq<string>, run: string, path: string)
    requires Reasoned(drivers, rows, order, Some(run), []) && run in rows && rows[run].kind == RunOf(path)
    ensures Reasoned(drivers, rows, order, None, [path])
  {
    hide Table, Finishable, Shrinks;
    forall k | 0 <= k < |order| ensures Reason(Table(drivers, rows, order[..k]), order[k], order[k + 1..] + [path], None) {
      assert Reason(Table(drivers, rows, order[..k]), order[k], order[k + 1..] + [], Some(run));
      ReasonedPrefix(drivers, rows, order, k, Some(run), []);
      TableShrinks(drivers, rows, order[..k], Some(run), order[k..] + []);
      if order[k] == run {
        FinishedBefore(drivers, rows, Table(drivers, rows, order[..k]), run);
      }
    }
  }

  /** What can be finished still can when its own turn comes. */
  lemma FinishReasons(drivers: map<string, Driver>, rows: Rows, order: seq<string>, path: string)
    requires Reasoned(drivers, rows, order, Some(path), []) && Finishable(rows, path)
    ensures Reasoned(drivers, rows, order, None, [])
  {
    hide Table, Shrinks, Finished;
    forall k | 0 <= k < |order| ensures Reason(Table(drivers, rows, order[..k]), order[k], order[k + 1..] + [], None) {
      assert Reason(Table(drivers, rows, order[..k]), order[k], order[k + 1..] + [], Some(path));
      ReasonedPrefix(drivers, rows, order, k, Some(path), []);
      TableShrinks(drivers, rows, order[..k], Some(path), order[k..] + []);
      if order[k] == path {
        FinishedBefore(drivers, rows, Table(drivers, rows, order[..k]), path);
        FewerLinks(drivers, rows, Table(drivers, rows, order[..k]), path);
      }
    }
  }

  lemma RowReasons(drivers: map<string, Driver>, rows: Rows, current: Rows, order: seq<string>, path: string)
    requires Reasoned(drivers, rows, order, None, [path]) && current == Table(drivers, rows, order) && path in current
    ensures Reasoned(drivers, rows, order + [path], Some(path), [])
    ensures Table(drivers, rows, order + [path]) == Removal(drivers, current, path)
  {
    hide Finishable, Removal;
    assert [path][..0] == [];
    assert Reasoned(drivers, current, [path], Some(path), []);
    ReasonsConcat(drivers, rows, order, [path], None, Some(path), [], [path]);
  }

  // ---- The cascade ----

  /** Remove a row and everything that has to go with it, in some order: the new table is
      that of the single removals, and each had its reason when its turn came. Nothing is
      left over that can be finished now and could not before. */
  method HardDelete(rows: Rows, drivers: map<string, Driver>, path: string, ghost rank: map<string, nat>,
                    ghost top: nat)
    returns (result: Option<Rows>, ghost order: seq<string>)
    requires Grounded(rows, rank, top)
    ensures result.Some? <==> path in rows
    ensures result.Some? ==>
              path !in result.value && |result.value| < |rows| && Cascaded(drivers, rows, result.value, rank, top)
    ensures result.Some? ==> result.value == Table(drivers, rows, order) && Reasoned(drivers, rows, order, Some(path), [])
    ensures result.Some? && !rows[path].kind.LinkOf? ==> OnlyRuns(rows, result.value, path, rank)
    decreases |rows|, if path in rows then top - Rank(rank, path) else 0, 0
  {
    hide Shrinks, LinksTold, HasDependentLinks, Finished, IsTouched, NothingNewToFinish, Grounded, OnlyRuns, RunsRemoved, Bumped,
      Reasoned, Table, Removal;
    order := [];
    if path !in rows {
      return None, order;
    }
    var row := rows[path];
    var current := rows;
    var runs := set q | q in rows && rows[q].kind == RunOf(path);
    NothingRemovedYet(drivers, rows, path, rank);
    NothingOrdered(drivers, rows, [path]);
    while runs != {}
      invariant RunsRemoved(drivers, rows, current, path, rank) && Grounded(current, rank, top)
      invariant path in current && |current| <= |rows| && runs <= current.Keys
      invariant forall q | q in current :: q in runs <==> current[q].kind == RunOf(path)
      invariant current == Table(drivers, rows, order) && Reasoned(drivers, rows, order, None, [path])
    {
      var run :| run in runs;
      RunIsAbove(current, rank, top, run);
      var removed, ofRun := HardDelete(current, drivers, run, rank, top);
      RunsRemovedStep(drivers, rows, current, removed.value, path, run, rank);
      RunReasons(drivers, current, ofRun, run, path);
      ReasonsConcat(drivers, rows, order, ofRun, None, None, [path], [path]);
      runs, current, order := runs - {run}, removed.value, order + ofRun;
    }
    var touched := TouchDependentLinks(current, drivers, path);
    RemovedRow(current, drivers, touched, path);
    RunsThenRow(drivers, rows, current, touched - {path}, path, rank, top);
    RowReasons(drivers, rows, current, order, path);
    RemovalIsTouched(current, drivers, touched, path);
    current, order := touched - {path}, order + [path];
    var dependencies := Dependencies(row);
    while dependencies != {}
      invariant Removing(drivers, rows, current, path, rank, top, dependencies) && |current| < |rows|
      invariant current == Table(drivers, rows, order) && Reasoned(drivers, rows, order, Some(path), [])
    {
      var dependency :| dependency in dependencies;
      if dependency in current {
        RankAtMost(current, rank, top, dependency);
        var finished, ofDependency := MaybeFinish(current, drivers, dependency, rank, top);
        FinishedDependency(drivers, rows, current, finished.value, path, rank, top, dependencies, dependency);
        ReasonsConcat(drivers, rows, order, ofDependency, Some(path), None, [], []);
        current, order := finished.value, order + ofDependency;
      } else {
        FinishedDependency(drivers, rows, current, current, path, rank, top, dependencies, dependency);
      }
      dependencies := dependencies - {dependency};
    }
    NothingLeftToFinish(drivers, rows, current, path, rank, top);
    result := Some(current);
  }

  lemma NothingOrdered(drivers: map<string, Driver>, rows: Rows, tail: seq<string>)
    ensures Table(drivers, rows, []) == rows && Reasoned(drivers, rows, [], None, tail)
  {
  }

  /** Nothing goes that was asked for by nobody: each row of the order runs on a later one,
      or is finished when its turn comes. */
  method MaybeFinish(rows: Rows, drivers: map<string, Driver>, path: string, ghost rank: map<string, nat>,
                     ghost top: nat)
    returns (result: Option<Rows>, ghost order: seq<string>)
    requires Grounded(rows, rank, top)
    ensures result.Some? <==> path in rows
    ensures result.Some? && !Finishable(rows, path) ==> result.value == rows
    ensures result.Some? ==> result.value == Table(drivers, rows, order) && Reasoned(drivers, rows, order, None, [])
    ensures Finishable(rows, path) ==>
              path !in result.value && |result.value| < |rows| && Cascaded(drivers, rows, result.value, rank, top)
    ensures result.Some? ==> (path !in result.value <==> Over(rows, path))
    decreases |rows|, if path in rows then top - Rank(rank, path) else 0, 1
  {
    hide Reasoned, Table, Cascaded, Over;
    order := [];
    NothingOrdered(drivers, rows, []);
    FinishableExactly(rows, path);
    if path !in rows {
      return None, order;
    }
    if !Deleting(rows[path]) || rows[path].resource.status.metadata.state != STATE_DELETED {
      return Some(rows), order;
    }
    if HasDependentLinks(rows, path) {
      return Some(rows), order;
    }
    if AllObserved(rows[path].resource) {
      result, order := HardDelete(rows, drivers, path, rank, top);
      FinishReasons(drivers, rows, order, path);
    } else {
      result := Some(rows);
    }
  }

  // ---- The dependencies of the removed row ----

  /** The row and its Runs are gone, and only these dependencies may be new to finish. */
  ghost predicate Removing(drivers: map<string, Driver>, rows: Rows, current: Rows, path: string,
                           rank: map<string, nat>, top: nat, dependencies: set<string>) {
    && path in rows && path !in current
    && Shrinks(drivers, rows, current) && LinksTold(drivers, rows, current)
    && Grounded(current, rank, top)
    && dependencies <= Dependencies(rows[path])
    && (forall q | Finishable(current, q) :: Finishable(rows, q) || q in dependencies)
    && (!rows[path].kind.LinkOf? ==> OnlyRuns(rows, current, path, rank))
  }

  lemma FinishedDependency(drivers: map<string, Driver>, rows: Rows, current: Rows, next: Rows, path: string,
                           rank: map<string, nat>, top: nat,
                           dependencies: set<string>, dependency: string)
    requires Removing(drivers, rows, current, path, rank, top, dependencies) && dependency in dependencies
    requires if Finishable(current, dependency) then dependency !in next && Cascaded(drivers, current, next, rank, top) else next == current
    ensures Removing(drivers, rows, next, path, rank, top, dependencies - {dependency})
  {
    hide Finished;
    if Finishable(current, dependency) {
      FewerLinks(drivers, current, next, dependency);
      ShrinksTransitive(drivers, rows, current, next);
      LinksToldTransitive(drivers, rows, current, next);
    }
  }

  lemma NothingLeftToFinish(drivers: map<string, Driver>, rows: Rows, current: Rows, path: string,
                            rank: map<string, nat>, top: nat)
    requires Removing(drivers, rows, current, path, rank, top, {})
    ensures path !in current
    ensures Cascaded(drivers, rows, current, rank, top)
    ensures !rows[path].kind.LinkOf? ==> OnlyRuns(rows, current, path, rank)
  {
  }

  lemma RankAtMost(rows: Rows, rank: map<string, nat>, top: nat, path: string)
    requires Grounded(rows, rank, top) && path in rows
    ensures Rank(rank, path) <= top
  {
  }

  // ---- The Runs of the removed row ----

  /** While the Runs of `path` go, nothing else does but Runs of Runs. */
  ghost predicate RunsRemoved(drivers: map<string, Driver>, rows: Rows, current: Rows, path: string,
                              rank: map<string, nat>) {
    && Shrinks(drivers, rows, current) && LinksTold(drivers, rows, current) && NothingNewToFinish(rows, current)
    && forall p | p in rows && p !in current ::
         Rank(rank, path) < Rank(rank, p) && (rows[p].kind == RunOf(path) || LostItsSubject(rows, current, p))
  }

  lemma NothingRemovedYet(drivers: map<string, Driver>, rows: Rows, path: string, rank: map<string, nat>)
    ensures RunsRemoved(drivers, rows, rows, path, rank)
  {
  }

  lemma RunIsAbove(rows: Rows, rank: map<string, nat>, top: nat, run: string)
    requires Grounded(rows, rank, top) && run in rows && rows[run].kind.RunOf?
    ensures Rank(rank, rows[run].kind.subject) < Rank(rank, run) <= top
  {
  }

  lemma RunsRemovedStep(drivers: map<string, Driver>, rows: Rows, current: Rows, next: Rows, path: string,
                        run: string, rank: map<string, nat>)
    requires RunsRemoved(drivers, rows, current, path, rank) && Shrinks(drivers, current, next) && LinksTold(drivers, current, next)
    requires NothingNewToFinish(current, next)
    requires run in current && current[run].kind == RunOf(path) && Rank(rank, path) < Rank(rank, run)
    requires OnlyRuns(current, next, run, rank)
    ensures RunsRemoved(drivers, rows, next, path, rank)
    ensures path in current ==> path in next
    ensures forall q | q in current && q != run && current[q].kind == RunOf(path) && path in current :: q in next
    ensures next.Keys <= current.Keys && forall q | q in next :: next[q].kind == current[q].kind
  {
    ShrinksTransitive(drivers, rows, current, next);
    LinksToldTransitive(drivers, rows, current, next);
    forall p | p in rows && p !in next
      ensures Rank(rank, path) < Rank(rank, p) && (rows[p].kind == RunOf(path) || LostItsSubject(rows, next, p))
    {
      if p in current {
        FinishedBefore(drivers, rows, current, p);
      }
    }
  }

  lemma RunsThenRow(drivers: map<string, Driver>, rows: Rows, before: Rows, after: Rows, path: string,
                    rank: map<string, nat>, top: nat)
    requires RunsRemoved(drivers, rows, before, path, rank) && Grounded(before, rank, top) && path in before
    requires forall q | q in before :: before[q].kind != RunOf(path)
    requires Shrinks(drivers, before, after) && LinksTold(drivers, before, after) && after.Keys == before.Keys - {path}
    requires forall q | Finishable(after, q) :: Finishable(before, q) || q in Dependencies(before[path])
    ensures path in rows && Removing(drivers, rows, after, path, rank, top, Dependencies(before[path])) && before[path].kind == rows[path].kind
  {
    ShrinksTransitive(drivers, rows, before, after);
    LinksToldTransitive(drivers, rows, before, after);
    FinishedBefore(drivers, rows, before, path);
    forall q | q in after ensures after[q].kind != RunOf(path) {
      FinishedBefore(drivers, before, after, q);
    }
    RemovedGrounded(drivers, before, after, rank, top, path);
  }

  // ---- What a caller gets ----

  /** After a row was removed no Run remembers it, and if nothing was waiting to be
      finished before, nothing is now. */
  lemma CascadeIsComplete(drivers: map<string, Driver>, rows: Rows, rows': Rows, rank: map<string, nat>, top: nat)
    requires Grounded(rows, rank, top) && Cascaded(drivers, rows, rows', rank, top)
    ensures forall run | run in rows' && rows'[run].kind.RunOf? :: rows'[run].kind.subject in rows'
    ensures (forall q :: !Finishable(rows, q)) ==> forall q :: !Finishable(rows', q)
  {
  }

  /** What it takes for a deletion to finish, in terms of the documents: both say deleted,
      every Driver concerned has observed it, and no Link names the row as its relation, its
      source or its target. */
  ghost predicate Over(rows: Rows, path: string) {
    && path in rows
    && rows[path].resource.desired.metadata.state == "deleted" && rows[path].resource.status.metadata.state == "deleted"
    && (forall d | d in rows[path].resource.desired.observed ::
          d in rows[path].resource.status.observed
          && rows[path].resource.status.observed[d] == rows[path].resource.desired.observed[d])
    && forall link, relation, source, target |
         link in rows && rows[link].kind == LinkOf(relation, source, target) :: path !in {relation, source, target}
  }

  lemma FinishableExactly(rows: Rows, path: string)
    ensures Finishable(rows, path) <==> Over(rows, path)
  {
    if path in rows {
      forall link | link in rows ensures References(rows[link], path) <==> path in Dependencies(rows[link]) {
      }
      if link :| link in rows && References(rows[link], path) {
        assert rows[link].kind == LinkOf(rows[link].kind.relation, rows[link].kind.source, rows[link].kind.target);
      }
    }
  }

  /** A Link that outlives its relation, its source or its target and is not being deleted
      itself is at a later revision, which its Drivers have to observe; and what went was
      the row asked for, a Run of a removed row, or was removed with it. */
  lemma LinksOutlive(drivers: map<string, Driver>, rows: Rows, rows': Rows, rank: map<string, nat>, top: nat,
                     order: seq<string>, path: string, link: string, relation: string, source: string,
                     target: string, p: string)
    requires Cascaded(drivers, rows, rows', rank, top) && rows' == Table(drivers, rows, order)
    requires Reasoned(drivers, rows, order, Some(path), [])
    requires link in rows && link in rows' && rows[link].kind == LinkOf(relation, source, target)
    requires p in {relation, source, target} && p in rows && p !in rows'
    ensures p == path || (rows[p].kind.RunOf? && rows[p].kind.subject in order)
    ensures rows'[link] == rows[link] || SameLink(rows[link], rows'[link])
    ensures rows[link].resource.desired.metadata.state != "deleted" ==>
              && rows[link].resource.desired.metadata.revision < rows'[link].resource.desired.metadata.revision
              && rows'[link].resource.desired.observed == Expected(drivers, rows'[link].resource)
              && rows'[link].resource.desired.metadata.state != "deleted"
  {
    hide Table, Reasoned, Expected;
    assert References(rows[link], p);
    if p != path && !(rows[p].kind.RunOf? && rows[p].kind.subject in order) {
      LinksHoldTheirEndpoints(drivers, rows, order, path, link, p);
    }
  }

  /** A Link holds what it depends on: while the Link is there, the deletion of its
      source, its target or its relation does not finish, unless it was the row asked for
      or a Run of a removed row. */
  lemma LinksHoldTheirEndpoints(drivers: map<string, Driver>, rows: Rows, order: seq<string>, path: string,
                                link: string, p: string)
    requires Reasoned(drivers, rows, order, Some(path), [])
    requires link in rows && link in Table(drivers, rows, order) && p in rows && p in Dependencies(rows[link]) && p != path
    requires !(rows[p].kind.RunOf? && rows[p].kind.subject in order)
    ensures p in Table(drivers, rows, order)
  {
    hide Table, Finished, Reason;
    OrderIsWhatGoes(drivers, rows, order);
    forall k | 0 <= k < |order| ensures order[k] != p {
      var table := Table(drivers, rows, order[..k]);
      OrderIsWhatGoes(drivers, rows, order[..k]);
      ReasonedPrefix(drivers, rows, order, k, Some(path), []);
      TableShrinks(drivers, rows, order[..k], Some(path), order[k..] + []);
      StillHeld(drivers, rows, table, link, p);
      ReasonAt(drivers, rows, order, Some(path), [], k);
      NoReason(table, p, order[k + 1..] + [], Some(path));
    }
  }

  lemma StillHeld(drivers: map<string, Driver>, rows: Rows, table: Rows, link: string, p: string)
    requires Shrinks(drivers, rows, table) && link in table && p in rows && References(rows[link], p)
    ensures !Finishable(table, p) && (p in table ==> table[p].kind == rows[p].kind)
  {
    hide Finished;
    FinishedBefore(drivers, rows, table, link);
    assert References(table[link], p);
    if p in table {
      FinishedBefore(drivers, rows, table, p);
    }
  }

  lemma NoReason(table: Rows, p: string, later: seq<string>, asked: Option<string>)
    requires asked != Some(p) && !Finishable(table, p)
    requires p in table ==> !(table[p].kind.RunOf? && table[p].kind.subject in later)
    ensures !Reason(table, p, later, asked)
  {
    hide Finishable;
  }
}
