# KAS: a verified model

KAS keeps Resources. Users and Drivers write what is desired; each running Driver owns
the Resources of some Manifests, watches others, and is handed the ones it still has to
observe. This project models how that works and proves what it guarantees.

* **Authorization** (`paths`, `matching`, `statelists`, `automaton`, `inclusion`, `delegation`).
  Path patterns are languages of segment sequences. The inclusion test between two patterns
  searches pairs of state sets of two automata; it is proved to terminate and to decide
  inclusion, and delegation of rules is proved sound for exactly the Manifest texts that are no
  wildcard patterns.
* **Observation** (`resources`, `partitions`). Each row records which Driver revisions have
  to observe which revision of it. When one Driver changes, only affected partitions are
  visited; the result equals a full scan.
* **The control loop** (`queue`, `control`, `invariants`, `bookkeeping`, `steps`, `replacements`,
  `claims`, `recovery`, `safety`, `history`, `progress`, `protocol`, `effects`, `deletion`,
  `convergence`, `store`). `control` gives each store call, with the scheduling that closes it,
  as one step on a value. `effects` says of each call, by the documents, what it leaves behind.
  Theorems about all runs: restarts fence off old generations, mutations take effect at most once,
  Runs end at most once, windows are kept; and, as long as deletions are safe, no work is lost,
  honest Drivers converge, and a store at rest is as desired. `store` is the object whose calls
  update fields in place, each proved to perform exactly its step.
* **The dialogue** (`session`, `service`, `endpoints`). `session` is the transition system of the store,
  every connection ever made, the messages under way and the clients' task tables; from it
  follows, with no assumption on the calls the store sees, that a delivery takes effect at most
  once in a generation. `service` says that what should act does act. `endpoints` holds the two
  ends as objects, each proved to perform its steps.
* **Removal** (`cascade`). Removing a row takes its Runs and may finish other deletions.
* **Companions**: `approvals` (deciders racing on one Request), `supervisor` (one process
  for a Driver), `packages` and `sandbox` (expansion, and where it leads).

Strings are sequences of characters that each stand for one byte. Fresh identifiers, the
clock, the answers of other services, and every choice the code leaves to hash order are
parameters or arbitrary choices.

## Findings

* **Deleting a Resource that is only watched** (`crates/kas-store/src/lib.rs:1072-1084`, and
  the mutation at `3670-3682`). The branch for Resources without an owner saves the row it
  read before the observations were recomputed, and so takes the new observations back. The
  documentation (`docs/technical-reference.md:337-340`) says the row goes only after every
  matching Driver has consumed the latest revision. The model follows the code.
  `Deletion.DeletionIsAsDocumented` proves that the promise holds if and only if the Resource
  has an owner or no running Driver selects it. `Deletion.DeleteKeepsExactly` proves that the
  invariant of the path survives exactly the deletions for which `Steps.SafeDelete` holds, which a
  caller can look up before the call, and that other paths are not concerned. After every other
  deletion a watcher's pair gets lost when it is claimed (`Deletion.UnsafeDeletionStrands`);
  `Deletion.UnsafeDeleteLosesWork` is a run that ends with neither the queue nor any delivery
  knowing of it. The next accepted write repairs the row (`Deletion.WriteRepairs`), and opening the
  store anew repairs any table (`Recovery.ReopenRestores`).
  `Safety.NoWorkIsLost` and `Safety.NoIdleWork` ask for safe deletions of the one path they speak
  of; fencing, windows, commits, Runs and the dialogue hold over every run (`Safety.BooksOverRuns`).
* **Delegation** is sound for every Manifest text except wildcard patterns, and for each of those
  it is not (`Delegation.SoundExactly`, `Delegation.WildcardPatternEscapes`). No caller passes
  one: the authorization endpoint and planned Resources validate the Manifest as a path
  (`apps/kas-api/src/lib.rs:212-217`, `1190-1206`), and the other callers pass constants or the
  Manifest of a stored Resource.
* **Wildcard watches** are expanded over registered Manifests only
  (`crates/kas-store/src/reconcile.rs:122-143`). `Partitions.UnregisteredExactly` says exactly when
  that makes the update of affected partitions differ from a full scan;
  `Progress.RegisteredOverRuns` shows that no run reaches a row for which it matters.
* **One Driver for a package** (`crates/kas-core/src/lib.rs:662-712`) is checked among the packaged
  Resources only. A plan holds at most one Driver if and only if the package does not declare both
  its own Manifest and one of its Resources to be Drivers (`Packages.AtMostOneDriverExactly`).
  `Packages.TwoDriversInOnePackage` is a package that expands with two, and every publisher and
  every name has one (`Packages.TwoDriversExpand`).

## Model

| member | source | states |
|---|---|---|
| Paths.ValidateSegments | crates/kas-core/src/path.rs:92-113 | Accepts exactly the texts all of whose segments are acceptable; a refusal is the verdict on the first segment that is not |
| Paths.SegmentVerdict | crates/kas-core/src/path.rs:92-113 | Each segment gets the verdict it deserves: empty, too long, invalid, or fine |
| Paths.ValidateAbsolute | crates/kas-core/src/path.rs:76-90 | Accepts exactly the well-formed paths or patterns; every refusal is pinned to its inputs: `NotAbsolute`, `Root`, `TooLong`, `TrailingSlash`, and otherwise the verdict on the first bad segment |
| Paths.ValidateRelative | crates/kas-core/src/path.rs:60-74 | Accepts exactly the well-formed package-relative strings; every refusal is pinned to its inputs: `NotRelative`, `Root`, `TooLong`, `TrailingSlash`, and otherwise the verdict on the first bad segment |
| Paths.PlainExactly | crates/kas-core/src/path.rs:92-113 | A concrete segment, by character codes: 1 to 128 lower-case letters, digits and hyphens, no hyphen first or last |
| Paths.ValidExactly | crates/kas-core/src/path.rs:76-113 | A valid path is a slash and plain segments between slashes, at most 1024 bytes; a valid pattern may have `*` and `**` among them |
| Paths.JoinSplit | crates/kas-core/src/path.rs:150-152 | Splitting a path at its slashes loses nothing |
| Paths.SegmentsInjective | crates/kas-core/src/path.rs:150-152 | Two paths with the same segments are the same path: concrete paths have one spelling |
| Paths.SplitConcat | crates/kas-core/src/path.rs:150-152 | The segments of a concatenation are the segments of its parts |
| Paths.RootOfDescendant | crates/kas-core/src/path.rs:125-138 | Whatever lies below a package root, under a valid path, has that root as its package root, and is not the root |
| Matching.MatchesIffDivision | crates/kas-core/src/path.rs:154-177 | The recursive matcher says yes exactly when the path can be cut into blocks, one for each pattern segment: one equal segment for a literal, one for `*`, any number for `**` |
| Matching.MatchesSegments | crates/kas-core/src/path.rs:154-177 | The memoised matcher returns the plain recursive meaning, and every filled cell of the table holds the true answer for its pair of suffixes |
| Matching.DecidePathMatches | crates/kas-core/src/path.rs:115-123 | Decides matching for all strings: false on malformed input, otherwise the meaning of the pattern |
| Matching.MatchesIfDivides | crates/kas-core/src/path.rs:115-123 | A pattern matches a path exactly if both are valid and the path divides into one block for each segment of the pattern |
| Matching.LiteralMatchesItself | crates/kas-core/src/path.rs:115-123 | A wildcard-free pattern matches itself and nothing else |
| Matching.ExactSelector | crates/kas-core/src/lib.rs:945-947 | A selector without `*` selects one path and no other; if it is a valid path, it selects itself |
| StateLists.IncreasingCanonical | crates/kas-auth/src/lib.rs:126-127 | Sorted duplicate-free state lists are determined by their elements, so list equality decides set equality |
| StateLists.InLists | crates/kas-auth/src/lib.rs:86-93 | Every sorted duplicate-free list of states is in the finite universe the visited set draws from |
| Automaton.EpsilonClosure | crates/kas-auth/src/lib.rs:116-128 | The growing, then sorted vector is the sorted duplicate-free list of all states reachable over `**` |
| Automaton.Transition | crates/kas-auth/src/lib.rs:130-146 | One step on a symbol: moves, sort, dedup and closure give the subset-construction step, again sorted and duplicate-free |
| Automaton.AfterAccepts | crates/kas-auth/src/lib.rs:116-146 | Running the state sets over a prefix preserves whether the remaining word can be matched |
| Automaton.AcceptanceIsMatching | crates/kas-auth/src/lib.rs:112-146 | The automaton accepts exactly the words the independent recursive matcher matches |
| Inclusion.SameStep | crates/kas-auth/src/lib.rs:76-84 | Replacing a segment neither pattern mentions by the "other" symbol takes both automata to the same states: the alphabet abstraction |
| Inclusion.FreshSegmentExists | crates/kas-auth/src/lib.rs:76-84 | There is always a valid segment that neither pattern mentions, so the "other" symbol stands for something |
| Inclusion.Search | crates/kas-auth/src/lib.rs:86-110 | The worklist terminates (unvisited triples, then pending length, fall lexicographically) and returns whether a refuting triple is reachable |
| Inclusion.Expand | crates/kas-auth/src/lib.rs:100-107 | Leaves what is queued in place and puts behind it exactly the successors of the triple under all symbols of the alphabet |
| Inclusion.SearchSound | crates/kas-auth/src/lib.rs:86-110 | If the search refutes nothing, every non-empty word of valid segments matched by the candidate is matched by the container |
| Inclusion.RefutationIsReal | crates/kas-auth/src/lib.rs:94-99 | If the search refutes, there is a word of valid segments that the candidate matches and the container does not |
| Inclusion.PathPatternContains | crates/kas-auth/src/lib.rs:70-110 | For all strings: false on malformed patterns; for valid ones, true exactly when the language of the candidate is included in that of the container |
| Delegation.CoveringRuleAllows | crates/kas-auth/src/lib.rs:205-216 | A rule that covers a Manifest pattern and verb allows whatever the pattern selects, any text but a wildcard pattern |
| Delegation.AllowsExactly | crates/kas-auth/src/lib.rs:148-172 | What is allowed, in terms of the texts: some rule has the Manifest under an entry that is `*`, equal or divides it, has the verb or `*`, and lists no paths or one that divides the path of the request |
| Delegation.NarrowerIsSubset | crates/kas-auth/src/lib.rs:174-223 | Proposed rules each of which narrows one of the caller's, entry by entry, are accepted if and only if they are well formed |
| Delegation.HasItsOwnRules | crates/kas-auth/src/lib.rs:174-223 | Every well-formed set of rules is a subset of itself |
| Delegation.SubsetsCompose | crates/kas-auth/src/lib.rs:174-223 | A subset of a subset is a subset: what may be handed on by somebody who was given a part may be handed on directly |
| Delegation.DelegationIsSound | crates/kas-auth/src/lib.rs:152-216 | If `rules_are_subset` accepts, then for every Manifest text that is no wildcard pattern, every verb and every path or none, what the proposed rules allow the caller's rules allow |
| Delegation.WildcardPatternEscapes | crates/kas-auth/src/lib.rs:148-150 | For every wildcard pattern taken as a Manifest there are rules, accepted as a subset, that allow it although the caller's rules do not: equality allows the text itself, a wider pattern does not match it |
| Delegation.SoundExactly | crates/kas-auth/src/lib.rs:148-216 | Delegation is sound for a Manifest text if and only if the text is not a valid pattern that is no valid path |
| Resources.ExpectedIsMatching | crates/kas-store/src/lib.rs:3456-3478 | `matching_drivers` finds exactly the Drivers for which `driver_matches_resource` holds |
| Resources.ReobserveObserved | crates/kas-store/src/lib.rs:3480-3516 | Recomputing the observations of a row makes them right, and changes nothing if they were |
| Resources.DriverMatchesExactly | crates/kas-store/src/reconcile.rs:9-29 | A Driver selects a Resource exactly if it is to run and manages its Manifest, or one of its watches has a pattern that is `*` or divides the Manifest and, if it lists paths, one that divides the path |
| Partitions.NormalizedIsCanonical | crates/kas-store/src/reconcile.rs:115-120 | Sorted and deduplicated watch paths are equal exactly when they hold the same paths |
| Partitions.NormalizedSelects | crates/kas-store/src/reconcile.rs:115-120 | Normalising watch paths does not change what they select |
| Partitions.ExpandSelector | crates/kas-store/src/reconcile.rs:122-143 | Adds exactly the registered Manifests a wildcard matches, and a literal whether or not it is registered |
| Partitions.CandidateManifests | crates/kas-store/src/reconcile.rs:88-94 | Collects exactly the managed Manifests and the expansions of all watches |
| Partitions.SelectedManifests | crates/kas-store/src/reconcile.rs:81-86 | Keeps exactly the candidates on which the Driver has an effect |
| Partitions.AffectedManifestPaths | crates/kas-store/src/reconcile.rs:31-61 | Returns exactly the affected Manifests, in each of the running/stopped and same/different revision cases |
| Partitions.EffectDecides | crates/kas-store/src/reconcile.rs:96-113 | The effect of a Driver on a Manifest decides which of its Resources the Driver selects |
| Partitions.CandidatesHaveEffect | crates/kas-store/src/reconcile.rs:88-143 | A Driver has an effect on a Manifest exactly if it manages it or a watch has a pattern that is `*` or divides it; among the registered Manifests the candidates are exactly those |
| Partitions.AffectedHasEffect | crates/kas-store/src/reconcile.rs:31-61 | Only Manifests are visited on which one of the documents has an effect, in one revision only if the effects differ |
| Partitions.UnaffectedRowsAgree | crates/kas-store/src/reconcile.rs:31-61 | On a registered Manifest that is not affected, the old and the new document select the same Resources in the same revision |
| Partitions.ReconcileDriverChange | crates/kas-store/src/lib.rs:3385-3434 | Updates exactly the rows of affected Manifests and reports exactly the rows that changed |
| Partitions.UpdatePartition | crates/kas-store/src/lib.rs:3407-3431 | One partition: every listed row is updated, no other, and the changed ones are reported |
| Partitions.OnlyObservationsChange | crates/kas-store/src/lib.rs:3408-3430 | The update touches only the two observation maps |
| Partitions.UpdateRowIsReobserve | crates/kas-store/src/lib.rs:3412-3424 | On an up-to-date row, updating one Driver's entry equals recomputing all of them |
| Partitions.IncrementalEqualsFullScan | crates/kas-store/src/lib.rs:3385-3434 | From up-to-date rows, visiting only the affected partitions gives the same table as recomputing the observations of every Resource |
| Partitions.UnregisteredExactly | crates/kas-store/src/reconcile.rs:31-143 | On an up-to-date row of a valid Manifest that is not registered, the update of affected partitions and a full scan agree if and only if both documents select the row alike (and, if they do, in one revision), or one of the running documents names the Manifest |
| Progress.RegisteredOverRuns | crates/kas-store/src/lib.rs:871-916 | Over every run no row is of a Manifest that is not registered, so that case never arises |
| Queue.ScheduledExactly | crates/kas-store/src/reconcile.rs:187-234 | After `schedule` the live Drivers of the Resource are exactly those with something to observe, under the expected observation; other Resources are untouched |
| Queue.OutstandingExactly | crates/kas-store/src/reconcile.rs:276-292 | Something is outstanding exactly if the Driver is asked to observe the row and has not observed it so, or owns it and its two documents differ |
| Queue.PoppedExactly | crates/kas-store/src/reconcile.rs:236-269 | A pop yields nothing exactly when every live key of the Driver is excluded; otherwise it takes one live, non-excluded key and no other out of the live ones |
| Queue.PopKeepsOrder | crates/kas-store/src/reconcile.rs:236-269 | The key taken is the frontmost that may be taken, and all other live keys keep their order, the skipped ones included |
| Queue.PopConsumes | crates/kas-store/src/reconcile.rs:236-269 | A pop uses up what it looks at: of the keys in front of the one it takes only those of excluded Resources stay; everything behind it and every other Driver's list stays as it was, and no empty list is left |
| Queue.RemovedExactly | crates/kas-store/src/reconcile.rs:294-301 | After `remove_resource` no key of the path is live, and other Resources are untouched |
| Queue.RemovedIsNotPopped | crates/kas-store/src/reconcile.rs:294-301 | After a removal no pop yields the path, over any later pops, removals and schedules, until the path is scheduled again |
| Queue.OwnersExactly | crates/kas-store/src/reconcile.rs:162-175 | With one manager for each Manifest, the owner recorded is the running Driver that manages it |
| Queue.RebuiltExactly | crates/kas-store/src/reconcile.rs:177-185 | A rebuilt queue holds exactly the outstanding pairs |
| Queue.ReconcileQueue.RefreshDrivers | crates/kas-store/src/reconcile.rs:162-175 | Replaces the owners by those of the listing |
| Queue.ReconcileQueue.Schedule | crates/kas-store/src/reconcile.rs:187-234 | Moves the four collections to the scheduled state, reports exactly the Drivers that got a new key, and leaves live exactly the keys of the Drivers that have not observed the row as asked, or own it while its two documents differ |
| Queue.ReconcileQueue.PopExcluding | crates/kas-store/src/reconcile.rs:236-269 | Moves the queue to the popped state and returns its item |
| Queue.ReconcileQueue.RemoveResource | crates/kas-store/src/reconcile.rs:294-301 | Moves the queue to the state without the path |
| Queue.ReconcileQueue.Rebuild | crates/kas-store/src/reconcile.rs:177-185 | Moves the queue to the state where every listed Resource is scheduled on an empty queue |
| Invariants.SchedulePathSettles | crates/kas-store/src/lib.rs:198-210 | Scheduling one path makes its pairs right and leaves those of every other path alone |
| Invariants.Settles | crates/kas-store/src/lib.rs:198-225 | Whatever a call did to rows, owners and deliveries, the work on a path is in order again if the path was scheduled or the call did nothing to it |
| Invariants.InvIsEveryPath | crates/kas-store/src/lib.rs:198-225 | The invariant of the store is the invariant of each of its paths, so that what befalls one path says nothing about another |
| Safety.WorkInDocuments | crates/kas-store/src/reconcile.rs:276-292 | What is outstanding for a row, in terms of the tables: a running Driver that selects it has not observed it in the current revision of both, or manages it and its status document differs from what is desired |
| Bookkeeping.MutationsKeepRuns | crates/kas-store/src/lib.rs:3583-3727 | Mutations never change a Run; they can only remove it with its target; and rows stay under their own paths |
| Bookkeeping.DeleteBooks | crates/kas-store/src/lib.rs:1049-1091 | Every deletion, also one that leaves watchers in the dark, keeps deliveries, windows, caches and the history of commits in order |
| Bookkeeping.SameWorksBooks | crates/kas-store/src/lib.rs:1899-1959 | Acknowledging, renewing and resetting leases keep them in order |
| Bookkeeping.RememberKeeps | crates/kas-store/src/lib.rs:1722-1737 | The cache of completed ids stays equal to its queue, within 4096, and holds the id just completed |
| Bookkeeping.ApplyBooks | crates/kas-store/src/lib.rs:1562-1630 | A batch keeps them in order: the commit is recorded with its answer |
| Bookkeeping.FinishRunBooks | crates/kas-store/src/lib.rs:1528-1542 | The batch that ends a Run keeps them in order |
| Bookkeeping.StartBooks | crates/kas-store/src/lib.rs:1244-1327 | A restart keeps them in order: restamped deliveries lose their cached answers and move to the new generation |
| Bookkeeping.FillBooks | crates/kas-store/src/lib.rs:1856-1893 | Filling from any queue keeps the window and the rule of one delivery each |
| Bookkeeping.StepBooks | crates/kas-store/src/lib.rs:871-1959 | Every step of the store keeps deliveries, windows, caches and history in order, whatever it deletes |
| Steps.CreateKeeps | crates/kas-store/src/lib.rs:871-916 | Creating a Resource keeps the invariant of every path |
| Steps.WriteKeeps | crates/kas-store/src/lib.rs:960-1009 | A user's write keeps the invariant of every path |
| Steps.DeleteKeeps | crates/kas-store/src/lib.rs:1049-1091 | A deletion keeps the invariant of every other path, and of its own if it is refused, or an owner has to confirm it, or nobody has anything left to observe |
| Steps.MutationsKeep | crates/kas-store/src/lib.rs:3583-3727 | A batch of mutations that does not delete a path unsafely keeps the row under it up to date, whatever it does to others, and reports the path if it touched it |
| Steps.ApplyKeeps | crates/kas-store/src/lib.rs:1562-1630 | Applying a batch, scheduling what it touched and remembering the answer keeps the invariant of every path it does not delete unsafely |
| Steps.CompleteKeeps | crates/kas-store/src/lib.rs:1632-1690 | Completing a reconciliation keeps the invariant of every path: what the delivery carried is observed, or queued again |
| Steps.AbandonKeeps | crates/kas-store/src/lib.rs:1692-1720 | Abandoning a delivery keeps the invariant of every path: its work is put back |
| Steps.FinishRunKeeps | crates/kas-store/src/lib.rs:1528-1542 | Finishing a Run keeps the invariant of every path its batch does not delete unsafely |
| Steps.SameWorksKeep | crates/kas-store/src/lib.rs:1899-1959 | Acknowledging, renewing and resetting leases keep the invariant of every path |
| Steps.SetStatusKeeps | crates/kas-store/src/lib.rs:1329-1424 | Reporting a Driver ready, failed or stopped keeps the invariant of every path: what is expected does not depend on the process |
| Steps.EnqueueRunKeeps | crates/kas-store/src/lib.rs:1430-1499 | Enqueuing a Run keeps the invariant of every path, even under the path of an earlier Run |
| Replacements.StartKeeps | crates/kas-store/src/lib.rs:1244-1327 | Starting a Driver keeps the invariant of every path: a delivery is restamped for the new generation, or what it carried is not expected any more, or is queued |
| Replacements.StopKeeps | crates/kas-store/src/lib.rs:1359-1389 | Stopping a Driver keeps the invariant of every path |
| Replacements.UpdateKeeps | crates/kas-store/src/lib.rs:960-1009 | Rewriting a Driver Resource keeps the invariant of every path |
| Replacements.UnchangedRowSamePath | crates/kas-store/src/lib.rs:1321-1325 | A row that a replaced Driver leaves unchanged has the same outstanding pairs under the refreshed owners |
| Claims.PopYieldsPending | crates/kas-store/src/lib.rs:1858-1872 | What a pop yields always passes the check that follows it |
| Claims.PopAndDeliverWork | crates/kas-store/src/lib.rs:1858-1892 | The pair taken out of the queue is carried by the new delivery, in exactly the expected version |
| Claims.ClaimKeeps | crates/kas-store/src/lib.rs:1752-1897 | A claim keeps the invariant of every path, with the window and the one-delivery-each rules in it |
| Claims.ClaimBound | crates/kas-store/src/lib.rs:1752-1897 | One claim returns at most `limit` deliveries, expired leases and new work together, all of the Driver's current generation |
| Recovery.ListedOwners | crates/kas-store/src/lib.rs:221-225 | Refreshing from a listing of the table gives the running manager of each Manifest |
| Recovery.ReopenRestores | crates/kas-store/src/lib.rs:227-241 | Opening a store restores the invariant from any tables on disk, whatever their observations say |
| Safety.StepKeeps | crates/kas-store/src/lib.rs:871-1959 | Every step of the control loop keeps the invariant of every path that it does not delete unsafely |
| Safety.BooksOverRuns | crates/kas-store/src/lib.rs:871-1959 | Deliveries, windows, caches and history are in order over every run, with no restriction on what is deleted |
| Safety.NoWorkIsLost | crates/kas-store/src/lib.rs:1244-1897 | Over every run from an opened store that never deletes this path unsafely, whatever it does to others: whatever a running Driver owes the Resource, to observe it in the current revisions or to make its status agree, is queued under exactly these revisions, or a live delivery of the current generation carries it |
| Safety.NoIdleWork | crates/kas-store/src/lib.rs:1244-1897 | Over every such run the queue holds nothing of the path but what a Driver owes it |
| Safety.AtRestIsAsDesired | crates/kas-store/src/lib.rs:1244-1897 | At rest, over every such run: when nothing of the path is queued or in hand, exactly the running Drivers that select it have observed it, in the current revisions, and its status document is as desired if a running Driver manages it; and when that is so nothing of it is queued |
| Safety.QuietIsAsDesired | crates/kas-store/src/reconcile.rs:187-234 | Nothing is outstanding for a row if and only if it is as desired |
| Safety.StaleMessagesDoNothing | crates/kas-store/src/lib.rs:1329-1959 | A message of any other generation than the current one leaves the whole store as it was |
| Safety.GenerationsGrow | crates/kas-store/src/lib.rs:1262-1264 | No step lowers a generation or removes a Driver |
| Safety.RestartFencesOff | crates/kas-store/src/lib.rs:1244-1327 | Once a Driver has been started again, no message of an earlier generation changes anything, whatever happened in between |
| Safety.DeliveryWindow | crates/kas-store/src/lib.rs:1752-1897 | Over every run: at most 16 live deliveries for a Driver, no two for one Resource, no two Runs, each of the current generation |
| History.EffectIsNew | crates/kas-store/src/lib.rs:1562-1630 | A batch takes effect only if it never did before; a repeated or refused batch leaves the store as it was |
| History.MutationsCommitAtMostOnce | crates/kas-store/src/lib.rs:1562-1630 | Over every run a batch takes effect at most once for each delivery, request and generation |
| History.CompletedCacheIsBounded | crates/kas-store/src/lib.rs:1722-1737 | Over every run the completed ids equal their queue, number at most 4096, and are disjoint from the live deliveries |
| History.RunsStep | crates/kas-store/src/lib.rs:1812-1854 | Runs change in three ways only: enqueued, claimed, finished |
| History.RunEndsByItsDelivery | crates/kas-store/src/lib.rs:3711-3726 | A Run ends only while running, through the live delivery, the Driver and the generation recorded in it, as succeeded or failed as the Driver says |
| History.TerminalStays | crates/kas-store/src/lib.rs:3711-3726 | A Run that ended stays as it ended while it exists |
| History.TerminalForever | crates/kas-store/src/lib.rs:1528-1542 | Over every run a Run ends at most once |
| History.OnlyRunnableRunsAreClaimed | crates/kas-store/src/lib.rs:1812-1854 | Only a queued or running Run is handed out, to its own Driver in its current generation |
| Protocol.RivalWritesAreRefused | crates/kas-store/src/lib.rs:975-979 | No update is lost: once a write went through, every write or deletion based on the same revision is refused, whatever happens in between, unless the Resource is created anew |
| Protocol.StatusBatchesAreConfined | crates/kas-store/src/lib.rs:3685-3710 | However many status reports a batch makes, it changes rows of Manifests its running Driver owns only, and of these neither what is desired nor what was observed; it removes only rows whose deletion was asked for |
| Protocol.CompletionRemovesExactly | crates/kas-store/src/lib.rs:1665-1686 | A completion removes a row exactly when both documents say deleted and every Driver that now has to observe it has |
| Protocol.CompletionRecords | crates/kas-store/src/lib.rs:1632-1690 | A completion records its observation, confirms the package only for the owner, touches nothing that is desired and no other row, and cannot be made twice |
| Protocol.AbandonRequeues | crates/kas-store/src/lib.rs:1692-1720 | After a delivery was given up its work, if still needed, is queued |
| Protocol.ServedAfterAcknowledgement | crates/kas-store/src/lib.rs:1941-1959 | Over every run, also over restarts: a delivery counts as acknowledged for a Driver and generation only after that Driver acknowledged it in that generation |
| Protocol.ServiceNeedsAcknowledgement | crates/kas-store/src/lib.rs:1591-1664 | A completion, a batch or the end of a Run acts only on a delivery that is acknowledged for the Driver and generation that asks |
| Protocol.RenewalExtends | crates/kas-store/src/lib.rs:1920-1939 | Renewal succeeds exactly if all deliveries are the Driver's, and changes nothing but their leases |
| Protocol.ReconnectionRecovers | crates/kas-store/src/lib.rs:1774-1918 | Nothing is stranded on a lost connection: the first full claim of a Driver that reconnected hands it every delivery it had |
| Protocol.LeaseProtects | crates/kas-store/src/lib.rs:1774-1790 | What a claim handed out is not handed out again before its lease ends |
| Protocol.RunsComeFirst | crates/kas-store/src/lib.rs:1806-1860 | A claim with room leaves no waiting Run behind while it fills up with reconciliations |
| Protocol.DriversMove | crates/kas-store/src/lib.rs:1244-1424 | A Driver starts only from rest, with the next generation; runs only after starting; and stops from starting or running |
| Deletion.DeletionIsAsDocumented | crates/kas-store/src/lib.rs:1049-1091 | The documented promise (every matching Driver sees the deletion before the row goes) holds if and only if the Resource has an owner or no running Driver selects it |
| Deletion.DeleteKeepsExactly | crates/kas-store/src/lib.rs:1070-1084 | The deletion keeps the invariant of its path if and only if the Resource is owned or nobody has anything left to observe on it; it keeps that of every other path; an unsafe one leaves the row at the new revision asking for the old |
| Deletion.DeletedRowOkExactly | crates/kas-store/src/lib.rs:3658-3683 | A deletion, by a user or by a Driver's mutation, leaves its row up to date if and only if the Resource is owned or nobody has anything left to observe |
| Deletion.WriteRepairs | crates/kas-store/src/lib.rs:960-1009 | Whatever became of the observations of a row, an accepted write restores the invariant of its path |
| Deletion.UnsafeDeleteLosesWork | crates/kas-store/src/lib.rs:1072-1084 | A concrete run of four events (delete, claim, failure, restart) after which a running watcher has work that neither the queue nor any delivery knows |
| Deletion.UnsafeDeletionStrands | crates/kas-store/src/lib.rs:1072-1084 | After any deletion that is not safe, the next claim of a running watcher that has still to observe the Resource leaves its pair outstanding, carried by no delivery in the expected version and, if the claim had room to spare, not queued |
| Effects.CreatedIsStored | crates/kas-store/src/lib.rs:871-916 | A creation stores both documents as given, in their first revision, observed by nobody; refused for an unknown Manifest or a taken path |
| Effects.WrittenIsStored | crates/kas-store/src/lib.rs:960-1009 | A write stores state and specification in the next revision and leaves the status alone; refused on a stale revision or a protected Resource |
| Effects.DeletionIsStored | crates/kas-store/src/lib.rs:1049-1091 | A deletion marks the row; without an owner it makes the status agree and removes the row with its Runs if all had observed it |
| Effects.MutationIsStored | crates/kas-store/src/lib.rs:3583-3727 | Each mutation of a Driver stores what the call of a user would, or a report of the running owner in the current revision, and is answered with the documents it made |
| Effects.BatchIsRefused | crates/kas-store/src/lib.rs:1611-1621 | A batch is refused exactly if one of its mutations is, on what those before it made |
| Effects.BatchIsAnswered | crates/kas-store/src/lib.rs:1611-1621 | A batch is answered with one Resource for each mutation, in order, and touches nothing else |
| Effects.AppliedAsAsked | crates/kas-store/src/lib.rs:1562-1630 | A batch is answered from the cache, or is for an acknowledged reconciliation of this Driver and generation and takes effect as a whole, or changes nothing; every refusal has its reason |
| Effects.DocumentsStand | crates/kas-store/src/lib.rs:871-1959 | Over every run, what is desired of a Resource changes through writes, deletions and mutations of it only, and what is reported of it through reports, deletions and creations only |
| Effects.LastWriteStands | crates/kas-store/src/lib.rs:960-1009 | Over every run, a Resource asks for what was last written until somebody writes, deletes or recreates it |
| Effects.EnqueuedWaits | crates/kas-store/src/lib.rs:1430-1499 | A Run is enqueued for the manager of an existing target under a free path, and waits to be claimed by it |
| Effects.FinishingEnds | crates/kas-store/src/lib.rs:1528-1542 | The Run a Driver was handed ends as the Driver says, with its mutations, and its delivery is over; it is refused, and nothing happens, exactly if the delivery is not its own acknowledged one for a Run, a mutation is refused, or the Run is gone or in other hands |
| Effects.EndedAsReported | crates/kas-store/src/lib.rs:3906-3919 | Over every run, a Run that ended did so as its own Driver said, succeeded or failed |
| Effects.ClaimGives | crates/kas-store/src/lib.rs:1752-1897 | A claim gives the deliveries whose lease ended, as many as the limit allows; a waiting Run, running from then on in this generation; and new work that is to be done, on rows as they are; nothing else in hand changes |
| Effects.EndedAsSaid | crates/kas-store/src/lib.rs:1632-1720 | A completion is for the Driver's own acknowledged reconciliation and can be repeated as long as it is remembered; giving up needs no acknowledgement; either ends the delivery and forgets its answers |
| Effects.ClaimIsRefused | crates/kas-store/src/lib.rs:1752-1773 | A claim gives nothing to a Driver nobody knows or that does not run in this generation |
| Effects.MessagesAreCalls | crates/kas-store/src/lib.rs:1329-1959 | Each message of a Driver is the call it names, in its own name and generation |
| Effects.EventsAreCalls | crates/kas-store/src/lib.rs:871-1959 | Each event of a run is the call it names, with its arguments |
| Effects.ReopenedKeepsTables | crates/kas-store/src/lib.rs:227-241 | Opening a store keeps every document, Run and Driver, forgets what was in hand and what was answered, and never uses an id again |
| Effects.AcknowledgedAsSaid | crates/kas-store/src/lib.rs:1899-1959 | An acknowledgement is the Driver's own and gives a full lease; a reset makes everything the Driver has claimable |
| Effects.StartedAsAsked | crates/kas-store/src/lib.rs:1244-1327 | A start: from rest only, in a new generation, keeping exactly the reconciliations still asked for, unacknowledged and claimable, and forgetting their answers |
| Effects.StoppedAsAsked | crates/kas-store/src/lib.rs:1359-1389 | A stop: the Driver is to be stopped, and is stopping if it was starting or running |
| Effects.ReportedAsSaid | crates/kas-store/src/lib.rs:1329-1424 | Reports about the process count in the current generation only, readiness only while starting |
| Effects.RewrittenAsAsked | crates/kas-store/src/lib.rs:960-1009 | A Driver document is rewritten in its current revision if it is not protected and the specification is in order, and the process is left alone; every refusal has its reason |
| Effects.ProjectsExactly | crates/kas-store/src/lib.rs:3027-3092 | A specification is in order exactly if it names a valid account and Manifests, none twice, all valid and registered, all its patterns are valid, and no other Driver has the account or a Manifest of it |
| Convergence.QueueYieldsExactlyTheOutstanding | crates/kas-store/src/lib.rs:1858-1872 | With nothing outstanding the queue yields nothing; an outstanding pair that is not in hand makes it yield something |
| Convergence.SubmissionOnRow | benchmarks/kas-benchmark/src/bin/kas-benchmark-driver.rs:184-196 | On one row the owner's status write settles its drift and is nothing to any other Driver, and a row observed by all is outstanding for no other |
| Convergence.CompletionSettles | crates/kas-store/src/lib.rs:1632-1690 | On one row a completion settles the pair of its Driver and no other |
| Convergence.SubmittingSettlesNothing | crates/kas-store/src/lib.rs:1562-1589 | Between its status write and its completion an owner has its pair in hand: the write leaves the unsettled pairs as they are, also when it is repeated |
| Convergence.CompletingSettlesItsPair | crates/kas-store/src/lib.rs:1632-1690 | A completion of a delivery that is up to date takes its own pair off the unsettled ones and, unless it removes the row, no other |
| Convergence.CompletingAddsNothing | crates/kas-store/src/lib.rs:1632-1690 | No completion, also of an overtaken delivery or of one whose row is gone, adds an unsettled pair or overtakes a delivery; it ends its own delivery, and settles its pair if the row is gone |
| Convergence.AbandoningAddsNothing | crates/kas-store/src/lib.rs:1692-1720 | Only an overtaken delivery meets a conflict and is given up, and giving it up adds neither a pair nor an overtaken delivery |
| Convergence.SubmissionOutcome | crates/kas-store/src/lib.rs:1562-1589 | A status write that was not answered before goes through if the Driver owns the row in its current revision, and removes it if its deletion waited for nothing else; otherwise it is a conflict, or not found if the row is gone, and changes nothing |
| Convergence.HandsCanEnd | crates/kas-store/src/lib.rs:1562-1720 | An acknowledged delivery can be completed, now or after its batch, or is given up, unless its row is gone and its owner is told so |
| Convergence.Converges | crates/kas-store/src/lib.rs:1562-1897 | Once writing stops, from any state that satisfies the invariant, deletions under way and overtaken deliveries included, over every interleaving of claims, acknowledgements, lease messages, status writes, completions and abandonments of any number of Drivers: the sum of unsettled pairs and overtaken deliveries falls with each completion or abandonment and never rises, so it bounds their number; if nothing was overtaken or being deleted, each settles exactly one pair and nothing else does; with nothing unsettled every Resource is as desired and the queue yields nothing to anybody |
| Convergence.OpenedIsQuiescent | crates/kas-store/src/lib.rs:227-241 | Every store just opened is at the start of such a phase with nothing in hand, and nothing overtaken or being deleted exactly if nothing on disk is being deleted |
| Convergence.NeverStuck | crates/kas-store/src/lib.rs:1752-1897 | An outstanding pair of a running Driver is in its hands, or its next claim with room puts new work there, unless its one free place goes to a Run that waits for the Driver and is taken |
| Stores.Store.constructor | crates/kas-store/src/lib.rs:227-241 | Opening resynchronises every row and rebuilds the queue |
| Stores.Store.SchedulePath | crates/kas-store/src/lib.rs:198-210 | Schedules an existing Resource, removes a missing one |
| Stores.Store.CreateResource | crates/kas-store/src/lib.rs:871-916 | Performs exactly the step `Create` |
| Stores.Store.UpdateResource | crates/kas-store/src/lib.rs:960-1009 | Performs exactly the step `Write` |
| Stores.Store.DeleteResource | crates/kas-store/src/lib.rs:1049-1091 | Performs exactly the step `Delete`, both branches as the code has them |
| Stores.Store.Transact | crates/kas-store/src/lib.rs:1611-1621 | The batch as one transaction: all mutations in order, or the first refusal and nothing |
| Stores.Store.ApplyReconciliationMutations | crates/kas-store/src/lib.rs:1562-1630 | Performs exactly the step `Apply`: cached answer, checks, transaction, scheduling, cache |
| Stores.Store.RemoveCompletedDelivery | crates/kas-store/src/lib.rs:1722-1737 | Forgets the delivery and its answers, and remembers its id within the bound |
| Stores.Store.CompleteReconciliation | crates/kas-store/src/lib.rs:1632-1690 | Performs exactly the step `Complete` |
| Stores.Store.AbandonReconciliation | crates/kas-store/src/lib.rs:1692-1720 | Performs exactly the step `Abandon` |
| Stores.Store.FinishRunDelivery | crates/kas-store/src/lib.rs:1528-1542 | Performs exactly the step `FinishRun` |
| Stores.Store.AcknowledgeDelivery | crates/kas-store/src/lib.rs:1941-1959 | Performs exactly the step `Acknowledge` |
| Stores.Store.ResetDeliveryLeases | crates/kas-store/src/lib.rs:1899-1918 | Performs exactly the step `ResetLeases` |
| Stores.Store.RenewDeliveryLeases | crates/kas-store/src/lib.rs:1920-1939 | Performs exactly the step `RenewLeases`; renewals before the first stale id stay |
| Stores.Store.Enqueue | crates/kas-store/src/lib.rs:1430-1499 | Performs exactly the step `EnqueueRun` |
| Stores.Store.CommitDriver | crates/kas-store/src/lib.rs:1265-1281 | Writes the document of a Driver and brings exactly the affected partitions up to date |
| Stores.Store.RestampDeliveries | crates/kas-store/src/lib.rs:1292-1320 | Keeps, for the new generation, exactly the reconciliations whose observation is still expected |
| Stores.Store.Reschedule | crates/kas-store/src/lib.rs:1321-1325 | Refreshes the owners to the running managers and schedules exactly the changed rows |
| Stores.Store.StartDriver | crates/kas-store/src/lib.rs:1244-1327 | Performs exactly the step `StartDriver` |
| Stores.Store.StopDriver | crates/kas-store/src/lib.rs:1359-1389 | Performs exactly the step `StopDriver` |
| Stores.Store.ProjectManifests | crates/kas-store/src/lib.rs:3046-3090 | Accepts exactly the specifications with a valid service account no other Driver has, well-formed watches, and at least one managed Manifest, nothing twice, all valid and registered and none managed by another Driver |
| Stores.Store.UpdateDriver | crates/kas-store/src/lib.rs:960-1009 | Performs exactly the step `UpdateDriver` |
| Stores.Store.MarkDriverReady | crates/kas-store/src/lib.rs:1329-1347 | Performs exactly the step `MarkReady` |
| Stores.Store.MarkDriverFailed | crates/kas-store/src/lib.rs:1391-1410 | Performs exactly the step `MarkFailed` |
| Stores.Store.MarkDriverStopped | crates/kas-store/src/lib.rs:1412-1424 | Performs exactly the step `MarkStopped` |
| Stores.Store.RenewExpired | crates/kas-store/src/lib.rs:1774-1790 | Renews as many expired deliveries as the limit allows, and only such |
| Stores.Store.ClaimRunDelivery | crates/kas-store/src/lib.rs:1812-1854 | Claims a Run exactly if there is room, none is active and one waits |
| Stores.Store.FillFromQueue | crates/kas-store/src/lib.rs:1856-1893 | Fills the remaining capacity exactly as the step does, keeping count and active Resources incrementally |
| Stores.Store.ClaimDeliveries | crates/kas-store/src/lib.rs:1752-1897 | Performs exactly the step `Claim`, with choices a claim may make |
| Sessions.OneEffectPerDelivery | crates/kas-driver/src/lib.rs:424-446 | Over every run of control plane, connections, clients and everybody else, from any store just opened: a delivery changes Resources by mutations at most once in each generation, with no hypothesis on the calls made |
| Sessions.WorkedOnOnce | apps/kas-api/src/lib.rs:763-806 | On every connection a delivery is sent at most once, starts at most one task, and that task sends at most one batch |
| Sessions.CompletedAfterItsBatch | crates/kas-driver/src/lib.rs:447-477 | A task told that its batch is committed can rely on it, and a connection that sent a batch for a delivery completes the delivery only after the batch took effect; at most 16 deliveries are in flight |
| Sessions.StaleConnectionsDoNothing | apps/kas-api/src/lib.rs:740-762 | Whatever a connection of another generation than the current one still hears, the store stays as it is |
| Sessions.OldConnectionsAreFencedOff | apps/kas-api/src/lib.rs:740-762 | Any calls said by a Driver in a generation that is not current leave the store as it was |
| Sessions.MoveKeeps | apps/kas-api/src/lib.rs:660-1128 | Every move of the dialogue keeps: each connection's window and flight, one request id for each delivery, and the truth of every answer under way |
| Sessions.HeardKeeps | apps/kas-api/src/lib.rs:903-1128 | Handling any message keeps a connection in order: what leaves the flight is gone for good, and what is answered as committed is |
| Sessions.HandlingBatch | apps/kas-api/src/lib.rs:956-1128 | A batch answered as committed took effect in this generation, now or before; a delivery leaves the flight only if it is gone from the store |
| Sessions.TurnedKeeps | apps/kas-api/src/lib.rs:763-806 | One turn of the server keeps the window and sends nothing that was sent before on the connection |
| Sessions.ReceivedKeeps | crates/kas-driver/src/lib.rs:256-326 | An arriving message keeps the table of tasks in order: answers go to whoever waits for them |
| Sessions.WorkedKeeps | crates/kas-driver/src/lib.rs:408-535 | A task that goes on keeps it in order: one batch under the id of the delivery, then the completion |
| Service.AcksCount | apps/kas-api/src/lib.rs:948-955 | An acknowledgement counts for what is in flight and the Driver's; otherwise the connection closes and nothing changes |
| Service.HeartbeatsRenew | apps/kas-api/src/lib.rs:1030-1037 | A heartbeat renews what it names of what is in flight; the connection stays open exactly as long as all of it is the Driver's and the Driver runs in this generation |
| Service.OnlyAcceptableBatchesAct | apps/kas-api/src/lib.rs:1056-1086 | A batch that is unauthorized, of another generation, not in flight, not the Driver's or of the wrong kind makes no call and is rejected |
| Service.BatchesAct | apps/kas-api/src/lib.rs:956-1008 | An acceptable batch for a Resource is applied and answered as the store answered; after a conflict the delivery is given back and leaves the flight |
| Service.RunBatchesAct | apps/kas-api/src/lib.rs:1087-1128 | An acceptable batch for a Run ends it as the batch says, and the delivery leaves the flight with it |
| Service.CompletionsAct | apps/kas-api/src/lib.rs:1009-1029 | A completion of this generation that goes through, now or before, is answered and leaves the flight; any other closes the connection |
| Service.TurnSends | apps/kas-api/src/lib.rs:763-806 | A turn sends each delivery that is claimed and not in flight once, with its kind, and has it in flight from then on |
| Service.ReconciliationLives | crates/kas-driver/src/lib.rs:408-477 | The life of a reconciliation task, from its delivery over one batch to the confirmed completion, or to its end after an error or a rejection |
| Service.ExecutionLives | crates/kas-driver/src/lib.rs:478-535 | The life of the task of a Run: one batch that says how it ended |
| Service.TasksAreSeparate | crates/kas-driver/src/lib.rs:256-326 | A message changes the task it is for and no other; a repeated delivery starts none, and an answer nobody waits for is dropped |
| Service.MessagesTravel | apps/kas-api/src/lib.rs:903-1051 | What is heard is off the wire, its answer is on it, and each arriving delivery is acknowledged |
| Service.UnauthorizedDoesNothing | apps/kas-api/src/lib.rs:1056-1128 | In the whole dialogue, hearing an unauthorized batch changes neither the store nor the calls made, and the client is told |
| Service.ServerMoves | apps/kas-api/src/lib.rs:763-1051 | What the server does is a claim of the room in the window, or the handling of one message, and touches no other connection |
| Service.ClientsMove | crates/kas-driver/src/lib.rs:208-535 | What a client does on its own leaves the store alone: deliveries are acknowledged, tasks send what they say, heartbeats name the tasks at work |
| Service.OthersMove | apps/kas-api/src/lib.rs:660-762 | A Driver that connects gets a connection of its own, and everything it had can be claimed again; a call from elsewhere is a step of the store |
| Progress.StepGrows | crates/kas-store/src/lib.rs:1562-1897 | No step uses a delivery id again, forgets a commit, or lets the cache answer in another generation than that of the commit |
| Endpoints.Connection.ClaimAndSend | apps/kas-api/src/lib.rs:763-806 | Performs exactly one turn: claims what fits into the window and sends what is not in flight |
| Endpoints.Connection.HearAck | apps/kas-api/src/lib.rs:948-955 | Acknowledges what is in flight, and closes the connection otherwise, exactly as the dialogue says |
| Endpoints.Connection.HearHeartbeat | apps/kas-api/src/lib.rs:1030-1037 | Renews the leases of exactly the listed deliveries that are in flight; closes the connection if one is not the Driver's any more or the Driver does not run in this generation |
| Endpoints.Connection.HearBatch | apps/kas-api/src/lib.rs:956-1128 | Performs exactly `HandleBatch`: checks, one call of the kind the delivery asks for, and after a conflict the abandonment |
| Endpoints.Connection.HearComplete | apps/kas-api/src/lib.rs:1009-1029 | Performs exactly `HandleComplete` |
| Endpoints.Connection.Hear | apps/kas-api/src/lib.rs:903-1051 | Performs exactly `Handle` on every message |
| Endpoints.Client.Receive | crates/kas-driver/src/lib.rs:256-326 | The table of handles and the two tables of waiters do exactly what the abstract table of tasks does |
| Endpoints.Client.Work | crates/kas-driver/src/lib.rs:417-535 | Performs exactly the next step of a task, and sends exactly its message |
| Endpoints.Client.Beat | crates/kas-driver/src/lib.rs:208-219 | The heartbeat names exactly the tasks at work, and is left out if there are none |
| Endpoints.Client.Abort | crates/kas-driver/src/lib.rs:353-355 | Ends all tasks |
| Cascade.EnqueuingStaysGrounded | crates/kas-store/src/lib.rs:1430-1499 | Enqueuing a Run cannot close a cycle of Run targets |
| Cascade.TouchDependentLinks | crates/kas-store/src/events.rs:83-123 | Moves exactly the other, live Links that depend on the path to a new revision, and re-observes them |
| Cascade.HardDelete | crates/kas-store/src/lib.rs:3730-3763 | Terminates; the result is the table after single removals in some order, each with its reason when its turn came: asked for, running on a row removed later, or finished with no Link depending on it at that moment; surviving Links of removed rows are handed out again, and nothing is newly left to finish |
| Cascade.MaybeFinish | crates/kas-store/src/lib.rs:3765-3789 | Removes the row exactly when both its documents say deleted, every Driver concerned has observed it and no Link names it as relation, source or target; every row that goes runs on a later one or is finished at its own removal |
| Cascade.FinishableExactly | crates/kas-store/src/lib.rs:3765-3805 | The condition under which a deletion is finished, by the fields of the documents and of the Links |
| Cascade.FinishReasons | crates/kas-store/src/lib.rs:3765-3789 | What can be finished still can when its turn comes, after everything removed before it |
| Cascade.OrderIsWhatGoes | crates/kas-store/src/lib.rs:3730-3763 | Exactly the rows of the order are gone |
| Cascade.CascadeIsComplete | crates/kas-store/src/lib.rs:3730-3789 | No remaining Run lost its target; if nothing was waiting to finish before, nothing is now |
| Cascade.LinksHoldTheirEndpoints | crates/kas-store/src/lib.rs:3774-3776 | While a Link remains, what it depends on remains, unless it was the row asked for or a Run of a removed row |
| Cascade.LinksOutlive | crates/kas-store/src/events.rs:83-123 | If a surviving Link loses its relation, its source or its target, that was the row asked for or a Run of a removed row, and the Link, unless it is being deleted, is at a later revision for its Drivers to observe; nothing else of it changes |
| Approvals.StepKeeps | studio/packages/approval/driver/src/main.rs:197-356 | Every call of every decider, and every expiry, keeps the protocol invariant |
| Approvals.DecidedAtMostOnce | studio/packages/approval/driver/src/main.rs:197-356 | Over every interleaving of any number of deciders with the expiring Driver: the Request follows its lifecycle one revision at a time, leaves `pending` at most once, and its operation is sent at most once; the same for Package Requests |
| Approvals.OneDecisionStands | forge/packages/package-request/driver/src/main.rs:234-333 | While one decider holds the Request or was told of success, no other holds it, was told of success or rejection, or sent anything |
| Approvals.UndisturbedDecision | studio/packages/approval/driver/src/main.rs:197-356 | An undisturbed decider of a pending Approval or Package Request is told what happened: executed once and stored, rejected, or refused for want of rights |
| Approvals.DecidedByTheBook | studio/packages/approval/driver/src/main.rs:197-356 | Over every interleaving: an operation is sent only by somebody who approved, read the Request when it was not overdue (a Package Request: pending), had the rights, and whose claim was answered and confirmed; claims, rejections, expiries and final states each have their cause |
| Approvals.TicketMovesExactly | studio/packages/approval/driver/src/main.rs:197-356 | Whoever else writes: a decision, a final state and an expiry go through exactly if the revision is still the one read, claimed or watched, and nothing else changes the Request |
| Approvals.DecidersAreCautious | studio/packages/approval/driver/src/main.rs:540-565 | A decider goes on only in the revision it claimed, is told of success only if its final state was stored, and is moved by its own calls only |
| Approvals.ExpiresExactly | studio/packages/approval/driver/src/lib.rs:140-183 | A Request handed to the Driver expires exactly if it is overdue, pending and unchanged when the Driver gets to it |
| Approvals.Desk.Update | studio/packages/approval/driver/src/main.rs:567-591 | Compare and set on the revision |
| Approvals.Desk.Claim | studio/packages/approval/driver/src/main.rs:518-530 | Performs exactly the step `Claims` |
| Approvals.Desk.Confirm | studio/packages/approval/driver/src/main.rs:540-565 | Performs exactly the step `Confirms` |
| Approvals.Desk.Finish | studio/packages/approval/driver/src/main.rs:532-538 | Performs exactly the step `Finishes` |
| Approvals.Desk.Load | forge/packages/package-request/driver/src/main.rs:249-272 | Performs exactly the step `Loads`, for both services |
| Approvals.Desk.Check | studio/packages/approval/driver/src/main.rs:263-288 | Performs exactly the step `Checks` |
| Approvals.Desk.Send | studio/packages/approval/driver/src/main.rs:324-324 | Performs exactly the step `Sends` |
| Approvals.Desk.Expire | studio/packages/approval/driver/src/lib.rs:140-183 | Performs exactly the step `Expires` |
| Approvals.Desk.Decide | studio/packages/approval/driver/src/main.rs:197-356 | The calls of one decider, in the order of the code |
| Supervision.OneActiveTask | apps/kas-api/src/supervisor.rs:80-155 | Over every sequence of commands and reports, at most one task of a Driver runs untold to stop; it is the one in the table, with no restart waiting |
| Supervision.LateReportsAreIgnored | apps/kas-api/src/supervisor.rs:131-147 | For every instance that was ever started and is no longer named in the table, whether a Stop, a Restart or its own end replaced it: over any later commands its report changes nothing |
| Supervision.ReportTakesEffectOnce | apps/kas-api/src/supervisor.rs:131-147 | Over every sequence of commands at most one report of an instance has any effect |
| Supervision.LastRestartIsStarted | apps/kas-api/src/supervisor.rs:107-117 | The last Restart that no Stop followed is the launch started when the old instance reports |
| Supervision.StopCancelsRestart | apps/kas-api/src/supervisor.rs:123-126 | After a Stop the report of the old instance starts nothing, even if a Restart was waiting |
| Supervision.CommandsAreObeyed | apps/kas-api/src/supervisor.rs:90-128 | A Driver that is wanted is started unless it is supervised; a restart tells the running task to stop and waits; a stop tells it and forgets the Driver, or stops one that is not supervised in the store |
| Supervision.ReportsAreHeard | apps/kas-api/src/supervisor.rs:131-147 | A report of the instance in the table starts what waits, or frees the entry |
| Supervision.EndsAreReported | apps/kas-api/src/supervisor.rs:163-200 | A task that has ended, and no other, may report that it has |
| Supervision.WantedIsSupervised | apps/kas-api/src/supervisor.rs:80-155 | Once wanted, a Driver is supervised until it is stopped or its task has reported its end, whatever else is commanded |
| Supervision.Supervisor.Start | apps/kas-api/src/supervisor.rs:163-200 | Performs exactly the step `Started` |
| Supervision.Supervisor.Handle | apps/kas-api/src/supervisor.rs:90-150 | Performs exactly the step of the command; a Stop for a Driver that is not supervised is a call of `stop_driver` |
| Supervision.Supervisor.Receive | apps/kas-api/src/supervisor.rs:80-155 | The loop performs the commands in the order they are received |
| Packages.ResolveReferenceTwice | crates/kas-core/src/lib.rs:883-900 | Resolving a resolved reference changes nothing |
| Packages.ResolvePatternTwice | crates/kas-core/src/lib.rs:864-881 | Resolving a resolved pattern changes nothing |
| Packages.SpecIsNormalForm | crates/kas-core/src/lib.rs:743-818 | Resolving the references of a resolved specification, of any kind, changes nothing |
| Packages.ResolveSpec | crates/kas-core/src/lib.rs:743-818 | Resolves every embedded reference of the specification; otherwise it is malformed, or the error names the first reference, in the order of the code, that cannot be resolved |
| Packages.ResolveWatch | crates/kas-core/src/lib.rs:827-843 | Resolves one selector and its paths, or names the first pattern that cannot be resolved |
| Packages.ExpandIdentity | crates/kas-core/src/lib.rs:698-707 | Resolves the path and the Manifest of a packaged Resource, unless one cannot be resolved or the Resource is itself a Manifest |
| Packages.Expand | crates/kas-core/src/lib.rs:644-741 | Succeeds exactly on the packages that mean something: every definition resolves, paths are distinct, at most one packaged Driver; otherwise reports the first thing that is wrong, and everything before it is fine |
| Packages.ExpansionIsSandboxed | crates/kas-core/src/lib.rs:644-741 | On success every Resource has a valid path of its own in the sandbox of the package, is owned by its Manifest, and holds no relative reference |
| Packages.AtMostOneDriverExactly | crates/kas-core/src/lib.rs:662-712 | The whole plan of a package that expands holds at most two Drivers, and at most one if and only if the package does not declare both its own Manifest and one of its Resources by references that resolve to the Driver Manifest |
| Packages.TwoDriversExpand | crates/kas-core/src/lib.rs:662-712 | For every publisher and name: the package whose Manifest is declared a Driver and whose one Resource is another expands, and plans exactly these two Drivers |
| Packages.TwoDriversInOnePackage | crates/kas-core/src/lib.rs:662-712 | For instance the package under /packages/a/b |
| Packages.RootDriverIsNotCounted | crates/kas-core/src/lib.rs:662-712 | Every package that expands still expands when its own Manifest is declared to be a Driver |
| Packages.OwnPatternsAreRefusedTwice | crates/kas-core/src/lib.rs:653-662 | The Manifest's own instance patterns are not a normal form: outside the platform's packages an absolute pattern is refused |
| Sandbox.RootIsPrefix | crates/kas-core/src/path.rs:125-138 | The package of a valid path is the one whose root it is, or begins with, followed by a slash |
| Sandbox.RelativeStaysInside | crates/kas-core/src/lib.rs:914-923 | A relative pattern, resolved, matches nothing outside the package, and below its root exactly what the relative pattern matches, block by block |
| Sandbox.ResolvesExactly | crates/kas-core/src/lib.rs:864-923 | Exactly these texts resolve: what fits below the root, `.`, what is valid itself, and for patterns `*`; absolute own patterns in the packages of the platform only |
| Sandbox.BlamedAsWritten | crates/kas-core/src/lib.rs:864-923 | A pattern that does not resolve is reported as written or, if only the absolute pattern it stands for is too long, as that |
| Sandbox.EntrypointsGoDown | crates/kas-core/src/lib.rs:925-943 | An entry point is accepted exactly if it is relative and every step of it goes down |
| Sandbox.ExpansionLeads | crates/kas-core/src/lib.rs:644-818 | Where everything in a plan leads: each Resource, Manifest, entry point and reference, each selector and path of a watch, each rule, and the patterns of the Manifest, lead inside the package if they are relative and are themselves otherwise |

## Left out

- Inclusion.PathPatternContains: completeness ranges over all words of valid segments and ignores the limit of 1024 bytes on a whole path, so a refuting word may be longer than a path may be; soundness holds for all paths.
- Inclusion.Search: the alphabet is a set; the sorting and deduplication that make the code's list canonical are modelled for state lists only.
- Safety.NoWorkIsLost: a store call is one step, so interleavings of the document read with the queue update inside one scheduling are not covered; nor are Links, Runs and Driver Resources as things to be reconciled, which several calls touch without scheduling them. Deletions of the path in question, and of no other, are safe in the sense of `Steps.SafeDelete`: after any other deletion that goes through the property is false (`Deletion.DeleteKeepsExactly`).
- Safety.NoIdleWork: deletions of the path in question are safe, as for `Safety.NoWorkIsLost`.
- Safety.StepKeeps: the step does not delete the path in question unsafely; what every step keeps without that is `Bookkeeping.StepBooks`.
- Steps.DeleteKeeps: a deletion of the path in question is safe if it goes through; that the invariant survives no other is `Deletion.DeleteKeepsExactly`.
- Steps.MutationsKeep: deletions of the path in question are safe when their turn comes; that no other leaves its row up to date is `Deletion.DeletedRowOkExactly`.
- Steps.ApplyKeeps: deletions of the path in question are safe, as for `Steps.MutationsKeep`; without that, `Bookkeeping.ApplyBooks`.
- Steps.FinishRunKeeps: deletions of the path in question are safe, as for `Steps.MutationsKeep`; without that, `Bookkeeping.FinishRunBooks`.
- Safety.GenerationsGrow: Driver Resources are not removed in the model.
- Convergence.Converges: Drivers keep running, the owner of a Resource answers with it as desired, and Runs do not end during the phase. An owner whose row is gone before its status write is told so and does not complete; its delivery stays in its hands.
- Stores.Store.UpdateDriver: all reasons to refuse a specification are one reply, `Refused`; the code tells a malformed specification from a conflict with another Driver. Credentials are not modelled.
- Sessions.OneEffectPerDelivery: every client is the one of `crates/kas-driver`; another program that invents request ids gets `History.MutationsCommitAtMostOnce`. Handling one message, its check and its calls of the store, is one step. Messages may overtake one another and get lost, but are not duplicated. Hello, Ping, Pong and Stop carry no work and are left out; Ready and the reports of failure and stopping come as calls from elsewhere.
- Endpoints.Connection.HearBatch: authorization is a parameter; `delegation` covers its rules.
- Cascade.HardDelete: acyclic Run targets are a hypothesis here; that enqueuing and removal keep them so is proved, writes to Run Resources by mutation are not modelled.
- Approvals.Desk.Decide: the Decision documents, which a decider writes beside the Request and waits for, are not modelled; the Request alone decides.
- Approvals.DecidedAtMostOnce: safety only; early returns and lost answers can leave a Request in its working state, and writers other than the service and its Driver are assumed away.
- Progress of a delivery whose client gave up: the server keeps the id in flight on that connection, and nothing is claimed until the connection ends (`Protocol.ReconnectionRecovers`).
- Packages.Expand: the texts of `InvalidResourceSpec` and `InvalidEntrypoint` are left out; JSON is decoded beforehand, into a specification of one kind.
- Resource documents: `spec` is compared, not interpreted; timestamps, JSON Schema validation, reserved keys and default states are not modelled.
- Revisions, generations and identifiers are unbounded natural numbers; the code uses 64-bit integers and random identifiers.
- Creating a Driver, installing or updating packages as transactions, credentials and bootstrap: not modelled.
- The compatibility calls `finish_run`, `complete_driver_delivery` and `finish_reconciliation_with_mutations`, and mutations aimed at Run Resources: not modelled.
- Mutations of Drivers aimed at Driver Resources (`crates/kas-store/src/lib.rs:3583-3727`), which write the document without `reconcile_driver_change`: not modelled; here Driver Resources change by users' writes, starts, stops and status reports only.
- Supervision.Supervisor.Handle: the call of `stop_driver` is recorded, not carried out; what it does is `Stores.Store.StopDriver`.
- The start, backoff and exit handling inside a supervised task, and the closing of the command channel: only the table of tasks is modelled.
- Storage, networking, process handling, archives, and the products built on the kernel other than the two approval services: not modelled.
