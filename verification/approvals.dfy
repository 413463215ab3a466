/** Users deciding on one Request while its Driver may let it expire
    (studio/packages/approval/driver, forge/packages/package-request/driver). */
module Approvals {
  import opened Wrappers

  const PENDING := "pending"

  // Between two calls of one decider anything may happen to the others; each call is one
  // step. The Approval and the Package Request services share the protocol.

  /** The states of the protocol. Only Approvals expire, are checked against the rights
      of the decider first, and wait until their Driver has confirmed the state. */
  datatype Workflow = Workflow(working: string, succeeded: string, failed: string, rejected: string, expired: Option<string>)

  const APPROVAL := Workflow("executing", "succeeded", "failed", "rejected", Some("expired"))
  const PACKAGE_REQUEST := Workflow("installing", "installed", "failed", "rejected", None)

  /** The Request as it is stored, or as somebody read it. */
  datatype Ticket = Ticket(state: string, revision: nat)

  datatype Outcome = Succeeded | Rejected | Failed | Invalid | Superseded | Unanswered

  datatype Phase =
    | Loaded(seen: Ticket, approve: bool)
    | Allowed(seen: Ticket, approve: bool)
    | Working(claimed: Ticket)
    | Ready(claimed: Ticket)
    | Sent(claimed: Ticket, success: bool)
    | Ended(outcome: Outcome)

  /** `history` and `sent` record what was written and what was executed; nothing reads them. */
  datatype Case = Case(
    ticket: Ticket,
    deciders: map<nat, Phase>,
    watchers: map<nat, Ticket>,
    history: seq<string>,
    sent: seq<nat>)

  datatype Verdict = Permitted | Forbidden | Unknown

  datatype Event =
    | Loads(id: nat, expectedRevision: nat, approve: bool, overdue: bool)
    | Checks(id: nat, verdict: Verdict)
    | Claims(id: nat, answered: bool)
    | Confirms(id: nat)
    | Sends(id: nat, success: bool)
    | Finishes(id: nat, reached: bool, answered: bool)
    | Watches(watcher: nat)
    | Expires(watcher: nat, overdue: bool)

  function Opened(revision: nat): Case {
    Case(Ticket(PENDING, revision), map[], map[], [PENDING], [])
  }

  /** Compare and set: the write goes through only for the revision that was read. */
  function Updated(c: Case, expectedRevision: nat, state: string): Case {
    if c.ticket.revision != expectedRevision then c
    else c.(ticket := Ticket(state, expectedRevision + 1), history := c.history + [state])
  }

  function Moved(c: Case, id: nat, phase: Phase): Case {
    c.(deciders := c.deciders[id := phase])
  }

  function Step(w: Workflow, c: Case, e: Event): Case {
    match e
    case Loads(id, expectedRevision, approve, overdue) =>
      if id in c.deciders || c.ticket.revision != expectedRevision then c
      else if w.expired.Some? then
        if overdue then c else Moved(c, id, Loaded(c.ticket, approve))
      else
      if c.ticket.state != PENDING then c else Moved(c, id, Allowed(c.ticket, approve))
    case Checks(id, verdict) =>
      if id !in c.deciders || !c.deciders[id].Loaded? then c
      else
        (match verdict
         case Permitted => Moved(c, id, Allowed(c.deciders[id].seen, c.deciders[id].approve))
         case Forbidden => Moved(c, id, Ended(Invalid))
         case Unknown => Moved(c, id, Ended(Outcome.Failed)))
    case Claims(id, answered) =>
      if id !in c.deciders || !c.deciders[id].Allowed? then c
      else
        var seen, approve := c.deciders[id].seen, c.deciders[id].approve;
        if seen.state != PENDING || c.ticket.revision != seen.revision then Moved(c, id, Ended(Superseded))
        else
          var after := Updated(c, seen.revision, if approve then w.working else w.rejected);
          Moved(after, id,
                if !answered then Ended(Unanswered)
                else if !approve then Ended(Rejected)
                else if w.expired.Some? then Working(after.ticket) else Ready(after.ticket))
    case Confirms(id) =>
      if id !in c.deciders || !c.deciders[id].Working? then c
      else if c.ticket.revision != c.deciders[id].claimed.revision then Moved(c, id, Ended(Unanswered))
      else Moved(c, id, Ready(c.deciders[id].claimed))
    case Sends(id, success) =>
      if id !in c.deciders || !c.deciders[id].Ready? then c
      else Moved(c.(sent := c.sent + [id]), id, Sent(c.deciders[id].claimed, success))
    case Finishes(id, reached, answered) =>
      if id !in c.deciders || !c.deciders[id].Sent? then c
      else
        var claimed, success := c.deciders[id].claimed, c.deciders[id].success;
        var after := if reached then Updated(c, claimed.revision, if success then w.succeeded else w.failed) else c;
        Moved(after, id, Ended(if success && reached && answered && after != c then Succeeded else Outcome.Failed))
    case Watches(watcher) =>
      c.(watchers := c.watchers[watcher := c.ticket])
    case Expires(watcher, overdue) =>
      if watcher !in c.watchers then c
      else
        var seen := c.watchers[watcher];
        var after := if w.expired.Some? && overdue && seen.state == PENDING then Updated(c, seen.revision, w.expired.value) else c;
        after.(watchers := c.watchers - {watcher})
  }

  function Run(w: Workflow, c: Case, es: seq<Event>): Case {
    if es == [] then c else Step(w, Run(w, c, es[..|es| - 1]), es[|es| - 1])
  }

  // ---- What holds in every reachable state ----

  predicate WellNamed(w: Workflow) {
    && PENDING != w.working && PENDING != w.rejected && PENDING != w.succeeded && PENDING != w.failed
    && w.working != w.rejected && w.working != w.succeeded && w.working != w.failed
    && (w.expired.Some? ==> w.expired.value != PENDING && w.expired.value != w.working)
  }

  /** The ways a Request may go. */
  predicate Lifecycle(w: Workflow, history: seq<string>) {
    || history == [PENDING]
    || history == [PENDING, w.rejected]
    || (w.expired.Some? && history == [PENDING, w.expired.value])
    || history == [PENDING, w.working]
    || history == [PENDING, w.working, w.succeeded]
    || history == [PENDING, w.working, w.failed]
  }

  /** The decider whose claim went through, until it has given the Request its final state. */
  predicate Holds(phase: Phase) {
    phase.Working? || phase.Ready? || phase.Sent?
  }

  /** What somebody saw in the current revision is what is stored. */
  predicate Seen(ticket: Ticket, seen: Ticket) {
    seen.revision <= ticket.revision && (seen.revision == ticket.revision ==> seen == ticket)
  }

  ghost predicate DeciderOk(w: Workflow, c: Case, id: nat)
    requires id in c.deciders
  {
    match c.deciders[id]
    case Loaded(seen, _) => Seen(c.ticket, seen)
    case Allowed(seen, _) => Seen(c.ticket, seen)
    case Working(claimed) => claimed == c.ticket && c.ticket.state == w.working && c.sent == []
    case Ready(claimed) => claimed == c.ticket && c.ticket.state == w.working && c.sent == []
    case Sent(claimed, _) => claimed == c.ticket && c.ticket.state == w.working && c.sent == [id]
    case Ended(outcome) =>
      && (outcome.Succeeded? ==> c.ticket.state == w.succeeded && c.sent == [id])
      && (outcome.Rejected? ==> c.ticket.state == w.rejected)
  }

  ghost predicate Inv(w: Workflow, start: nat, c: Case) {
    && Lifecycle(w, c.history) && c.history[|c.history| - 1] == c.ticket.state
    && c.ticket.revision == start + |c.history| - 1
    && (forall id | id in c.deciders :: DeciderOk(w, c, id))
    && (forall a, b | a in c.deciders && b in c.deciders && Holds(c.deciders[a]) && Holds(c.deciders[b]) :: a == b)
    && (forall watcher | watcher in c.watchers :: Seen(c.ticket, c.watchers[watcher]))
    && |c.sent| <= 1 && (c.sent != [] ==> |c.history| >= 2 && c.history[1] == w.working && c.sent[0] in c.deciders)
  }

  /** A decider goes on without touching the Request. */
  lemma MovedKeeps(w: Workflow, start: nat, c: Case, id: nat, phase: Phase)
    requires Inv(w, start, c)
    requires DeciderOk(w, Moved(c, id, phase), id)
    requires Holds(phase) ==> forall other | other in c.deciders && Holds(c.deciders[other]) :: other == id
    ensures Inv(w, start, Moved(c, id, phase))
  {
  }

  /** While the Request is pending nobody holds it and nothing was sent. */
  lemma PendingIsFree(w: Workflow, start: nat, c: Case)
    requires WellNamed(w) && Inv(w, start, c) && c.ticket.state == PENDING
    ensures c.history == [PENDING] && c.sent == []
    ensures forall id | id in c.deciders :: !Holds(c.deciders[id])
  {
  }

  /** Leaving `pending`: only from there, and for one of three states. */
  lemma LeavingKeeps(w: Workflow, start: nat, c: Case, state: string)
    requires WellNamed(w) && Inv(w, start, c) && c.ticket.state == PENDING
    requires state == w.working || state == w.rejected || (w.expired.Some? && state == w.expired.value)
    ensures Inv(w, start, Updated(c, c.ticket.revision, state))
    ensures forall id | id in c.deciders :: !Holds(c.deciders[id])
  {
  }

  lemma ClaimKeeps(w: Workflow, start: nat, c: Case, id: nat, answered: bool)
    requires WellNamed(w) && Inv(w, start, c)
    ensures Inv(w, start, Step(w, c, Claims(id, answered)))
  {
    hide Lifecycle;
    if id in c.deciders && c.deciders[id].Allowed? {
      var seen, approve := c.deciders[id].seen, c.deciders[id].approve;
      assert DeciderOk(w, c, id);
      if seen.state != PENDING || c.ticket.revision != seen.revision {
        MovedKeeps(w, start, c, id, Ended(Superseded));
      } else {
        PendingIsFree(w, start, c);
        LeavingKeeps(w, start, c, if approve then w.working else w.rejected);
        var after := Updated(c, seen.revision, if approve then w.working else w.rejected);
        MovedKeeps(w, start, after, id,
                   if !answered then Ended(Unanswered)
                   else if !approve then Ended(Outcome.Rejected)
                   else if w.expired.Some? then Working(after.ticket) else Ready(after.ticket));
      }
    }
  }

  lemma SendKeeps(w: Workflow, start: nat, c: Case, id: nat, success: bool)
    requires WellNamed(w) && Inv(w, start, c)
    ensures Inv(w, start, Step(w, c, Sends(id, success)))
  {
    if id in c.deciders && c.deciders[id].Ready? {
      assert DeciderOk(w, c, id);
      var c' := Step(w, c, Sends(id, success));
      WorkingHistory(w, c);
      assert c'.sent == [id];
      forall other | other in c'.deciders ensures DeciderOk(w, c', other) {
        assert DeciderOk(w, c, other);
      }
    }
  }

  lemma WorkingHistory(w: Workflow, c: Case)
    requires WellNamed(w) && Lifecycle(w, c.history) && c.history[|c.history| - 1] == w.working
    ensures c.history == [PENDING, w.working]
  {
  }

  lemma FinishKeeps(w: Workflow, start: nat, c: Case, id: nat, reached: bool, answered: bool)
    requires WellNamed(w) && Inv(w, start, c)
    ensures Inv(w, start, Step(w, c, Finishes(id, reached, answered)))
  {
    if id in c.deciders && c.deciders[id].Sent? {
      var claimed, success := c.deciders[id].claimed, c.deciders[id].success;
      assert DeciderOk(w, c, id);
      if !reached {
        MovedKeeps(w, start, c, id, Ended(Outcome.Failed));
      } else {
        var c' := Step(w, c, Finishes(id, reached, answered));
        WorkingHistory(w, c);
        assert c'.history == [PENDING, w.working, if success then w.succeeded else w.failed];
        forall other | other in c'.deciders ensures DeciderOk(w, c', other) {
          assert DeciderOk(w, c, other);
        }
      }
    }
  }

  lemma ExpireKeeps(w: Workflow, start: nat, c: Case, watcher: nat, overdue: bool)
    requires WellNamed(w) && Inv(w, start, c)
    ensures Inv(w, start, Step(w, c, Expires(watcher, overdue)))
  {
    hide Lifecycle;
    if watcher in c.watchers {
      var seen := c.watchers[watcher];
      var after := c;
      if w.expired.Some? && overdue && seen.state == PENDING && seen.revision == c.ticket.revision {
        LeavingKeeps(w, start, c, w.expired.value);
        after := Updated(c, seen.revision, w.expired.value);
      }
      var c' := after.(watchers := after.watchers - {watcher});
      forall id | id in c'.deciders ensures DeciderOk(w, c', id) {
        assert DeciderOk(w, after, id);
      }
    }
  }

  lemma StepKeeps(w: Workflow, start: nat, c: Case, e: Event)
    requires WellNamed(w) && Inv(w, start, c)
    ensures Inv(w, start, Step(w, c, e))
  {
    hide Lifecycle;
    match e
    case Loads(id, _, approve, _) =>
      if id !in c.deciders {
        MovedKeeps(w, start, c, id, Loaded(c.ticket, approve));
        MovedKeeps(w, start, c, id, Allowed(c.ticket, approve));
      }
    case Checks(id, _) =>
      if id in c.deciders && c.deciders[id].Loaded? {
        assert DeciderOk(w, c, id);
        MovedKeeps(w, start, c, id, Allowed(c.deciders[id].seen, c.deciders[id].approve));
        MovedKeeps(w, start, c, id, Ended(Invalid));
        MovedKeeps(w, start, c, id, Ended(Outcome.Failed));
      }
    case Claims(id, answered) => ClaimKeeps(w, start, c, id, answered);
    case Confirms(id) =>
      if id in c.deciders && c.deciders[id].Working? {
        assert DeciderOk(w, c, id);
        MovedKeeps(w, start, c, id, Ready(c.deciders[id].claimed));
      }
    case Sends(id, success) => SendKeeps(w, start, c, id, success);
    case Finishes(id, reached, answered) => FinishKeeps(w, start, c, id, reached, answered);
    case Watches(watcher) => WatchKeeps(w, start, c, watcher);
    case Expires(watcher, overdue) => ExpireKeeps(w, start, c, watcher, overdue);
  }

  lemma WatchKeeps(w: Workflow, start: nat, c: Case, watcher: nat)
    requires Inv(w, start, c)
    ensures Inv(w, start, Step(w, c, Watches(watcher)))
  {
  }

  lemma {:induction false} RunKeeps(w: Workflow, start: nat, es: seq<Event>)
    requires WellNamed(w)
    ensures Inv(w, start, Run(w, Opened(start), es))
  {
    hide Inv, Step;
    if es == [] {
      assert Inv(w, start, Opened(start)) by { OpenedIsFine(w, start); }
    } else {
      RunKeeps(w, start, es[..|es| - 1]);
      StepKeeps(w, start, Run(w, Opened(start), es[..|es| - 1]), es[|es| - 1]);
    }
  }

  lemma OpenedIsFine(w: Workflow, start: nat)
    ensures Inv(w, start, Opened(start))
  {
  }

  predicate Has(deciders: map<nat, Phase>, id: nat, phase: Phase) {
    id in deciders && deciders[id] == phase
  }

  // ---- The results ----

  /** Over every interleaving of any number of deciders with the expiring Driver: the
      Request follows its lifecycle, one revision for each state, so it leaves `pending`
      at most once; and its operation is sent at most once, by a decider whose claim
      moved it from `pending`. */
  lemma DecidedAtMostOnce(w: Workflow, start: nat, es: seq<Event>)
    requires w == APPROVAL || w == PACKAGE_REQUEST
    ensures var c := Run(w, Opened(start), es);
            && Lifecycle(w, c.history) && c.ticket.state == c.history[|c.history| - 1]
            && c.ticket.revision == start + |c.history| - 1
            && |c.sent| <= 1 && (c.sent != [] ==> |c.history| >= 2 && c.history[1] == w.working)
  {
    hide Run;
    RunKeeps(w, start, es);
  }

  /** At most one decider holds the Request, and while one does nobody else has decided
      it; who was told of success was the one whose operation was sent, and whoever was
      told of a rejection can rely on it. */
  lemma OneDecisionStands(w: Workflow, start: nat, es: seq<Event>, a: nat, b: nat)
    requires w == APPROVAL || w == PACKAGE_REQUEST
    requires var c := Run(w, Opened(start), es);
             a in c.deciders && b in c.deciders && a != b && (Holds(c.deciders[a]) || c.deciders[a] == Ended(Outcome.Succeeded))
    ensures var c := Run(w, Opened(start), es);
            && !Holds(c.deciders[b]) && c.deciders[b] != Ended(Outcome.Succeeded) && c.deciders[b] != Ended(Outcome.Rejected)
            && b !in c.sent
            && (c.deciders[a] == Ended(Outcome.Succeeded) ==> c.sent == [a] && c.ticket.state == w.succeeded)
  {
    hide Run, Lifecycle;
    RunKeeps(w, start, es);
    var c := Run(w, Opened(start), es);
    assert DeciderOk(w, c, a) && DeciderOk(w, c, b);
  }

  // ---- Nobody decides on what has changed ----

  /** On any Request, whoever else writes it: a decision, a final state and an expiry go
      through exactly if the revision is still the one that was read, claimed or watched;
      and nothing else changes the Request. */
  lemma TicketMovesExactly(w: Workflow, c: Case, e: Event)
    ensures var after := Step(w, c, e).ticket;
            match e
            case Claims(id, _) =>
              if id in c.deciders && c.deciders[id].Allowed? && c.deciders[id].seen == Ticket(PENDING, c.ticket.revision)
              then after == Ticket(if c.deciders[id].approve then w.working else w.rejected, c.ticket.revision + 1)
              else after == c.ticket
            case Finishes(id, reached, _) =>
              if id in c.deciders && c.deciders[id].Sent? && reached && c.deciders[id].claimed.revision == c.ticket.revision
              then after == Ticket(if c.deciders[id].success then w.succeeded else w.failed, c.ticket.revision + 1)
              else after == c.ticket
            case Expires(watcher, overdue) =>
              if w.expired.Some? && overdue && watcher in c.watchers && c.watchers[watcher] == Ticket(PENDING, c.ticket.revision)
              then after == Ticket(w.expired.value, c.ticket.revision + 1)
              else after == c.ticket
            case _ => after == c.ticket
  {
  }

  /** And a decider goes on only while the Request is as it left it. */
  lemma DecidersAreCautious(w: Workflow, c: Case, e: Event, id: nat)
    ensures var after := Step(w, c, e);
            && (e == Confirms(id) && id in c.deciders && c.deciders[id].Working? ==>
                  Has(after.deciders, id, if c.ticket.revision == c.deciders[id].claimed.revision then Ready(c.deciders[id].claimed)
                      else Ended(Unanswered)))
            && (Has(after.deciders, id, Ended(Outcome.Succeeded)) && !Has(c.deciders, id, Ended(Outcome.Succeeded)) ==>
                  after.ticket == Ticket(w.succeeded, c.ticket.revision + 1))
            && (id in c.deciders && id in after.deciders && after.deciders[id] != c.deciders[id] ==> e.id == id)
  {
  }

  /** What was handed to the Driver expires exactly if it is pending, unchanged and overdue
      when the Driver gets to it, and is looked at once. */
  lemma ExpiresExactly(c: Case, watcher: nat, overdue: bool, start: nat)
    requires Inv(APPROVAL, start, c) && watcher in c.watchers
    ensures var after := Step(APPROVAL, c, Expires(watcher, overdue));
            && (after.ticket == Ticket("expired", c.ticket.revision + 1)
                <==> overdue && c.watchers[watcher] == c.ticket && c.ticket.state == PENDING)
            && (after.ticket != Ticket("expired", c.ticket.revision + 1) ==> after.ticket == c.ticket)
            && after.watchers == c.watchers - {watcher} && after.deciders == c.deciders
    ensures var again := Step(APPROVAL, c, Watches(watcher));
            again.watchers == c.watchers[watcher := c.ticket] && again.ticket == c.ticket
  {
    TicketMovesExactly(APPROVAL, c, Expires(watcher, overdue));
  }

  // ---- By the book ----

  /** At this point of the run the decider read the Request, in the revision it asked for:
      an Approval that was not overdue, or a Package Request that was pending. */
  ghost predicate ReadAt(w: Workflow, start: nat, es: seq<Event>, k: nat, id: nat, approve: bool) {
    && k < |es| && es[k].Loads? && es[k].id == id && es[k].approve == approve
    && var c := Run(w, Opened(start), es[..k]);
    && id !in c.deciders && c.ticket.revision == es[k].expectedRevision
    && (if w.expired.Some? then !es[k].overdue else c.ticket.state == PENDING)
  }

  /** It read the Request and, for an Approval, was found to have the rights itself. */
  ghost predicate Entitled(w: Workflow, start: nat, es: seq<Event>, id: nat, approve: bool) {
    (exists k: nat :: ReadAt(w, start, es, k, id, approve)) && (w.expired.Some? ==> Checks(id, Permitted) in es)
  }

  /** Its claim went through and was answered; for an Approval, the state was confirmed. */
  ghost predicate MayAct(w: Workflow, start: nat, es: seq<Event>, id: nat) {
    Entitled(w, start, es, id, true) && Claims(id, true) in es && (w.expired.Some? ==> Confirms(id) in es)
  }

  ghost predicate SawIt(w: Workflow, start: nat, es: seq<Event>, id: nat, seen: Ticket, approve: bool) {
    exists k: nat :: ReadAt(w, start, es, k, id, approve) && Run(w, Opened(start), es[..k]).ticket == seen
  }

  ghost predicate Trail(w: Workflow, start: nat, es: seq<Event>, id: nat, phase: Phase) {
    match phase
    case Loaded(seen, approve) => SawIt(w, start, es, id, seen, approve)
    case Allowed(seen, approve) => SawIt(w, start, es, id, seen, approve) && Entitled(w, start, es, id, approve)
    case Working(_) => Entitled(w, start, es, id, true) && Claims(id, true) in es
    case Ready(_) => MayAct(w, start, es, id)
    case Sent(_, success) => MayAct(w, start, es, id) && Sends(id, success) in es
    case Ended(outcome) =>
      match outcome
      case Succeeded => MayAct(w, start, es, id) && Sends(id, true) in es && Finishes(id, true, true) in es
      case Rejected => Entitled(w, start, es, id, false) && Claims(id, true) in es
      case Failed => Checks(id, Unknown) in es || Sends(id, true) in es || Sends(id, false) in es
      case Invalid => Checks(id, Forbidden) in es
      case Superseded => Claims(id, true) in es || Claims(id, false) in es
      case Unanswered => Claims(id, false) in es || Confirms(id) in es
  }

  /** Somebody entitled to it decided so, whether or not he got the answer. */
  ghost predicate Claimed(w: Workflow, start: nat, es: seq<Event>, id: nat, approve: bool) {
    Entitled(w, start, es, id, approve) && (Claims(id, true) in es || Claims(id, false) in es)
  }

  /** Why the Request has the states it has had. */
  ghost predicate Caused(w: Workflow, start: nat, es: seq<Event>, history: seq<string>) {
    && (|history| >= 2 ==>
          || (history[1] == w.working && exists id :: Claimed(w, start, es, id, true))
          || (history[1] == w.rejected && exists id :: Claimed(w, start, es, id, false))
          || (&& w.expired.Some? && history[1] == w.expired.value
              && exists watcher :: Watches(watcher) in es && Expires(watcher, true) in es))
    && (|history| >= 3 ==>
          exists id, success :: MayAct(w, start, es, id) && Sends(id, success) in es
                                && history[2] == if success then w.succeeded else w.failed)
  }

  ghost predicate ByTheBook(w: Workflow, start: nat, es: seq<Event>, c: Case) {
    && (forall id | id in c.deciders :: Trail(w, start, es, id, c.deciders[id]))
    && (forall id | id in c.sent :: MayAct(w, start, es, id) && (Sends(id, true) in es || Sends(id, false) in es))
    && (forall watcher | watcher in c.watchers :: Watches(watcher) in es)
    && Caused(w, start, es, c.history)
  }

  lemma ReadAtGrows(w: Workflow, start: nat, es: seq<Event>, e: Event, k: nat, id: nat, approve: bool)
    requires ReadAt(w, start, es, k, id, approve)
    ensures ReadAt(w, start, es + [e], k, id, approve) && (es + [e])[..k] == es[..k]
  {
    hide Run;
    assert (es + [e])[..k] == es[..k];
  }

  lemma EntitledGrows(w: Workflow, start: nat, es: seq<Event>, e: Event, id: nat, approve: bool)
    requires Entitled(w, start, es, id, approve)
    ensures Entitled(w, start, es + [e], id, approve)
    ensures MayAct(w, start, es, id) ==> MayAct(w, start, es + [e], id)
  {
    hide ReadAt;
    var k :| ReadAt(w, start, es, k, id, approve);
    ReadAtGrows(w, start, es, e, k, id, approve);
    if MayAct(w, start, es, id) {
      var l :| ReadAt(w, start, es, l, id, true);
      ReadAtGrows(w, start, es, e, l, id, true);
    }
  }

  lemma TrailGrows(w: Workflow, start: nat, es: seq<Event>, e: Event, id: nat, phase: Phase)
    requires Trail(w, start, es, id, phase)
    ensures Trail(w, start, es + [e], id, phase)
  {
    hide Run;
    forall approve | Entitled(w, start, es, id, approve)
      ensures Entitled(w, start, es + [e], id, approve) && (MayAct(w, start, es, id) ==> MayAct(w, start, es + [e], id))
    {
      EntitledGrows(w, start, es, e, id, approve);
    }
    if phase.Loaded? || phase.Allowed? {
      var k: nat :| ReadAt(w, start, es, k, id, phase.approve) && Run(w, Opened(start), es[..k]).ticket == phase.seen;
      ReadAtGrows(w, start, es, e, k, id, phase.approve);
    }
  }

  lemma CausedGrows(w: Workflow, start: nat, es: seq<Event>, e: Event, history: seq<string>)
    requires Caused(w, start, es, history)
    ensures Caused(w, start, es + [e], history)
  {
    hide Entitled;
    forall id, approve | Entitled(w, start, es, id, approve)
      ensures Entitled(w, start, es + [e], id, approve) && (MayAct(w, start, es, id) ==> MayAct(w, start, es + [e], id))
      ensures Claimed(w, start, es, id, approve) ==> Claimed(w, start, es + [e], id, approve)
    {
      EntitledGrows(w, start, es, e, id, approve);
    }
  }

  lemma {:induction false} RunsByTheBook(w: Workflow, start: nat, es: seq<Event>)
    requires WellNamed(w)
    ensures ByTheBook(w, start, es, Run(w, Opened(start), es))
  {
    hide ByTheBook, Run, Step;
    if es == [] {
      NothingYet(w, start);
    } else {
      var front, e := es[..|es| - 1], es[|es| - 1];
      RunsByTheBook(w, start, front);
      RunKeeps(w, start, front);
      OneStepByTheBook(w, start, front, e, Run(w, Opened(start), front));
      assert es == front + [e];
      RunSnoc(w, start, front, e);
    }
  }

  lemma NothingYet(w: Workflow, start: nat)
    ensures ByTheBook(w, start, [], Run(w, Opened(start), []))
  {
  }

  lemma RunSnoc(w: Workflow, start: nat, es: seq<Event>, e: Event)
    ensures Run(w, Opened(start), es + [e]) == Step(w, Run(w, Opened(start), es), e)
  {
    hide Step;
    assert (es + [e])[..|es|] == es;
  }

  lemma OneStepByTheBook(w: Workflow, start: nat, es: seq<Event>, e: Event, c: Case)
    requires WellNamed(w) && Inv(w, start, c) && c == Run(w, Opened(start), es) && ByTheBook(w, start, es, c)
    ensures ByTheBook(w, start, es + [e], Step(w, c, e))
  {
    hide Run, Inv, Step, Trail, Caused, MayAct;
    var es', c' := es + [e], Step(w, c, e);
    forall id | id in c'.deciders ensures Trail(w, start, es', id, c'.deciders[id]) {
      if Has(c.deciders, id, c'.deciders[id]) {
        TrailGrows(w, start, es, e, id, c.deciders[id]);
      } else {
        PhaseByTheBook(w, start, es, e, c, id);
      }
    }
    SentByTheBook(w, start, es, e, c);
    HistoryByTheBook(w, start, es, e, c);
    assert e == es'[|es|];
  }

  lemma PhaseByTheBook(w: Workflow, start: nat, es: seq<Event>, e: Event, c: Case, id: nat)
    requires c == Run(w, Opened(start), es) && id in Step(w, c, e).deciders && !Has(c.deciders, id, Step(w, c, e).deciders[id])
    requires id in c.deciders ==> Trail(w, start, es, id, c.deciders[id])
    ensures Trail(w, start, es + [e], id, Step(w, c, e).deciders[id])
  {
    hide Run, Trail;
    if e.Loads? {
      ReadNow(w, start, es, e, c, id);
    } else {
      OnlyItsOwn(w, c, e, id);
      TrailGrows(w, start, es, e, id, c.deciders[id]);
      NextPhase(w, start, es + [e], e, c, id);
    }
  }

  lemma OnlyItsOwn(w: Workflow, c: Case, e: Event, id: nat)
    requires !e.Loads? && id in Step(w, c, e).deciders && !Has(c.deciders, id, Step(w, c, e).deciders[id])
    ensures id in c.deciders && !e.Watches? && !e.Expires? && e.id == id
  {
  }

  lemma ReadNow(w: Workflow, start: nat, es: seq<Event>, e: Event, c: Case, id: nat)
    requires c == Run(w, Opened(start), es) && id in Step(w, c, e).deciders && !Has(c.deciders, id, Step(w, c, e).deciders[id])
    requires e.Loads?
    ensures Trail(w, start, es + [e], id, Step(w, c, e).deciders[id])
  {
    hide Run;
    var es' := es + [e];
    assert e == es'[|es|] && es'[..|es|] == es;
    assert ReadAt(w, start, es', |es|, id, e.approve);
  }

  lemma NextPhase(w: Workflow, start: nat, es: seq<Event>, e: Event, c: Case, id: nat)
    requires id in c.deciders && Trail(w, start, es, id, c.deciders[id]) && e in es
    requires !e.Loads? && !e.Watches? && !e.Expires? && e.id == id
    ensures var c' := Step(w, c, e); id in c'.deciders && Trail(w, start, es, id, c'.deciders[id])
  {
    hide SawIt, Entitled, Run, Updated;
    match e
    case Checks(_, verdict) =>
      if verdict.Permitted? && c.deciders[id].Loaded? {
        PermittedNow(w, start, es, id, c.deciders[id].seen, c.deciders[id].approve);
      }
    case Claims(_, answered) =>
    case Confirms(_) =>
    case Sends(_, success) =>
    case Finishes(_, reached, answered) =>
  }

  lemma PermittedNow(w: Workflow, start: nat, es: seq<Event>, id: nat, seen: Ticket, approve: bool)
    requires SawIt(w, start, es, id, seen, approve) && Checks(id, Permitted) in es
    ensures Entitled(w, start, es, id, approve)
  {
    hide ReadAt, Run;
  }

  lemma SentByTheBook(w: Workflow, start: nat, es: seq<Event>, e: Event, c: Case)
    requires ByTheBook(w, start, es, c)
    ensures forall id | id in Step(w, c, e).sent ::
              MayAct(w, start, es + [e], id) && (Sends(id, true) in es + [e] || Sends(id, false) in es + [e])
    ensures forall watcher | watcher in Step(w, c, e).watchers :: Watches(watcher) in es + [e]
  {
    hide Entitled, Caused;
    var es' := es + [e];
    assert e == es'[|es|];
    forall id | id in Step(w, c, e).sent ensures MayAct(w, start, es', id) && (Sends(id, true) in es' || Sends(id, false) in es') {
      if id in c.sent {
        EntitledGrows(w, start, es, e, id, true);
      } else {
        assert e.Sends? && e.id == id;
        EntitledGrows(w, start, es, e, id, true);
      }
    }
  }

  lemma HistoryByTheBook(w: Workflow, start: nat, es: seq<Event>, e: Event, c: Case)
    requires WellNamed(w) && Inv(w, start, c) && ByTheBook(w, start, es, c)
    ensures Caused(w, start, es + [e], Step(w, c, e).history)
  {
    hide Entitled, ReadAt, Caused;
    var es', c' := es + [e], Step(w, c, e);
    CausedGrows(w, start, es, e, c.history);
    if c'.history != c.history {
      assert e == es'[|es|];
      NewState(w, start, es, e, c);
    }
  }

  lemma NewState(w: Workflow, start: nat, es: seq<Event>, e: Event, c: Case)
    requires WellNamed(w) && Inv(w, start, c) && ByTheBook(w, start, es, c) && Step(w, c, e).history != c.history
    ensures Caused(w, start, es + [e], Step(w, c, e).history)
  {
    hide Entitled, ReadAt, Caused, Lifecycle, MayAct;
    var es', c' := es + [e], Step(w, c, e);
    assert e == es'[|es|];
    if e.Claims? {
      var id := e.id;
      PendingIsFree(w, start, c);
      EntitledGrows(w, start, es, e, id, c.deciders[id].approve);
      assert e == Claims(id, e.answered);
      assert c'.history == [PENDING, if c.deciders[id].approve then w.working else w.rejected];
      ClaimIsCause(w, start, es', id, c.deciders[id].approve, e.answered);
    } else if e.Finishes? {
      var id := e.id;
      assert DeciderOk(w, c, id) && Trail(w, start, es, id, c.deciders[id]);
      WorkingHistory(w, c);
      CausedGrows(w, start, es, e, c.history);
      MayActGrows(w, start, es, e, id);
      FinishIsCause(w, start, es', c.history, id, c.deciders[id].success);
    } else {
      PendingIsFree(w, start, c);
      assert e == Expires(e.watcher, true) && Watches(e.watcher) in es;
      assert c'.history == [PENDING, w.expired.value];
      ExpiryIsCause(w, start, es', e.watcher);
    }
  }

  lemma MayActGrows(w: Workflow, start: nat, es: seq<Event>, e: Event, id: nat)
    requires MayAct(w, start, es, id)
    ensures MayAct(w, start, es + [e], id)
  {
    hide Entitled;
    EntitledGrows(w, start, es, e, id, true);
  }

  lemma ClaimIsCause(w: Workflow, start: nat, es: seq<Event>, id: nat, approve: bool, answered: bool)
    requires Entitled(w, start, es, id, approve) && Claims(id, answered) in es
    ensures Caused(w, start, es, [PENDING, if approve then w.working else w.rejected])
  {
    hide Entitled;
    assert Claimed(w, start, es, id, approve);
  }

  lemma FinishIsCause(w: Workflow, start: nat, es: seq<Event>, history: seq<string>, id: nat, success: bool)
    requires Caused(w, start, es, history) && |history| == 2 && MayAct(w, start, es, id) && Sends(id, success) in es
    ensures Caused(w, start, es, history + [if success then w.succeeded else w.failed])
  {
    hide Entitled, MayAct;
  }

  lemma ExpiryIsCause(w: Workflow, start: nat, es: seq<Event>, watcher: nat)
    requires w.expired.Some? && Watches(watcher) in es && Expires(watcher, true) in es
    ensures Caused(w, start, es, [PENDING, w.expired.value])
  {
    hide Entitled, MayAct;
  }

  /** Over every interleaving: an operation is sent only by somebody who approved, had read
      the Request when it was not overdue (for a Package Request: pending), had the rights
      himself, and whose claim was answered and confirmed; the Request is claimed only by
      somebody so entitled, rejected only by somebody who rejected, and expires only under
      its Driver when overdue; and its final state is what the operation came to. */
  lemma DecidedByTheBook(w: Workflow, start: nat, es: seq<Event>)
    requires w == APPROVAL || w == PACKAGE_REQUEST
    ensures var c := Run(w, Opened(start), es);
            && (forall id | id in c.sent :: MayAct(w, start, es, id) && (Sends(id, true) in es || Sends(id, false) in es))
            && Caused(w, start, es, c.history)
            && (forall id | id in c.deciders :: Trail(w, start, es, id, c.deciders[id]))
  {
    hide Run, Trail, Caused, MayAct;
    RunsByTheBook(w, start, es);
  }

  // ---- The service ----

  /** The stored Request, and the calls that deciders and the Driver make on it. */
  class Desk {
    const workflow: Workflow
    var ticket: Ticket
    var deciders: map<nat, Phase>
    var watchers: map<nat, Ticket>
    ghost var history: seq<string>
    ghost var sent: seq<nat>

    ghost function State(): Case
      reads this
    {
      Case(ticket, deciders, watchers, history, sent)
    }

    constructor (workflow: Workflow, revision: nat)
      ensures this.workflow == workflow && State() == Opened(revision)
    {
      this.workflow, ticket, deciders, watchers, history, sent := workflow, Ticket(PENDING, revision), map[], map[], [PENDING], [];
    }

    /** `update_resource_state` and `update_request`: the store compares revisions. */
    method Update(expectedRevision: nat, state: string) returns (ok: bool)
      modifies this`ticket, this`history
      ensures State() == Updated(old(State()), expectedRevision, state)
      ensures ok <==> old(ticket).revision == expectedRevision
    {
      ok := ticket.revision == expectedRevision;
      if ok {
        ticket, history := Ticket(state, expectedRevision + 1), history + [state];
      }
    }

    method Load(id: nat, expectedRevision: nat, approve: bool, overdue: bool)
      modifies this`deciders
      ensures State() == Step(workflow, old(State()), Loads(id, expectedRevision, approve, overdue))
    {
      if id in deciders || ticket.revision != expectedRevision {
        return;
      }
      if workflow.expired.Some? {
        if !overdue {
          deciders := deciders[id := Loaded(ticket, approve)];
        }
      } else if ticket.state == PENDING {
        deciders := deciders[id := Allowed(ticket, approve)];
      }
    }

    method Check(id: nat, verdict: Verdict)
      modifies this`deciders
      ensures State() == Step(workflow, old(State()), Checks(id, verdict))
    {
      if id in deciders && deciders[id].Loaded? {
        match verdict
        case Permitted => deciders := deciders[id := Allowed(deciders[id].seen, deciders[id].approve)];
        case Forbidden => deciders := deciders[id := Ended(Invalid)];
        case Unknown => deciders := deciders[id := Ended(Outcome.Failed)];
      }
    }

    /** `claim_request`. */
    method Claim(id: nat, answered: bool)
      modifies this`ticket, this`deciders, this`history
      ensures State() == Step(workflow, old(State()), Claims(id, answered))
    {
      if id !in deciders || !deciders[id].Allowed? {
        return;
      }
      var seen, approve := deciders[id].seen, deciders[id].approve;
      if seen.state != PENDING {
        deciders := deciders[id := Ended(Superseded)];
        return;
      }
      var ok := Update(seen.revision, if approve then workflow.working else workflow.rejected);
      if !ok {
        deciders := deciders[id := Ended(Superseded)];
      } else if !answered {
        deciders := deciders[id := Ended(Unanswered)];
      } else if !approve {
        deciders := deciders[id := Ended(Outcome.Rejected)];
      } else if workflow.expired.Some? {
        deciders := deciders[id := Working(ticket)];
      } else {
        deciders := deciders[id := Ready(ticket)];
      }
    }

    /** `wait_for_status`: the Request may not change under the decider. */
    method Confirm(id: nat)
      modifies this`deciders
      ensures State() == Step(workflow, old(State()), Confirms(id))
    {
      if id in deciders && deciders[id].Working? {
        if ticket.revision != deciders[id].claimed.revision {
          deciders := deciders[id := Ended(Unanswered)];
        } else {
          deciders := deciders[id := Ready(deciders[id].claimed)];
        }
      }
    }

    method Send(id: nat, success: bool)
      modifies this`deciders, this`sent
      ensures State() == Step(workflow, old(State()), Sends(id, success))
    {
      if id in deciders && deciders[id].Ready? {
        sent := sent + [id];
        deciders := deciders[id := Sent(deciders[id].claimed, success)];
      }
    }

    /** `finish_request`: an outcome that could not be stored is reported as a failure. */
    method Finish(id: nat, reached: bool, answered: bool)
      modifies this`ticket, this`deciders, this`history
      ensures State() == Step(workflow, old(State()), Finishes(id, reached, answered))
    {
      if id !in deciders || !deciders[id].Sent? {
        return;
      }
      var claimed, success := deciders[id].claimed, deciders[id].success;
      var stored := false;
      if reached {
        stored := Update(claimed.revision, if success then workflow.succeeded else workflow.failed);
      }
      deciders := deciders[id := Ended(if success && stored && answered then Outcome.Succeeded else Outcome.Failed)];
    }

    method Watch(watcher: nat)
      modifies this`watchers
      ensures State() == Step(workflow, old(State()), Watches(watcher))
    {
      watchers := watchers[watcher := ticket];
    }

    /** The Driver's `reconcile_blocking` for a Request it was handed earlier. */
    method Expire(watcher: nat, overdue: bool)
      modifies this`ticket, this`watchers, this`history
      ensures State() == Step(workflow, old(State()), Expires(watcher, overdue))
    {
      if watcher in watchers {
        var seen := watchers[watcher];
        if workflow.expired.Some? && overdue && seen.state == PENDING {
          var ok := Update(seen.revision, workflow.expired.value);
        }
        watchers := watchers - {watcher};
      }
    }

    /** `decide_approval` and `decide_request` by a decider nobody interferes with:
        its calls, in its order. */
    method Decide(id: nat, approve: bool, verdict: Verdict, success: bool)
      modifies this
      ensures State() == Run(workflow, old(State()), Calls(workflow, id, old(ticket).revision, approve, verdict, success))
    {
      hide Step, Run;
      ghost var es := Calls(workflow, id, ticket.revision, approve, verdict, success);
      ghost var c := State();
      RunNothing(workflow, c);
      assert es[..0] == [] && es[..|es|] == es;
      RunStep(workflow, c, es, 0);
      Load(id, ticket.revision, approve, false);
      if workflow.expired.Some? {
        RunStep(workflow, c, es, 1);
        Check(id, verdict);
        RunStep(workflow, c, es, 2);
        Claim(id, true);
        RunStep(workflow, c, es, 3);
        Confirm(id);
        RunStep(workflow, c, es, 4);
        Send(id, success);
        RunStep(workflow, c, es, 5);
      } else {
        RunStep(workflow, c, es, 1);
        Claim(id, true);
        RunStep(workflow, c, es, 2);
        Send(id, success);
        RunStep(workflow, c, es, 3);
      }
      Finish(id, true, true);
    }
  }

  function Calls(w: Workflow, id: nat, expectedRevision: nat, approve: bool, verdict: Verdict, success: bool): seq<Event> {
    if w.expired.Some? then
      [Loads(id, expectedRevision, approve, false), Checks(id, verdict), Claims(id, true), Confirms(id), Sends(id, success),
       Finishes(id, true, true)]
    else
      [Loads(id, expectedRevision, approve, false), Claims(id, true), Sends(id, success), Finishes(id, true, true)]
  }

  lemma RunNothing(w: Workflow, c: Case)
    ensures Run(w, c, []) == c
  {
  }

  lemma RunStep(w: Workflow, c: Case, es: seq<Event>, k: nat)
    requires k < |es|
    ensures Run(w, c, es[..k + 1]) == Step(w, Run(w, c, es[..k]), es[k])
  {
    hide Step;
    assert es[..k + 1][..k] == es[..k];
  }

  /** What an undisturbed decider of a pending Request is told is what happened. */
  lemma UndisturbedDecision(w: Workflow, c: Case, id: nat, approve: bool, verdict: Verdict, success: bool)
    requires w == APPROVAL || w == PACKAGE_REQUEST
    requires id !in c.deciders && c.ticket.state == PENDING
    ensures var after := Run(w, c, Calls(w, id, c.ticket.revision, approve, verdict, success));
            if w == APPROVAL && !verdict.Permitted? then
              && after.ticket == c.ticket && after.sent == c.sent
              && Has(after.deciders, id, Ended(if verdict.Forbidden? then Invalid else Outcome.Failed))
            else if approve then
              && after.ticket == Ticket(if success then w.succeeded else w.failed, c.ticket.revision + 2)
              && after.sent == c.sent + [id]
              && Has(after.deciders, id, Ended(if success then Outcome.Succeeded else Outcome.Failed))
            else
              && after.ticket == Ticket(w.rejected, c.ticket.revision + 1) && after.sent == c.sent
              && Has(after.deciders, id, Ended(Outcome.Rejected))
  {
    hide Run, Step;
    var es := Calls(w, id, c.ticket.revision, approve, verdict, success);
    RunNothing(w, c);
    assert es[..0] == [] && es[..|es|] == es;
    RunStep(w, c, es, 0);
    RunStep(w, c, es, 1);
    RunStep(w, c, es, 2);
    RunStep(w, c, es, 3);
    if w == APPROVAL {
      RunStep(w, c, es, 4);
      RunStep(w, c, es, 5);
    }
    LoadedNow(w, c, id, approve);
    var c1 := Step(w, c, Loads(id, c.ticket.revision, approve, false));
    if w == APPROVAL {
      CheckedNow(c1, id, verdict);
    }
    if w == APPROVAL && !verdict.Permitted? {
      EndedStays(w, Step(w, c1, Checks(id, verdict)), id, success);
    } else {
      var c2 := Moved(c1, id, Allowed(c.ticket, approve));
      assert w == PACKAGE_REQUEST ==> c2 == c1;
      ClaimedNow(w, c2, id);
      if approve {
        FinishedNow(w, Step(w, c2, Claims(id, true)), id, success);
      } else {
        EndedStays(w, Step(w, c2, Claims(id, true)), id, success);
      }
    }
  }

  /** A pending Request can be read by everybody who is in time. */
  lemma LoadedNow(w: Workflow, c: Case, id: nat, approve: bool)
    requires id !in c.deciders && c.ticket.state == PENDING
    ensures Step(w, c, Loads(id, c.ticket.revision, approve, false))
         == Moved(c, id, if w.expired.Some? then Loaded(c.ticket, approve) else Allowed(c.ticket, approve))
  {
  }

  lemma CheckedNow(c: Case, id: nat, verdict: Verdict)
    requires id in c.deciders && c.deciders[id].Loaded?
    ensures var after := Step(APPROVAL, c, Checks(id, verdict));
            if verdict.Permitted? then after == Moved(c, id, Allowed(c.deciders[id].seen, c.deciders[id].approve))
            else && after.ticket == c.ticket && after.sent == c.sent
                 && Has(after.deciders, id, Ended(if verdict.Forbidden? then Invalid else Outcome.Failed))
  {
  }

  lemma ClaimedNow(w: Workflow, c: Case, id: nat)
    requires id in c.deciders && c.deciders[id].Allowed? && c.deciders[id].seen == c.ticket && c.ticket.state == PENDING
    ensures var approve, state := c.deciders[id].approve, if c.deciders[id].approve then w.working else w.rejected;
            var claimed := Ticket(state, c.ticket.revision + 1);
            Step(w, c, Claims(id, true))
            == Moved(Updated(c, c.ticket.revision, state), id,
                     if !approve then Ended(Outcome.Rejected) else if w.expired.Some? then Working(claimed) else Ready(claimed))
  {
  }

  lemma FinishedNow(w: Workflow, c: Case, id: nat, success: bool)
    requires Has(c.deciders, id, if w.expired.Some? then Working(c.ticket) else Ready(c.ticket))
    ensures var c1 := if w.expired.Some? then Step(w, c, Confirms(id)) else c;
            var after := Step(w, Step(w, c1, Sends(id, success)), Finishes(id, true, true));
            && after.ticket == Ticket(if success then w.succeeded else w.failed, c.ticket.revision + 1)
            && after.sent == c.sent + [id]
            && Has(after.deciders, id, Ended(if success then Outcome.Succeeded else Outcome.Failed))
  {
  }

  /** Nobody acts after the end. */
  lemma EndedStays(w: Workflow, c: Case, id: nat, success: bool)
    requires id in c.deciders && c.deciders[id].Ended?
    ensures Step(w, c, Claims(id, true)) == c && Step(w, c, Confirms(id)) == c
    ensures Step(w, c, Sends(id, success)) == c && Step(w, c, Finishes(id, true, true)) == c
  {
  }
}
