/** The process supervisor (apps/kas-api/src/supervisor.rs): one loop owns the table, every
    Driver runs in a task, and the loop may hear of the end of a task much later. */
module Supervision {
  import opened Wrappers

  /** What is started; the plan stands for everything else a launch carries. */
  datatype Launch = Launch(path: string, plan: nat)

  datatype Supervised = Supervised(instance: nat, pending: Option<Launch>)

  /** A task: `desired` is the channel through which it is told to stop. */
  datatype Task = Task(launch: Launch, desired: bool, ended: bool)

  /** `stops` are the calls of `stop_driver` made, for Drivers that are not supervised. */
  datatype SupervisorState = SupervisorState(drivers: map<string, Supervised>, tasks: map<nat, Task>, next: nat, stops: seq<string>)

  datatype Command =
    | EnsureRunning(launch: Launch)
    | Restart(launch: Launch)
    | Stop(path: string)
    | Finished(path: string, instance: nat)
    | Ends(instance: nat)

  const IDLE := SupervisorState(map[], map[], 0, [])

  function Started(s: SupervisorState, launch: Launch): SupervisorState {
    s.(drivers := s.drivers[launch.path := Supervised(s.next, None)],
    tasks := s.tasks[s.next := Task(launch, true, false)], next := s.next + 1)
  }

  /** `desired.send(false)`. */
  function Told(s: SupervisorState, instance: nat): SupervisorState {
    if instance in s.tasks then s.(tasks := s.tasks[instance := s.tasks[instance].(desired := false)]) else s
  }

  function Step(s: SupervisorState, c: Command): SupervisorState {
    match c
    case EnsureRunning(launch) =>
      if launch.path in s.drivers then s else Started(s, launch)
    case Restart(launch) =>
      if launch.path in s.drivers then
        var current := s.drivers[launch.path];
        Told(s, current.instance).(drivers := s.drivers[launch.path := current.(pending := Some(launch))])
      else Started(s, launch)
    case Stop(path) =>
      if path in s.drivers then Told(s, s.drivers[path].instance).(drivers := s.drivers - {path}) else s.(stops := s.stops + [path])
    case Finished(path, instance) =>
      if path in s.drivers && s.drivers[path].instance == instance then
        var rest := s.(drivers := s.drivers - {path});
        if s.drivers[path].pending.Some? then Started(rest, s.drivers[path].pending.value) else rest
      else s
    case Ends(instance) =>
      if instance in s.tasks then s.(tasks := s.tasks[instance := s.tasks[instance].(ended := true)]) else s
  }

  /** Only a task that ended reports that it did; how often and when is open. */
  predicate Possible(s: SupervisorState, c: Command) {
    c.Finished? ==> c.instance in s.tasks && s.tasks[c.instance].ended && s.tasks[c.instance].launch.path == c.path
  }

  function Run(s: SupervisorState, cs: seq<Command>): SupervisorState {
    if cs == [] then s else Step(Run(s, cs[..|cs| - 1]), cs[|cs| - 1])
  }

  predicate AllPossible(s: SupervisorState, cs: seq<Command>) {
    cs != [] ==> AllPossible(s, cs[..|cs| - 1]) && Possible(Run(s, cs[..|cs| - 1]), cs[|cs| - 1])
  }

  // ---- Safety ----

  /** The table names the tasks it means; a task that is not being replaced is wanted. */
  ghost predicate Inv(s: SupervisorState) {
    && (forall instance | instance in s.tasks :: instance < s.next)
    && (forall path | path in s.drivers ::
          && s.drivers[path].instance in s.tasks
          && s.tasks[s.drivers[path].instance].launch.path == path
          && s.tasks[s.drivers[path].instance].desired == s.drivers[path].pending.None?
          && (s.drivers[path].pending.Some? ==> s.drivers[path].pending.value.path == path))
    && (forall instance | instance in s.tasks && s.tasks[instance].desired && !s.tasks[instance].ended ::
          s.tasks[instance].launch.path in s.drivers && s.drivers[s.tasks[instance].launch.path].instance == instance)
  }

  lemma StartedKeeps(s: SupervisorState, launch: Launch)
    requires Inv(s) && launch.path !in s.drivers
    ensures Inv(Started(s, launch))
  {
  }

  lemma StepKeeps(s: SupervisorState, c: Command)
    requires Inv(s) && Possible(s, c)
    ensures Inv(Step(s, c))
  {
    match c
    case EnsureRunning(launch) => if launch.path !in s.drivers { StartedKeeps(s, launch); }
    case Restart(launch) => if launch.path !in s.drivers { StartedKeeps(s, launch); }
    case Finished(path, instance) =>
      if path in s.drivers && s.drivers[path].instance == instance {
        var rest := s.(drivers := s.drivers - {path});
        assert Inv(rest);
        if s.drivers[path].pending.Some? {
          StartedKeeps(rest, s.drivers[path].pending.value);
        }
      }
    case Stop(_) =>
    case Ends(_) =>
  }

  lemma {:induction false} RunKeeps(s: SupervisorState, cs: seq<Command>)
    requires Inv(s) && AllPossible(s, cs)
    ensures Inv(Run(s, cs))
  {
    hide Inv, Step, Possible;
    if cs != [] {
      RunKeeps(s, cs[..|cs| - 1]);
      StepKeeps(Run(s, cs[..|cs| - 1]), cs[|cs| - 1]);
    }
  }

  /** Still running, and not told to stop. */
  predicate Active(s: SupervisorState, instance: nat, path: string) {
    instance in s.tasks && s.tasks[instance].launch.path == path && s.tasks[instance].desired && !s.tasks[instance].ended
  }

  /** Over every sequence of commands and reports: of one Driver at most one task runs
      that was not told to stop, and it is the one in the table, with no restart waiting. */
  lemma OneActiveTask(cs: seq<Command>, path: string, a: nat, b: nat)
    requires AllPossible(IDLE, cs)
    requires Active(Run(IDLE, cs), a, path)
    ensures var s := Run(IDLE, cs);
            && path in s.drivers && s.drivers[path] == Supervised(a, None)
            && (Active(s, b, path) ==> a == b)
  {
    hide Run, AllPossible;
    RunKeeps(IDLE, cs);
  }

  // ---- Reports that come late ----

  /** The instance the table names for the Driver. */
  predicate Supervises(s: SupervisorState, path: string, instance: nat) {
    path in s.drivers && s.drivers[path].instance == instance
  }

  /** An instance once started that the table does not name is never named again,
      whatever commands follow: new entries get new instances. */
  lemma {:induction false} GoneForGood(s: SupervisorState, cs: seq<Command>, path: string, instance: nat)
    requires instance < s.next && !Supervises(s, path, instance)
    ensures instance < Run(s, cs).next && !Supervises(Run(s, cs), path, instance)
  {
    if cs != [] {
      GoneForGood(s, cs[..|cs| - 1], path, instance);
    }
  }

  /** The report of an instance that was replaced, by a Stop, by a Restart or by its own
      end, changes nothing, however late it comes: it never takes away a newer instance. */
  lemma LateReportsAreIgnored(cs: seq<Command>, later: seq<Command>, path: string, instance: nat)
    requires AllPossible(IDLE, cs) && instance in Run(IDLE, cs).tasks && !Supervises(Run(IDLE, cs), path, instance)
    ensures var s := Run(Run(IDLE, cs), later); Step(s, Finished(path, instance)) == s
  {
    hide AllPossible, Run;
    RunKeeps(IDLE, cs);
    GoneForGood(Run(IDLE, cs), later, path, instance);
  }

  lemma {:induction false} RunConcat(s: SupervisorState, cs: seq<Command>, ds: seq<Command>)
    ensures Run(s, cs + ds) == Run(Run(s, cs), ds)
  {
    hide Step;
    if ds == [] {
      assert cs + ds == cs;
    } else {
      RunConcat(s, cs, ds[..|ds| - 1]);
      assert (cs + ds)[..|cs + ds| - 1] == cs + ds[..|ds| - 1];
    }
  }

  lemma {:induction false} PossiblePrefix(s: SupervisorState, cs: seq<Command>, n: nat)
    requires AllPossible(s, cs) && n <= |cs|
    ensures AllPossible(s, cs[..n])
    ensures n < |cs| ==> Possible(Run(s, cs[..n]), cs[n])
  {
    hide Step, Possible;
    if n == |cs| {
      assert cs[..n] == cs;
    } else if n < |cs| - 1 {
      PossiblePrefix(s, cs[..|cs| - 1], n);
      assert cs[..|cs| - 1][..n] == cs[..n];
    }
  }

  /** Of all the reports of one instance, over every run, at most one has any effect. */
  lemma ReportTakesEffectOnce(cs: seq<Command>, path: string, instance: nat, j: nat, k: nat)
    requires AllPossible(IDLE, cs) && j < k < |cs| && cs[j] == cs[k] == Finished(path, instance)
    requires Step(Run(IDLE, cs[..j]), cs[j]) != Run(IDLE, cs[..j])
    ensures Step(Run(IDLE, cs[..k]), cs[k]) == Run(IDLE, cs[..k])
  {
    hide Run, AllPossible;
    PossiblePrefix(IDLE, cs, j);
    RunKeeps(IDLE, cs[..j]);
    var s := Run(IDLE, cs[..j]);
    var after := Run(IDLE, cs[..j + 1]);
    assert after == Step(s, cs[j]) by {
      LastStep(IDLE, cs, j);
    }
    assert cs[..k] == cs[..j + 1] + cs[j + 1..k];
    RunConcat(IDLE, cs[..j + 1], cs[j + 1..k]);
    GoneForGood(after, cs[j + 1..k], path, instance);
  }

  lemma LastStep(s: SupervisorState, cs: seq<Command>, j: nat)
    requires j < |cs|
    ensures Run(s, cs[..j + 1]) == Step(Run(s, cs[..j]), cs[j])
  {
    hide Step;
    assert cs[..j + 1][..j] == cs[..j];
  }

  // ---- The launch that follows ----

  /** Nothing in between speaks about this Driver's table entry. */
  predicate Unrelated(c: Command, path: string, instance: nat) {
    match c
    case EnsureRunning(_) => true
    case Restart(launch) => launch.path != path
    case Stop(p) => p != path
    case Finished(p, i) => p != path || i != instance
    case Ends(_) => true
  }

  /** The entry of a Driver whose restart is waiting stays until its instance reports. */
  lemma {:induction false} RestartWaits(s: SupervisorState, cs: seq<Command>, path: string, launch: Launch)
    requires Inv(s) && AllPossible(s, cs) && path in s.drivers && s.drivers[path].pending == Some(launch)
    requires forall c | c in cs :: Unrelated(c, path, s.drivers[path].instance)
    ensures path in Run(s, cs).drivers && Run(s, cs).drivers[path] == s.drivers[path]
  {
    if cs != [] {
      var front, last := cs[..|cs| - 1], cs[|cs| - 1];
      assert last in cs;
      RestartWaits(s, front, path, launch);
      RunKeeps(s, front);
      WaitsOneStep(Run(s, front), last, path);
    }
  }

  lemma WaitsOneStep(s: SupervisorState, c: Command, path: string)
    requires Inv(s) && path in s.drivers && Unrelated(c, path, s.drivers[path].instance)
    ensures path in Step(s, c).drivers && Step(s, c).drivers[path] == s.drivers[path]
  {
  }

  /** The last Restart that no Stop followed is the launch that is started when the old
      instance reports; an earlier Restart of the same Driver is superseded by it. */
  lemma LastRestartIsStarted(s: SupervisorState, launch: Launch, cs: seq<Command>)
    requires Inv(s) && launch.path in s.drivers
    requires var restarted := Step(s, Restart(launch));
             AllPossible(restarted, cs) && forall c | c in cs :: Unrelated(c, launch.path, s.drivers[launch.path].instance)
    ensures var before := Run(Step(s, Restart(launch)), cs);
            var after := Step(before, Finished(launch.path, s.drivers[launch.path].instance));
            && launch.path in after.drivers && after.drivers[launch.path] == Supervised(before.next, None)
            && before.next in after.tasks && after.tasks[before.next] == Task(launch, true, false) && before.next !in before.tasks
  {
    hide Run, AllPossible, Inv;
    var restarted := Step(s, Restart(launch));
    StepKeeps(s, Restart(launch));
    RestartWaits(restarted, cs, launch.path, launch);
    RunKeeps(restarted, cs);
    NextIsFree(Run(restarted, cs));
  }

  lemma NextIsFree(s: SupervisorState)
    requires Inv(s)
    ensures s.next !in s.tasks
  {
  }

  /** After a Stop the old instance's report starts nothing, even if a Restart was waiting. */
  lemma StopCancelsRestart(s: SupervisorState, path: string, cs: seq<Command>)
    requires Inv(s) && path in s.drivers
    requires AllPossible(Step(s, Stop(path)), cs)
    ensures var before := Run(Step(s, Stop(path)), cs);
            Step(before, Finished(path, s.drivers[path].instance)) == before
  {
    hide AllPossible, Run;
    GoneForGood(Step(s, Stop(path)), cs, path, s.drivers[path].instance);
  }

  // ---- What is asked for happens ----

  /** A task that was not there before, wanted and running. */
  predicate Fresh(s: SupervisorState, after: SupervisorState, launch: Launch) {
    && s.next !in s.tasks && after.next == s.next + 1
    && after.tasks == s.tasks[s.next := Task(launch, true, false)]
    && after.drivers == s.drivers[launch.path := Supervised(s.next, None)]
  }

  /** The task is told to stop, and nothing else changes among the tasks. */
  predicate ToldToStop(s: SupervisorState, after: SupervisorState, instance: nat) {
    && instance in s.tasks && after.next == s.next
    && after.tasks == s.tasks[instance := Task(s.tasks[instance].launch, false, s.tasks[instance].ended)]
  }

  /** A Driver that is wanted is started if it is not supervised, and left alone if it is.
      A restart of one that is supervised tells its task to stop, and waits. A stop tells the
      task and forgets the Driver; one that is not supervised is stopped in the store. */
  lemma CommandsAreObeyed(s: SupervisorState, launch: Launch)
    requires Inv(s)
    ensures var after := Step(s, EnsureRunning(launch)); if launch.path in s.drivers then after == s else Fresh(s, after, launch)
    ensures var after := Step(s, Restart(launch));
            if launch.path in s.drivers then
              && ToldToStop(s, after, s.drivers[launch.path].instance)
              && after.drivers == s.drivers[launch.path := Supervised(s.drivers[launch.path].instance, Some(launch))]
            else Fresh(s, after, launch)
    ensures var after := Step(s, Stop(launch.path));
            && after.drivers == s.drivers - {launch.path}
            && if launch.path in s.drivers then ToldToStop(s, after, s.drivers[launch.path].instance) && after.stops == s.stops
               else after.tasks == s.tasks && after.stops == s.stops + [launch.path]
  {
    NextIsFree(s);
  }

  /** And a report of the instance the table names starts what waits, or frees the entry. */
  lemma ReportsAreHeard(s: SupervisorState, path: string)
    requires Inv(s) && path in s.drivers
    ensures var current := s.drivers[path];
            var after := Step(s, Finished(path, current.instance));
            && after.stops == s.stops
            && if current.pending.Some? then current.pending.value.path == path && Fresh(s, after, current.pending.value)
               else after.drivers == s.drivers - {path} && after.tasks == s.tasks && after.next == s.next
  {
    NextIsFree(s);
    if s.drivers[path].pending.Some? {
      assert (s.drivers - {path})[path := Supervised(s.next, None)] == s.drivers[path := Supervised(s.next, None)];
    }
  }

  /** A task that has ended, and no other, may report that it has. */
  lemma EndsAreReported(s: SupervisorState, instance: nat)
    requires instance in s.tasks
    ensures var after := Step(s, Ends(instance));
            && after == s.(tasks := s.tasks[instance := Task(s.tasks[instance].launch, s.tasks[instance].desired, true)])
            && forall path, other :: Possible(after, Finished(path, other)) <==>
                                     || Possible(s, Finished(path, other))
                                     || (other == instance && path == s.tasks[instance].launch.path)
  {
  }

  /** Once wanted, a Driver is supervised until it is stopped or its own task has reported
      its end, whatever else is commanded. */
  lemma {:induction false} WantedIsSupervised(s: SupervisorState, launch: Launch, cs: seq<Command>)
    requires Inv(s) && AllPossible(Step(s, EnsureRunning(launch)), cs)
    requires forall c | c in cs :: c != Stop(launch.path) && !(c.Finished? && c.path == launch.path)
    ensures launch.path in Run(Step(s, EnsureRunning(launch)), cs).drivers
  {
    if cs != [] {
      assert cs[|cs| - 1] in cs;
      WantedIsSupervised(s, launch, cs[..|cs| - 1]);
    }
  }

  // ---- The loop ----

  class Supervisor {
    var drivers: map<string, Supervised>
    var tasks: map<nat, Task>
    var next: nat
    var stops: seq<string>

    ghost function State(): SupervisorState
      reads this
    {
      SupervisorState(drivers, tasks, next, stops)
    }

    constructor ()
      ensures State() == IDLE
    {
      drivers, tasks, next, stops := map[], map[], 0, [];
    }

    /** `start_supervised_driver`. */
    method Start(launch: Launch)
      modifies this
      ensures State() == Started(old(State()), launch)
    {
      drivers := drivers[launch.path := Supervised(next, None)];
      tasks := tasks[next := Task(launch, true, false)];
      next := next + 1;
    }

    method Tell(instance: nat)
      modifies this`tasks
      ensures State() == Told(old(State()), instance)
    {
      if instance in tasks {
        tasks := tasks[instance := tasks[instance].(desired := false)];
      }
    }

    method Handle(c: Command)
      modifies this
      ensures State() == Step(old(State()), c)
    {
      match c
      case EnsureRunning(launch) =>
        if launch.path !in drivers {
          Start(launch);
        }
      case Restart(launch) =>
        if launch.path in drivers {
          var current := drivers[launch.path];
          drivers := drivers[launch.path := current.(pending := Some(launch))];
          Tell(current.instance);
        } else {
          Start(launch);
        }
      case Stop(path) =>
        if path in drivers {
          var current := drivers[path];
          drivers := drivers - {path};
          Tell(current.instance);
        } else {
          stops := stops + [path];
        }
      case Finished(path, instance) =>
        if path in drivers && drivers[path].instance == instance {
          var current := drivers[path];
          drivers := drivers - {path};
          if current.pending.Some? {
            Start(current.pending.value);
          }
        }
      case Ends(instance) =>
        if instance in tasks {
          tasks := tasks[instance := tasks[instance].(ended := true)];
        }
    }

    /** `run_supervisor`: the commands as they are received. */
    method Receive(cs: seq<Command>)
      modifies this
      ensures State() == Run(old(State()), cs)
    {
      for k := 0 to |cs|
        invariant State() == Run(old(State()), cs[..k])
      {
        assert cs[..k + 1][..k] == cs[..k];
        Handle(cs[k]);
      }
      assert cs[..|cs|] == cs;
    }
  }
}
