/** The agent's side of a run: what configure, start, stop and fetch do to it. */
module AgentService {
  import opened Options

  /** What the hub assigns to one agent; `body` stands for everything but its identity. */
  datatype Assignment = Assignment(node: nat, kind: nat, body: nat)

  /** A controller, or a relay to one: which build it is, and how often it has stepped. */
  datatype Unit = Unit(build: nat, params: Assignment, steps: nat)

  datatype Key = Key(node: nat, run: nat)

  /** The log of a run; `closed` once finalised. */
  datatype Log = Log(key: Key, epoch: int, closed: bool)

  /** What a run leaves on disk: the sidecar, the rows, and the columns written at the end. */
  datatype Artefact = Meta | Rows | Final

  datatype Place = Place(key: Key, artefact: Artefact)

  datatype File = File(artefact: Artefact, log: Log)

  datatype Agent = Agent(kind: nat, relay: bool, builds: nat, assignment: Option<Assignment>, unit: Option<Unit>,
                         epoch: Option<int>, runName: Option<nat>, tasks: bool, log: Option<Log>,
                         files: map<Place, File>)
  {
    /** A relay has no loops of its own, so its run name stands in for them. */
    predicate Running() {
      tasks || (relay && runName.Some?)
    }

    predicate Valid() {
      && (relay ==> !tasks)
      && (Running() ==> unit.Some? && assignment.Some? && log.Some? && runName.Some?)
      && (unit.Some? ==> unit.value.build <= builds)
    }
  }

  /** How a handler ends: served, refused before it changed anything, or failed part way. */
  datatype Reply = Done | Refused | Failed

  predicate Live(a: Agent) {
    a.Running() && a.unit.Some?
  }

  /** On a running agent the controller keeps its state and takes the parameters;
      otherwise a new one is built. `fails` is a build that raises. */
  function Configure(a: Agent, asg: Assignment, fails: bool): Agent {
    if asg.kind != a.kind then a
    else if Live(a) then
      if fails then a else a.(unit := Some(a.unit.value.(params := asg)), assignment := Some(asg))
    else if fails then a.(assignment := Some(asg))
    else a.(assignment := Some(asg), unit := Some(Unit(a.builds + 1, asg, 0)), builds := a.builds + 1)
  }

  function ConfigureReply(a: Agent, asg: Assignment, fails: bool): Reply {
    if asg.kind != a.kind then Refused else if fails then Failed else Done
  }

  predicate CanStart(a: Agent) {
    a.assignment.Some? && a.unit.Some? && !a.Running()
  }

  function Wrote(files: map<Place, File>, log: Log, artefact: Artefact): map<Place, File> {
    files[Place(log.key, artefact) := File(artefact, log)]
  }

  /** The epoch and the log come first; then the loops, or the relay, which may fail. */
  function StartRun(a: Agent, run: nat, epoch: int, fails: bool): Agent {
    if !CanStart(a) then a
    else
      var log := Log(Key(a.assignment.value.node, run), epoch, false);
      var b := a.(epoch := Some(epoch), log := Some(log), files := Wrote(Wrote(a.files, log, Meta), log, Rows));
      if fails then b else b.(runName := Some(run), tasks := !a.relay)
  }

  function StartReply(a: Agent, fails: bool): Reply {
    if !CanStart(a) then Refused else if fails then Failed else Done
  }

  function Finalised(a: Agent): Agent {
    if a.log.None? then a
    else
      var log := a.log.value.(closed := true);
      a.(log := Some(log), files := Wrote(Wrote(Wrote(a.files, log, Rows), log, Meta), log, Final))
  }

  /** Stopping an idle agent changes nothing; `fails` is a log that cannot be finalised. */
  function StopRun(a: Agent, fails: bool): Agent {
    if !a.Running() then a
    else if fails then a.(tasks := false)
    else Finalised(a.(tasks := false)).(runName := None)
  }

  function StopReply(a: Agent, fails: bool): Reply {
    if a.Running() && fails then Failed else Done
  }

  /** One artefact of a run, if this agent has it. */
  function Fetch(a: Agent, run: nat, artefact: Artefact): Option<File> {
    if a.assignment.Some? && Place(Key(a.assignment.value.node, run), artefact) in a.files
    then Some(a.files[Place(Key(a.assignment.value.node, run), artefact)])
    else None
  }

  /** The control loop turns while the agent runs. */
  function StepOnce(a: Agent): Agent {
    if a.Running() && a.unit.Some? then a.(unit := Some(a.unit.value.(steps := a.unit.value.steps + 1))) else a
  }

  /** A configured agent that accepts a start runs the controller that was built for it. */
  lemma StartedIsBuilt(a: Agent, asg: Assignment, run: nat, epoch: int)
    requires a.Valid() && !a.Running() && ConfigureReply(a, asg, false) == Done
    ensures var b := StartRun(Configure(a, asg, false), run, epoch, false);
            && b.Running() && b.Valid() && b.runName == Some(run) && b.epoch == Some(epoch)
            && b.unit == Some(Unit(a.builds + 1, asg, 0))
            && Fetch(b, run, Meta) == Some(File(Meta, Log(Key(asg.node, run), epoch, false)))
            && Fetch(b, run, Rows) == Some(File(Rows, Log(Key(asg.node, run), epoch, false)))
            && Fetch(b, run, Final) == Fetch(Configure(a, asg, false), run, Final)
  {}

  /** A running agent keeps its controller through a configure and refuses a start; the
      parameters take effect exactly when the configure is served. */
  lemma RunningIsKept(a: Agent, asg: Assignment, run: nat, epoch: int, fails: bool, fails': bool)
    requires a.Valid() && a.Running()
    ensures var b := Configure(a, asg, fails);
            && b.Running() && b.Valid() && b.unit.value.build == a.unit.value.build
            && b.unit.value.steps == a.unit.value.steps && b.log == a.log && b.files == a.files
            && StartReply(b, fails') == Refused && StartRun(b, run, epoch, fails') == b
            && (ConfigureReply(a, asg, fails) == Done <==> asg.kind == a.kind && !fails)
            && (if ConfigureReply(a, asg, fails) == Done
                then b.unit.value.params == asg && b.assignment == Some(asg)
                else b.unit == a.unit && b.assignment == a.assignment)
  {}

  /** An idle agent takes the assignment even when its build fails, and then keeps the
      controller it had. */
  lemma IdleConfigure(a: Agent, asg: Assignment, fails: bool)
    requires a.Valid() && !a.Running()
    ensures var b := Configure(a, asg, fails);
            && b.Valid() && !b.Running() && b.files == a.files && b.log == a.log
            && (asg.kind != a.kind ==> b == a && ConfigureReply(a, asg, fails) == Refused)
            && (asg.kind == a.kind ==>
                  && b.assignment == Some(asg) && (ConfigureReply(a, asg, fails) == Done <==> !fails)
                  && b.unit == if fails then a.unit else Some(Unit(a.builds + 1, asg, 0)))
  {}

  /** An accepted start opens the run's sidecar and rows before anything can fail; a failing one
      leaves them and the agent idle. */
  lemma StartLeaves(a: Agent, run: nat, epoch: int, fails: bool)
    requires a.Valid() && !a.Running() && a.assignment.Some? && a.unit.Some?
    ensures var b, key := StartRun(a, run, epoch, fails), Key(a.assignment.value.node, run);
            && b.Valid() && (b.Running() <==> !fails)
            && (StartReply(a, fails) == Done <==> !fails)
            && b.epoch == Some(epoch) && b.unit == a.unit && b.log == Some(Log(key, epoch, false))
            && Fetch(b, run, Meta) == Some(File(Meta, Log(key, epoch, false)))
            && Fetch(b, run, Rows) == Some(File(Rows, Log(key, epoch, false)))
            && (forall p: Place | p.key != key || p.artefact == Final :: p in b.files <==> p in a.files)
            && (forall p: Place | p in a.files && (p.key != key || p.artefact == Final) :: b.files[p] == a.files[p])
  {}

  /** A stop of a running agent closes its three artefacts and touches no other; one that
      cannot finalise touches none, and an idle agent changes in nothing. */
  lemma StopLeaves(a: Agent, fails: bool)
    requires a.Valid()
    ensures var b := StopRun(a, fails);
            && (!a.Running() ==> b == a && StopReply(a, fails) == Done)
            && (a.Running() && fails ==> b.files == a.files && StopReply(a, fails) == Failed && !b.tasks)
            && (a.Running() && !fails ==>
                  var log := a.log.value.(closed := true);
                  && StopReply(a, fails) == Done && !b.Running() && b.runName.None? && b.log == Some(log)
                  && b.unit == a.unit && b.assignment == a.assignment
                  && (forall x: Artefact :: Place(log.key, x) in b.files && b.files[Place(log.key, x)] == File(x, log))
                  && (forall p: Place | p.key != log.key :: p in b.files <==> p in a.files)
                  && (forall p: Place | p in a.files && p.key != log.key :: b.files[p] == a.files[p]))
  {
    if a.Running() && !fails {
      var log := a.log.value.(closed := true);
      forall x: Artefact
        ensures Place(log.key, x) in StopRun(a, fails).files
        ensures StopRun(a, fails).files[Place(log.key, x)] == File(x, log)
      {
        match x case Meta => case Rows => case Final =>
      }
    }
  }

  /** Only a running agent's controller steps, once at a time. */
  lemma WorkCounts(a: Agent)
    requires a.Valid()
    ensures a.Running() ==> StepOnce(a).unit == Some(Unit(a.unit.value.build, a.unit.value.params, a.unit.value.steps + 1))
    ensures !a.Running() ==> StepOnce(a) == a
  {}

  // ------------------------------------------------------------------------- the object

  class Service {
    const kind: nat
    const relay: bool
    var builds: nat
    var assignment: Option<Assignment>
    var unit: Option<Unit>
    var epoch: Option<int>
    var runName: Option<nat>
    var tasks: bool
    var log: Option<Log>
    var files: map<Place, File>

    function Value(): Agent
      reads this
    {
      Agent(kind, relay, builds, assignment, unit, epoch, runName, tasks, log, files)
    }

    predicate Running()
      reads this
    {
      tasks || (relay && runName.Some?)
    }

    constructor (kind: nat, relay: bool)
      ensures Value() == Agent(kind, relay, 0, None, None, None, None, false, None, map[])
    {
      this.kind, this.relay := kind, relay;
      builds, assignment, unit, epoch, runName, tasks, log, files := 0, None, None, None, None, false, None, map[];
    }

    method OnConfigure(asg: Assignment, fails: bool) returns (r: Reply)
      modifies this
      ensures Value() == Configure(old(Value()), asg, fails)
      ensures r == ConfigureReply(old(Value()), asg, fails)
    {
      if asg.kind != kind {
        return Refused;
      }
      if Running() && unit.Some? {
        if fails {
          return Failed;
        }
        unit := Some(unit.value.(params := asg));
        assignment := Some(asg);
        return Done;
      }
      assignment := Some(asg);
      if fails {
        return Failed;
      }
      builds := builds + 1;
      unit := Some(Unit(builds, asg, 0));
      r := Done;
    }

    method OnStart(run: nat, runEpoch: int, fails: bool) returns (r: Reply)
      modifies this
      ensures Value() == StartRun(old(Value()), run, runEpoch, fails)
      ensures r == StartReply(old(Value()), fails)
    {
      if assignment.None? || unit.None? {
        return Refused;
      }
      if Running() {
        return Refused;
      }
      epoch := Some(runEpoch);
      var newLog := Log(Key(assignment.value.node, run), runEpoch, false);
      log := Some(newLog);
      files := Wrote(files, newLog, Meta);
      files := Wrote(files, newLog, Rows);
      if fails {
        return Failed;
      }
      runName := Some(run);
      tasks := !relay;
      r := Done;
    }

    method OnStop(fails: bool) returns (r: Reply)
      modifies this
      ensures Value() == StopRun(old(Value()), fails)
      ensures r == StopReply(old(Value()), fails)
    {
      if !Running() {
        return Done;
      }
      tasks := false;
      if fails {
        return Failed;
      }
      if log.Some? {
        log := Some(log.value.(closed := true));
        files := Wrote(files, log.value, Rows);
        files := Wrote(files, log.value, Meta);
        files := Wrote(files, log.value, Final);
      }
      runName := None;
      r := Done;
    }

    method OnFetch(run: nat, artefact: Artefact) returns (file: Option<File>)
      ensures file == Fetch(Value(), run, artefact)
    {
      if assignment.None? {
        return None;
      }
      var place := Place(Key(assignment.value.node, run), artefact);
      if place !in files {
        return None;
      }
      file := Some(files[place]);
    }
  }
}
