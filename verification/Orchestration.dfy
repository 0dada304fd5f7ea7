/** One run across a fleet: clear, configure as a barrier, trigger, wait, stop, collect.

    Commands of one phase run concurrently, so a phase is any order of one call per
    node; a call is atomic, and its request, its reply, or the handler may fail.
  */
module Orchestration {
  import opened AgentService
  import opened Options

  /** Lost: the request never arrived. Deaf: served, but the reply never arrived.
      Broken: the handler raised part way. */
  datatype Fate = Served | Lost | Deaf | Broken

  datatype Phase = Clearing | Configuring | Starting | Waiting | Stopping | Collecting | Finished | Aborted

  datatype Outcome = Outcome(configured: bool, started: bool, stopped: bool, metaTried: bool,
                             meta: Option<File>, rows: Option<File>, errors: nat)
  {
    predicate Ok() {
      configured && started && errors == 0
    }
  }

  const NoOutcome := Outcome(false, false, false, false, None, None, 0)

  datatype Hub = Hub(run: nat, epoch: int, assignments: map<nat, Assignment>, phase: Phase, pending: set<nat>,
                     outcomes: map<nat, Outcome>)
  {
    predicate ReportOk() {
      outcomes != map[] && forall i | i in outcomes :: outcomes[i].Ok()
    }
  }

  /** What an agent accepted a start with. */
  datatype Launch = Launch(unit: Option<Unit>, epoch: Option<int>)

  datatype System = System(hub: Hub, agents: map<nat, Agent>, launches: map<nat, Launch>)

  datatype Action =
    | Call(node: nat, fate: Fate)
    | Event(node: nat, asg: Assignment, fate: Fate)
    | Proceed
    | Work(node: nat)

  function Opening(run: nat, epoch: int, ids: set<nat>, assignments: map<nat, Assignment>, agents: map<nat, Agent>): System {
    System(Hub(run, epoch, assignments, Clearing, ids, map i | i in ids :: NoOutcome), agents, map[])
  }

  // -------------------------------------------------------------------- the hub's bookkeeping

  function Note(h: Hub, id: nat, o: Outcome): Hub {
    h.(pending := h.pending - {id}, outcomes := h.outcomes[id := o])
  }

  function Erred(o: Outcome): Outcome {
    o.(errors := o.errors + 1)
  }

  function Configured(o: Outcome, ok: bool): Outcome {
    if ok then o.(configured := true) else Erred(o)
  }

  function Started(o: Outcome, ok: bool): Outcome {
    if ok then o.(started := true) else Erred(o)
  }

  function Stopped(o: Outcome, ok: bool): Outcome {
    if ok then o.(stopped := true) else Erred(o)
  }

  function MetaFetched(o: Outcome, got: Option<File>): Outcome {
    if got.Some? then o.(metaTried := true, meta := got) else Erred(o.(metaTried := true))
  }

  function RowsFetched(o: Outcome, got: Option<File>): Outcome {
    if got.Some? then o.(rows := got) else Erred(o)
  }

  /** The barrier: a partly configured fleet is not started. */
  function Barrier(h: Hub): Hub {
    if forall i | i in h.outcomes :: h.outcomes[i].configured
    then h.(phase := Starting, pending := h.outcomes.Keys)
    else h.(phase := Aborted,
            outcomes := map i | i in h.outcomes ::
              if h.outcomes[i].configured then Erred(h.outcomes[i]) else h.outcomes[i])
  }

  /** All calls of a phase have returned. */
  function Onward(h: Hub): Hub {
    match h.phase
    case Clearing => h.(phase := Configuring, pending := h.outcomes.Keys)
    case Configuring => Barrier(h)
    case Starting => h.(phase := Waiting)
    case Waiting => h.(phase := Stopping, pending := h.outcomes.Keys)
    case Stopping => h.(phase := Collecting, pending := h.outcomes.Keys)
    case Collecting => h.(phase := Finished)
    case Finished => h
    case Aborted => h
  }

  // ------------------------------------------------------------------------------ the calls

  predicate Reached(f: Fate) {
    f != Lost
  }

  predicate Heard(f: Fate, r: Reply) {
    f == Served && r == Done
  }

  function CallStop(s: System, id: nat, f: Fate, clearing: bool): System
    requires id in s.agents && id in s.hub.outcomes
  {
    var a := s.agents[id];
    var b := if Reached(f) then StopRun(a, f == Broken) else a;
    var o := s.hub.outcomes[id];
    s.(agents := s.agents[id := b],
       hub := Note(s.hub, id, if clearing then o else Stopped(o, Heard(f, StopReply(a, f == Broken)))))
  }

  function CallConfigure(s: System, id: nat, f: Fate): System
    requires id in s.agents && id in s.hub.outcomes && id in s.hub.assignments
  {
    var a, asg := s.agents[id], s.hub.assignments[id];
    var b := if Reached(f) then Configure(a, asg, f == Broken) else a;
    s.(agents := s.agents[id := b],
       hub := Note(s.hub, id, Configured(s.hub.outcomes[id], Heard(f, ConfigureReply(a, asg, f == Broken)))))
  }

  function CallStart(s: System, id: nat, f: Fate): System
    requires id in s.agents && id in s.hub.outcomes
  {
    var a := s.agents[id];
    var b := if Reached(f) then StartRun(a, s.hub.run, s.hub.epoch, f == Broken) else a;
    s.(agents := s.agents[id := b],
       launches := if Reached(f) && StartReply(a, f == Broken) == Done
                   then s.launches[id := Launch(a.unit, b.epoch)] else s.launches,
       hub := Note(s.hub, id, Started(s.hub.outcomes[id], Heard(f, StartReply(a, f == Broken)))))
  }

  /** Meta first, then rows. */
  function Wanted(o: Outcome): Artefact {
    if o.metaTried then Rows else Meta
  }

  /** One fetch; it changes nothing at the agent. */
  function CallFetch(s: System, id: nat, f: Fate): System
    requires id in s.agents && id in s.hub.outcomes
  {
    var o := s.hub.outcomes[id];
    var got := if f == Served then Fetch(s.agents[id], s.hub.run, Wanted(o)) else None;
    if !o.metaTried
    then s.(hub := s.hub.(outcomes := s.hub.outcomes[id := MetaFetched(o, got)]))
    else s.(hub := Note(s.hub, id, RowsFetched(o, got)))
  }

  /** A scheduled change during the run; a failed one is only noted. */
  function CallEvent(s: System, id: nat, asg: Assignment, f: Fate): System
    requires id in s.agents
  {
    var a := s.agents[id];
    var b := if Reached(f) then Configure(a, asg, f == Broken) else a;
    s.(agents := s.agents[id := b],
       hub := if Heard(f, ConfigureReply(a, asg, f == Broken))
              then s.hub.(assignments := s.hub.assignments[id := asg]) else s.hub)
  }

  function Next(s: System, act: Action): System {
    match act
    case Call(id, f) =>
      if id !in s.hub.pending || id !in s.agents || id !in s.hub.outcomes || id !in s.hub.assignments then s
      else (match s.hub.phase
            case Clearing => CallStop(s, id, f, true)
            case Configuring => CallConfigure(s, id, f)
            case Starting => CallStart(s, id, f)
            case Stopping => CallStop(s, id, f, false)
            case Collecting => CallFetch(s, id, f)
            case Waiting => s
            case Finished => s
            case Aborted => s)
    case Event(id, asg, f) =>
      if s.hub.phase == Waiting && id in s.hub.outcomes && id in s.agents && asg.node == id then CallEvent(s, id, asg, f) else s
    case Proceed => if s.hub.pending == {} then s.(hub := Onward(s.hub)) else s
    case Work(id) => if id in s.agents then s.(agents := s.agents[id := StepOnce(s.agents[id])]) else s
  }

  function History(s: System, acts: seq<Action>): System {
    if acts == [] then s else Next(History(s, acts[..|acts| - 1]), acts[|acts| - 1])
  }

  // ------------------------------------------------------------------------- per-node facts

  /** What the fleet was when the run began. */
  datatype Origin = Origin(run: nat, epoch: int, ids: set<nat>, assignments: map<nat, Assignment>, builds: map<nat, nat>)

  predicate Known(g: Origin, id: nat) {
    id in g.ids && id in g.assignments && id in g.builds && g.assignments[id].node == id
  }

  function RunLog(g: Origin, id: nat, closed: bool): Log {
    Log(Key(id, g.run), g.epoch, closed)
  }

  /** An artefact of this run, closed. */
  function FileOf(g: Origin, id: nat, artefact: Artefact): Option<File> {
    Some(File(artefact, RunLog(g, id, true)))
  }

  /** Configured for this run: still running something older, or holding a controller
      built in this run and never stepped. */
  predicate Prepared(g: Origin, id: nat, a: Agent)
    requires Known(g, id)
  {
    a.Running()
    || (a.assignment == Some(g.assignments[id]) && a.unit.Some? && a.unit.value.build > g.builds[id]
        && a.unit.value.steps == 0 && a.unit.value.params == g.assignments[id])
  }

  /** Running this run, logging to its open file. */
  predicate OnRun(g: Origin, id: nat, a: Agent) {
    && a.Running() && a.runName == Some(g.run) && a.epoch == Some(g.epoch)
    && a.assignment.Some? && a.assignment.value.node == id
    && a.log == Some(RunLog(g, id, false))
  }

  /** Stopped, with this run's file closed. */
  predicate Over(g: Origin, id: nat, a: Agent) {
    && !a.Running() && a.assignment.Some? && a.assignment.value.node == id
    && FileOf(g, id, Meta) == Fetch(a, g.run, Meta)
    && FileOf(g, id, Rows) == Fetch(a, g.run, Rows)
  }

  predicate LaunchOk(g: Origin, id: nat, l: Launch)
    requires Known(g, id)
  {
    && l.epoch == Some(g.epoch) && l.unit.Some?
    && l.unit.value.build > g.builds[id] && l.unit.value.steps == 0 && l.unit.value.params == g.assignments[id]
  }

  predicate Fresh(o: Outcome) {
    !o.started && !o.stopped && !o.metaTried && o.meta.None? && o.rows.None?
  }

  /** Where one node stands, phase by phase. */
  predicate Stage(g: Origin, id: nat, phase: Phase, pending: bool, o: Outcome, a: Agent)
    requires Known(g, id)
  {
    match phase
    case Clearing => o == NoOutcome
    case Configuring =>
      if pending then o == NoOutcome
      else Fresh(o) && (if o.configured then o.errors == 0 && Prepared(g, id, a) else o.errors > 0)
    case Starting =>
      o.configured && if pending then Fresh(o) && o.errors == 0 && Prepared(g, id, a)
      else Begun(g, id, o, a) && !o.metaTried
    case Waiting => o.configured && Begun(g, id, o, a) && !o.metaTried
    case Stopping =>
      o.configured && !o.metaTried && if pending then Begun(g, id, o, a) else Ended(g, id, o, a)
    case Collecting => o.configured && Ended(g, id, o, a) && Collected(g, id, o, pending)
    case Finished => o.configured && Ended(g, id, o, a) && Collected(g, id, o, false)
    case Aborted => o.errors > 0
  }

  predicate Begun(g: Origin, id: nat, o: Outcome, a: Agent) {
    o.errors == 0 ==> o.started && OnRun(g, id, a)
  }

  predicate Ended(g: Origin, id: nat, o: Outcome, a: Agent) {
    o.errors == 0 ==> o.started && o.stopped && Over(g, id, a)
  }

  predicate Collected(g: Origin, id: nat, o: Outcome, pending: bool) {
    && (o.errors == 0 && o.metaTried ==> o.meta == FileOf(g, id, Meta))
    && (o.errors == 0 && !pending ==> o.metaTried && o.rows == FileOf(g, id, Rows))
  }

  predicate NodeInv(g: Origin, s: System, id: nat)
    requires Known(g, id) && id in s.hub.outcomes && id in s.agents
  {
    && s.agents[id].Valid() && s.agents[id].builds >= g.builds[id]
    && Stage(g, id, s.hub.phase, id in s.hub.pending, s.hub.outcomes[id], s.agents[id])
    && (id in s.launches ==> LaunchOk(g, id, s.launches[id]))
  }

  predicate Frame(g: Origin, s: System) {
    && s.hub.run == g.run && s.hub.epoch == g.epoch
    && s.hub.outcomes.Keys == g.ids
    && g.ids <= s.agents.Keys && g.ids <= s.hub.assignments.Keys
    && (forall id | id in g.ids :: Known(g, id))
    && s.hub.pending <= g.ids
    && (s.hub.phase in {Clearing, Configuring, Starting} ==> forall id | id in g.ids :: s.hub.assignments[id] == g.assignments[id])
    && (s.hub.phase in {Clearing, Configuring, Aborted} ==> s.launches == map[])
    && (s.hub.phase in {Waiting, Finished, Aborted} ==> s.hub.pending == {})
  }

  ghost predicate Inv(g: Origin, s: System) {
    && Frame(g, s)
    && forall id | id in g.ids :: NodeInv(g, s, id)
  }

  // ------------------------------------------------------------------ what one call keeps

  lemma ConfigureStage(g: Origin, id: nat, a: Agent, fails: bool)
    requires Known(g, id) && a.Valid() && a.builds >= g.builds[id]
    ensures var b := Configure(a, g.assignments[id], fails);
            && b.Valid() && b.builds >= g.builds[id]
            && (ConfigureReply(a, g.assignments[id], fails) == Done ==> Prepared(g, id, b))
  {}

  lemma StartStage(g: Origin, id: nat, a: Agent, fails: bool)
    requires Known(g, id) && a.Valid() && a.builds >= g.builds[id] && Prepared(g, id, a)
    ensures var b := StartRun(a, g.run, g.epoch, fails);
            && b.Valid() && b.builds >= g.builds[id]
            && (StartReply(a, fails) == Done ==> OnRun(g, id, b) && LaunchOk(g, id, Launch(a.unit, b.epoch)))
  {}

  lemma StopStage(g: Origin, id: nat, a: Agent, fails: bool)
    requires a.Valid() && OnRun(g, id, a)
    ensures var b := StopRun(a, fails);
            && b.Valid() && b.builds == a.builds
            && (StopReply(a, fails) == Done ==> Over(g, id, b))
  {}

  lemma StopValid(a: Agent, fails: bool)
    requires a.Valid()
    ensures StopRun(a, fails).Valid() && StopRun(a, fails).builds == a.builds
  {}

  /** A live configure leaves a run in progress as it is. */
  lemma EventStage(g: Origin, id: nat, a: Agent, asg: Assignment, fails: bool)
    requires a.Valid() && asg.node == id
    ensures var b := Configure(a, asg, fails);
            b.Valid() && b.builds >= a.builds && (OnRun(g, id, a) ==> OnRun(g, id, b))
  {}

  lemma WorkStage(g: Origin, id: nat, phase: Phase, pending: bool, o: Outcome, a: Agent)
    requires Known(g, id) && a.Valid() && Stage(g, id, phase, pending, o, a)
    ensures StepOnce(a).Valid() && StepOnce(a).builds == a.builds
    ensures Stage(g, id, phase, pending, o, StepOnce(a))
  {}

  lemma FetchStage(g: Origin, id: nat, o: Outcome, a: Agent)
    requires Ended(g, id, o, a) && o.errors == 0
    ensures Fetch(a, g.run, Wanted(o)) == FileOf(g, id, Wanted(o))
  {}

  /** A call disturbs nobody else. */
  lemma OthersKept(g: Origin, s: System, n: System, id: nat)
    requires Inv(g, s) && Frame(g, n) && n.hub.phase == s.hub.phase
    requires forall j | j in g.ids && j != id ::
               && n.hub.outcomes[j] == s.hub.outcomes[j] && n.agents[j] == s.agents[j]
               && (j in n.hub.pending <==> j in s.hub.pending)
               && (j in n.launches ==> j in s.launches && n.launches[j] == s.launches[j])
    requires id in g.ids ==> NodeInv(g, n, id)
    ensures Inv(g, n)
  {
    hide Stage, LaunchOk, Frame;
    assert Frame(g, s);
    FrameKeys(g, s);
    FrameKeys(g, n);
    forall j | j in g.ids ensures NodeInv(g, n, j) {
      if j != id {
        assert NodeInv(g, s, j);
      }
    }
  }

  lemma FrameKeys(g: Origin, s: System)
    requires Frame(g, s)
    ensures s.hub.run == g.run && s.hub.epoch == g.epoch
    ensures forall j | j in g.ids :: Known(g, j) && j in s.hub.outcomes && j in s.agents && j in s.hub.assignments
  {}

  lemma ClearStep(g: Origin, id: nat, o: Outcome, a: Agent, b: Agent)
    requires Known(g, id) && Stage(g, id, Clearing, true, o, a)
    ensures Stage(g, id, Clearing, false, o, b)
  {}

  lemma ConfigureStep(g: Origin, id: nat, o: Outcome, a: Agent, f: Fate)
    requires Known(g, id) && a.Valid() && a.builds >= g.builds[id] && Stage(g, id, Configuring, true, o, a)
    ensures var asg := g.assignments[id];
            Stage(g, id, Configuring, false, Configured(o, Heard(f, ConfigureReply(a, asg, f == Broken))),
                  if Reached(f) then Configure(a, asg, f == Broken) else a)
  {
    hide Configure, ConfigureReply, Prepared;
    ConfigureStage(g, id, a, f == Broken);
  }

  lemma StartStep(g: Origin, id: nat, o: Outcome, a: Agent, f: Fate)
    requires Known(g, id) && a.Valid() && a.builds >= g.builds[id] && Stage(g, id, Starting, true, o, a)
    ensures Stage(g, id, Starting, false, Started(o, Heard(f, StartReply(a, f == Broken))),
                  if Reached(f) then StartRun(a, g.run, g.epoch, f == Broken) else a)
  {
    hide StartRun, StartReply, Prepared, OnRun;
    StartStage(g, id, a, f == Broken);
  }

  lemma StopStep(g: Origin, id: nat, o: Outcome, a: Agent, f: Fate)
    requires Known(g, id) && a.Valid() && Stage(g, id, Stopping, true, o, a)
    ensures Stage(g, id, Stopping, false, Stopped(o, Heard(f, StopReply(a, f == Broken))),
                  if Reached(f) then StopRun(a, f == Broken) else a)
  {
    hide StopRun, StopReply, OnRun, Over;
    if o.errors == 0 {
      StopStage(g, id, a, f == Broken);
    }
  }

  lemma FetchStep(g: Origin, id: nat, o: Outcome, a: Agent, f: Fate)
    requires Known(g, id) && Stage(g, id, Collecting, true, o, a)
    ensures var got := if f == Served then Fetch(a, g.run, Wanted(o)) else None;
            if o.metaTried then Stage(g, id, Collecting, false, RowsFetched(o, got), a)
            else Stage(g, id, Collecting, true, MetaFetched(o, got), a)
  {
    hide Fetch, Over;
    if o.errors == 0 {
      FetchStage(g, id, o, a);
    }
  }

  lemma ClearInv(g: Origin, s: System, id: nat, f: Fate)
    requires Inv(g, s) && id in s.hub.pending && s.hub.phase == Clearing
    ensures Inv(g, Next(s, Call(id, f)))
  {
    hide StopRun, StopReply, Stage, LaunchOk;
    FrameKeys(g, s);
    assert NodeInv(g, s, id);
    StopValid(s.agents[id], f == Broken);
    ClearStep(g, id, s.hub.outcomes[id], s.agents[id], Next(s, Call(id, f)).agents[id]);
    OthersKept(g, s, Next(s, Call(id, f)), id);
  }

  lemma ConfigureInv(g: Origin, s: System, id: nat, f: Fate)
    requires Inv(g, s) && id in s.hub.pending && s.hub.phase == Configuring
    ensures Inv(g, Next(s, Call(id, f)))
  {
    hide Configure, ConfigureReply, Prepared, Configured, Heard, Stage, LaunchOk;
    FrameKeys(g, s);
    assert NodeInv(g, s, id);
    ConfigureStage(g, id, s.agents[id], f == Broken);
    ConfigureStep(g, id, s.hub.outcomes[id], s.agents[id], f);
    OthersKept(g, s, Next(s, Call(id, f)), id);
  }

  lemma StartFacts(g: Origin, id: nat, o: Outcome, a: Agent)
    requires Known(g, id) && Stage(g, id, Starting, true, o, a)
    ensures Prepared(g, id, a)
  {}

  lemma StartInv(g: Origin, s: System, id: nat, f: Fate)
    requires Inv(g, s) && id in s.hub.pending && s.hub.phase == Starting
    ensures Inv(g, Next(s, Call(id, f)))
  {
    hide StartRun, StartReply, OnRun, Started, Heard, Stage, LaunchOk;
    FrameKeys(g, s);
    assert NodeInv(g, s, id);
    StartFacts(g, id, s.hub.outcomes[id], s.agents[id]);
    StartStage(g, id, s.agents[id], f == Broken);
    StartStep(g, id, s.hub.outcomes[id], s.agents[id], f);
    OthersKept(g, s, Next(s, Call(id, f)), id);
  }

  lemma StopInv(g: Origin, s: System, id: nat, f: Fate)
    requires Inv(g, s) && id in s.hub.pending && s.hub.phase == Stopping
    ensures Inv(g, Next(s, Call(id, f)))
  {
    hide StopRun, StopReply, Stopped, Heard, Stage, LaunchOk;
    FrameKeys(g, s);
    assert NodeInv(g, s, id);
    StopValid(s.agents[id], f == Broken);
    StopStep(g, id, s.hub.outcomes[id], s.agents[id], f);
    OthersKept(g, s, Next(s, Call(id, f)), id);
  }

  lemma FetchInv(g: Origin, s: System, id: nat, f: Fate)
    requires Inv(g, s) && id in s.hub.pending && s.hub.phase == Collecting
    ensures Inv(g, Next(s, Call(id, f)))
  {
    hide Fetch, MetaFetched, RowsFetched, Stage, LaunchOk;
    FrameKeys(g, s);
    assert NodeInv(g, s, id);
    FetchStep(g, id, s.hub.outcomes[id], s.agents[id], f);
    OthersKept(g, s, Next(s, Call(id, f)), id);
  }

  lemma CallInv(g: Origin, s: System, id: nat, f: Fate)
    requires Inv(g, s) && id in s.hub.pending
    ensures Inv(g, Next(s, Call(id, f)))
  {
    hide Inv, CallStop, CallConfigure, CallStart, CallFetch;
    match s.hub.phase
    case Clearing => ClearInv(g, s, id, f);
    case Configuring => ConfigureInv(g, s, id, f);
    case Starting => StartInv(g, s, id, f);
    case Stopping => StopInv(g, s, id, f);
    case Collecting => FetchInv(g, s, id, f);
    case Waiting =>
    case Finished =>
    case Aborted =>
  }

  lemma EventInv(g: Origin, s: System, id: nat, asg: Assignment, f: Fate)
    requires Inv(g, s)
    ensures Inv(g, Next(s, Event(id, asg, f)))
  {
    hide Configure, ConfigureReply, OnRun, LaunchOk;
    FrameKeys(g, s);
    if s.hub.phase == Waiting && id in s.hub.outcomes && asg.node == id {
      assert NodeInv(g, s, id);
      EventStage(g, id, s.agents[id], asg, f == Broken);
      OthersKept(g, s, Next(s, Event(id, asg, f)), id);
    }
  }

  lemma WorkInv(g: Origin, s: System, id: nat)
    requires Inv(g, s)
    ensures Inv(g, Next(s, Work(id)))
  {
    hide Stage, LaunchOk, StepOnce;
    FrameKeys(g, s);
    if id in s.agents {
      if id in g.ids {
        assert NodeInv(g, s, id);
        WorkStage(g, id, s.hub.phase, id in s.hub.pending, s.hub.outcomes[id], s.agents[id]);
      }
      OthersKept(g, s, Next(s, Work(id)), id);
    }
  }

  lemma OnwardStage(g: Origin, id: nat, o: Outcome, a: Agent)
    requires Known(g, id)
    ensures Stage(g, id, Clearing, false, o, a) ==> Stage(g, id, Configuring, true, o, a)
    ensures Stage(g, id, Starting, false, o, a) ==> Stage(g, id, Waiting, false, o, a)
    ensures Stage(g, id, Waiting, false, o, a) ==> Stage(g, id, Stopping, true, o, a)
    ensures Stage(g, id, Stopping, false, o, a) ==> Stage(g, id, Collecting, true, o, a)
    ensures Stage(g, id, Collecting, false, o, a) ==> Stage(g, id, Finished, false, o, a)
  {
    hide Prepared, OnRun, Over;
  }

  lemma BarrierStage(g: Origin, id: nat, o: Outcome, a: Agent)
    requires Known(g, id) && Stage(g, id, Configuring, false, o, a)
    ensures o.configured ==> Stage(g, id, Starting, true, o, a) && Stage(g, id, Aborted, false, Erred(o), a)
    ensures !o.configured ==> Stage(g, id, Aborted, false, o, a)
  {
    hide Prepared, OnRun, Over;
  }

  lemma ProceedInv(g: Origin, s: System)
    requires Inv(g, s) && s.hub.pending == {}
    ensures Inv(g, Next(s, Proceed))
  {
    hide Stage, LaunchOk, Erred;
    FrameKeys(g, s);
    var n := Next(s, Proceed);
    forall j | j in g.ids ensures j in n.hub.outcomes && NodeInv(g, n, j) {
      assert NodeInv(g, s, j);
      OnwardStage(g, j, s.hub.outcomes[j], s.agents[j]);
      if s.hub.phase == Configuring {
        BarrierStage(g, j, s.hub.outcomes[j], s.agents[j]);
      }
    }
  }

  lemma NextInv(g: Origin, s: System, act: Action)
    requires Inv(g, s)
    ensures Inv(g, Next(s, act))
  {
    hide Inv;
    match act
    case Call(id, f) => if id in s.hub.pending { CallInv(g, s, id, f); }
    case Event(id, asg, f) => EventInv(g, s, id, asg, f);
    case Proceed => if s.hub.pending == {} { ProceedInv(g, s); }
    case Work(id) => WorkInv(g, s, id);
  }

  lemma {:induction false} HistoryInv(g: Origin, s: System, acts: seq<Action>)
    requires Inv(g, s)
    ensures Inv(g, History(s, acts))
  {
    hide Inv, Next;
    if acts != [] {
      HistoryInv(g, s, acts[..|acts| - 1]);
      NextInv(g, History(s, acts[..|acts| - 1]), acts[|acts| - 1]);
    }
  }

  // ------------------------------------------------------------------------ the guarantees

  /** A run about to begin on agents left in any state by earlier ones. */
  ghost predicate Begins(g: Origin, agents: map<nat, Agent>) {
    && g.ids <= agents.Keys && g.ids <= g.assignments.Keys && g.ids <= g.builds.Keys
    && forall id | id in g.ids :: agents[id].Valid() && agents[id].builds == g.builds[id] && g.assignments[id].node == id
  }

  lemma OpeningInv(g: Origin, agents: map<nat, Agent>)
    requires Begins(g, agents)
    ensures Inv(g, Opening(g.run, g.epoch, g.ids, g.assignments, agents))
  {}

  /** No agent is sent, or has accepted, a start unless every agent acknowledged this
      run's configure; whoever accepted one did so with a controller built in this run,
      for this run's assignment, never stepped, and with the run's one epoch. */
  lemma StartOnlyAfterBarrier(g: Origin, agents: map<nat, Agent>, acts: seq<Action>)
    requires Begins(g, agents)
    ensures var s := History(Opening(g.run, g.epoch, g.ids, g.assignments, agents), acts);
            && (s.hub.phase == Starting || s.launches != map[] ==> forall id | id in g.ids :: id in s.hub.outcomes && s.hub.outcomes[id].configured)
            && (forall id | id in s.launches && id in g.ids ::
                  && s.launches[id].epoch == Some(g.epoch)
                  && s.launches[id].unit.Some? && s.launches[id].unit.value.steps == 0
                  && s.launches[id].unit.value.build > agents[id].builds
                  && s.launches[id].unit.value.params == g.assignments[id])
  {
    hide Inv, History;
    var s0 := Opening(g.run, g.epoch, g.ids, g.assignments, agents);
    OpeningInv(g, agents);
    HistoryInv(g, s0, acts);
    BarrierFacts(g, History(s0, acts));
  }

  /** A node without errors has been through it all. */
  predicate Closed(g: Origin, s: System, id: nat)
    requires id in s.hub.outcomes && id in s.agents
  {
    var o := s.hub.outcomes[id];
    o.errors == 0 ==>
      && o.configured && o.started && o.stopped && !s.agents[id].Running()
      && o.meta == FileOf(g, id, Meta) && o.rows == FileOf(g, id, Rows)
  }

  lemma BarrierFacts(g: Origin, s: System)
    requires Inv(g, s)
    ensures s.hub.outcomes.Keys == g.ids
    ensures s.hub.phase == Starting || s.launches != map[] ==> forall id | id in g.ids :: s.hub.outcomes[id].configured
    ensures forall id | id in s.launches && id in g.ids :: Known(g, id) && LaunchOk(g, id, s.launches[id])
    ensures s.hub.phase == Aborted ==> s.launches == map[] && forall id | id in g.ids :: s.hub.outcomes[id].errors > 0
    ensures s.hub.phase == Finished ==> forall id | id in g.ids :: id in s.agents && Closed(g, s, id)
  {
    forall id | id in g.ids
      ensures id in s.agents && NodeInv(g, s, id)
    {}
  }

  /** When the barrier fails nobody was started and no node's outcome is ok. */
  lemma BarrierFailsAll(g: Origin, agents: map<nat, Agent>, acts: seq<Action>)
    requires Begins(g, agents)
    ensures var s := History(Opening(g.run, g.epoch, g.ids, g.assignments, agents), acts);
            s.hub.phase == Aborted ==>
              (s.launches == map[] && !s.hub.ReportOk() && forall id | id in s.hub.outcomes :: !s.hub.outcomes[id].Ok())
  {
    hide Inv, History;
    var s0 := Opening(g.run, g.epoch, g.ids, g.assignments, agents);
    OpeningInv(g, agents);
    HistoryInv(g, s0, acts);
    var s := History(s0, acts);
    BarrierFacts(g, s);
    assert forall id | id in s.hub.outcomes :: id in g.ids;
    if s.hub.phase == Aborted && s.hub.outcomes != map[] {
      var id :| id in s.hub.outcomes;
      assert !s.hub.outcomes[id].Ok();
    }
  }

  /** An ok report of a finished run: the fleet was not empty, every node started and was
      stopped, and both artefacts of each are this run's, fetched after its file was closed. */
  lemma OkMeansCollected(g: Origin, agents: map<nat, Agent>, acts: seq<Action>)
    requires Begins(g, agents)
    ensures var s := History(Opening(g.run, g.epoch, g.ids, g.assignments, agents), acts);
            s.hub.phase == Finished && s.hub.ReportOk() ==>
              && g.ids != {}
              && forall id | id in g.ids ::
                   && id in s.hub.outcomes && id in s.agents
                   && s.hub.outcomes[id].started && s.hub.outcomes[id].stopped && !s.agents[id].Running()
                   && s.hub.outcomes[id].meta == FileOf(g, id, Meta)
                   && s.hub.outcomes[id].rows == FileOf(g, id, Rows)
  {
    hide Inv, History;
    var s0 := Opening(g.run, g.epoch, g.ids, g.assignments, agents);
    OpeningInv(g, agents);
    HistoryInv(g, s0, acts);
    var s := History(s0, acts);
    BarrierFacts(g, s);
    if g.ids == {} {
      assert s.hub.outcomes == map[];
    }
  }

  // ---------------------------------------------------------------- the parameters of record

  predicate Underway(phase: Phase) {
    phase in {Starting, Waiting, Stopping, Collecting, Finished}
  }

  /** The agent holds, and its controller runs, what the hub has on record for it. */
  predicate Recorded(s: System, id: nat)
    requires id in s.agents && id in s.hub.assignments
  {
    var a := s.agents[id];
    a.unit.Some? && a.unit.value.params == s.hub.assignments[id] && a.assignment == Some(s.hub.assignments[id])
  }

  /** So it is for a node that started and has no errors. */
  predicate Current(s: System, id: nat)
    requires id in s.agents && id in s.hub.assignments && id in s.hub.outcomes
  {
    var o := s.hub.outcomes[id];
    Underway(s.hub.phase) && o.started && o.errors == 0 ==> Recorded(s, id)
  }

  /** An event whose reply never arrives. */
  predicate Unheard(act: Action, id: nat) {
    act.Event? && act.node == id && act.fate == Deaf
  }

  lemma NotYetStarted(g: Origin, id: nat, phase: Phase, pending: bool, o: Outcome, a: Agent)
    requires Known(g, id) && Stage(g, id, phase, pending, o, a)
    ensures !Underway(phase) && phase != Aborted ==> !o.started
    ensures phase == Starting && pending ==> !o.started && Prepared(g, id, a)
    ensures phase == Waiting && o.errors == 0 ==> a.Running() && o.started
    ensures phase in {Stopping, Collecting, Finished} && o.errors == 0 ==> o.started
  {}

  lemma StartCurrent(g: Origin, s: System, id: nat, f: Fate)
    requires Inv(g, s) && id in s.hub.pending && s.hub.phase == Starting
    ensures id in g.ids && id in s.agents && id in s.hub.outcomes && id in s.hub.assignments
    ensures Current(Next(s, Call(id, f)), id)
  {
    hide LaunchOk, Stage;
    FrameKeys(g, s);
    assert NodeInv(g, s, id);
    NotYetStarted(g, id, Starting, true, s.hub.outcomes[id], s.agents[id]);
  }

  lemma StopCurrent(s: System, id: nat, f: Fate)
    requires id in s.agents && id in s.hub.outcomes && id in s.hub.assignments && id in s.hub.pending
    requires s.hub.phase == Stopping && Current(s, id)
    ensures Current(Next(s, Call(id, f)), id)
  {}

  lemma FetchCurrent(s: System, id: nat, f: Fate)
    requires id in s.agents && id in s.hub.outcomes && id in s.hub.assignments && id in s.hub.pending
    requires s.hub.phase == Collecting && Current(s, id)
    ensures Current(Next(s, Call(id, f)), id)
  {
    hide Fetch;
  }

  /** An event keeps the record right if and only if its reply is heard, or the agent
      refused the change, or it was no change. */
  lemma EventCurrentIff(g: Origin, s: System, id: nat, asg: Assignment, f: Fate)
    requires Inv(g, s) && id in g.ids && s.hub.phase == Waiting && asg.node == id
    ensures id in s.agents && id in s.hub.outcomes && id in s.hub.assignments
    ensures var n := Next(s, Event(id, asg, f));
            s.hub.outcomes[id].errors == 0 && Recorded(s, id)
            ==> (Recorded(n, id) <==> !(f == Deaf && asg.kind == s.agents[id].kind && asg != s.hub.assignments[id]))
  {
    hide LaunchOk, Stage;
    FrameKeys(g, s);
    assert NodeInv(g, s, id);
    NotYetStarted(g, id, Waiting, id in s.hub.pending, s.hub.outcomes[id], s.agents[id]);
  }

  lemma OtherCurrent(s: System, n: System, id: nat)
    requires id in s.agents && id in s.hub.outcomes && id in s.hub.assignments && Current(s, id)
    requires id in n.agents && id in n.hub.outcomes && id in n.hub.assignments && n.hub.phase == s.hub.phase
    requires n.agents[id] == s.agents[id] && n.hub.outcomes[id] == s.hub.outcomes[id]
    requires n.hub.assignments[id] == s.hub.assignments[id]
    ensures Current(n, id)
  {}

  lemma CallCurrent(g: Origin, s: System, j: nat, f: Fate, id: nat)
    requires Inv(g, s) && id in g.ids
    requires id in s.agents && id in s.hub.outcomes && id in s.hub.assignments && Current(s, id)
    ensures var n := Next(s, Call(j, f));
            id in n.agents && id in n.hub.outcomes && id in n.hub.assignments && Current(n, id)
  {
    hide Inv, Configure, StopRun, StartRun, Fetch, Recorded;
    var n := Next(s, Call(j, f));
    if j != id || id !in s.hub.pending {
      OtherCurrent(s, n, id);
    } else {
      match s.hub.phase
      case Clearing =>
      case Configuring =>
      case Starting => StartCurrent(g, s, id, f);
      case Stopping => StopCurrent(s, id, f);
      case Collecting => FetchCurrent(s, id, f);
      case Waiting =>
      case Finished =>
      case Aborted =>
    }
  }

  lemma EventCurrent(g: Origin, s: System, act: Action, id: nat)
    requires Inv(g, s) && id in g.ids && act.Event? && !Unheard(act, id)
    requires id in s.agents && id in s.hub.outcomes && id in s.hub.assignments && Current(s, id)
    ensures var n := Next(s, act);
            id in n.agents && id in n.hub.outcomes && id in n.hub.assignments && Current(n, id)
  {
    hide Inv, Configure, Recorded;
    var n := Next(s, act);
    if act.node == id && s.hub.phase == Waiting && act.asg.node == id {
      EventCurrentIff(g, s, id, act.asg, act.fate);
      Unaffected(s, act, id);
    } else {
      OtherCurrent(s, n, id);
    }
  }

  lemma Unaffected(s: System, act: Action, id: nat)
    requires act.Event? && id in s.agents && id in s.hub.outcomes
    ensures var n := Next(s, act);
            n.hub.phase == s.hub.phase && id in n.hub.outcomes && n.hub.outcomes[id] == s.hub.outcomes[id]
  {
    hide Configure;
  }

  lemma ProceedCurrent(g: Origin, s: System, id: nat)
    requires Inv(g, s) && id in g.ids
    requires id in s.agents && id in s.hub.outcomes && id in s.hub.assignments && Current(s, id)
    ensures var n := Next(s, Proceed);
            id in n.agents && id in n.hub.outcomes && id in n.hub.assignments && Current(n, id)
  {
    hide LaunchOk, Stage;
    FrameKeys(g, s);
    assert NodeInv(g, s, id);
    NotYetStarted(g, id, s.hub.phase, id in s.hub.pending, s.hub.outcomes[id], s.agents[id]);
  }

  lemma WorkCurrent(s: System, j: nat, id: nat)
    requires id in s.agents && id in s.hub.outcomes && id in s.hub.assignments && Current(s, id)
    ensures var n := Next(s, Work(j));
            id in n.agents && id in n.hub.outcomes && id in n.hub.assignments && Current(n, id)
  {}

  lemma NextCurrent(g: Origin, s: System, act: Action, id: nat)
    requires Inv(g, s) && id in g.ids && !Unheard(act, id)
    requires id in s.agents && id in s.hub.outcomes && id in s.hub.assignments && Current(s, id)
    ensures var n := Next(s, act);
            id in n.agents && id in n.hub.outcomes && id in n.hub.assignments && Current(n, id)
  {
    hide Inv, Current, Next;
    match act
    case Call(j, f) => CallCurrent(g, s, j, f, id);
    case Event(j, asg, f) => EventCurrent(g, s, act, id);
    case Proceed => ProceedCurrent(g, s, id);
    case Work(j) => WorkCurrent(s, j, id);
  }

  ghost predicate AllHeard(acts: seq<Action>, id: nat) {
    forall k | 0 <= k < |acts| :: !Unheard(acts[k], id)
  }

  lemma {:induction false} HistoryCurrent(g: Origin, s: System, acts: seq<Action>, id: nat)
    requires Inv(g, s) && id in g.ids && AllHeard(acts, id)
    requires id in s.agents && id in s.hub.outcomes && id in s.hub.assignments && Current(s, id)
    ensures var n := History(s, acts);
            id in n.agents && id in n.hub.outcomes && id in n.hub.assignments && Current(n, id)
  {
    hide Inv, Next, Current;
    if acts != [] {
      var k := |acts| - 1;
      HistoryCurrent(g, s, acts[..k], id);
      HistoryInv(g, s, acts[..k]);
      NextCurrent(g, History(s, acts[..k]), acts[k], id);
    }
  }

  /** From the end of the start phase to the end of the run, a node without errors runs, or
      when stopped last ran, exactly the assignment the hub has on record, events included,
      unless the reply to one of its events was lost. */
  lemma ParametersOfRecord(g: Origin, agents: map<nat, Agent>, acts: seq<Action>, id: nat)
    requires Begins(g, agents) && id in g.ids && AllHeard(acts, id)
    ensures var s := History(Opening(g.run, g.epoch, g.ids, g.assignments, agents), acts);
            && id in s.agents && id in s.hub.outcomes && id in s.hub.assignments
            && (s.hub.phase in {Waiting, Stopping, Collecting, Finished} && s.hub.outcomes[id].errors == 0 ==>
                  && s.hub.outcomes[id].started
                  && s.agents[id].unit.Some? && s.agents[id].unit.value.params == s.hub.assignments[id]
                  && s.agents[id].assignment == Some(s.hub.assignments[id]))
  {
    hide Inv, History, Stage;
    var s0 := Opening(g.run, g.epoch, g.ids, g.assignments, agents);
    OpeningInv(g, agents);
    HistoryInv(g, s0, acts);
    HistoryCurrent(g, s0, acts, id);
    var s := History(s0, acts);
    InvNode(g, s, id);
    NotYetStarted(g, id, s.hub.phase, id in s.hub.pending, s.hub.outcomes[id], s.agents[id]);
  }

  lemma InvNode(g: Origin, s: System, id: nat)
    requires Inv(g, s) && id in g.ids
    ensures Known(g, id) && id in s.agents && id in s.hub.outcomes
    ensures Stage(g, id, s.hub.phase, id in s.hub.pending, s.hub.outcomes[id], s.agents[id])
  {
    FrameKeys(g, s);
    assert NodeInv(g, s, id);
  }

  // ------------------------------------------------------------------- every run ends, and well

  /** The calls and phase ends still to come. */
  function Remaining(h: Hub): nat {
    var n := |h.outcomes|;
    match h.phase
    case Clearing => |h.pending| + 5 * n + 6
    case Configuring => |h.pending| + 4 * n + 5
    case Starting => |h.pending| + 3 * n + 4
    case Waiting => 3 * n + 3
    case Stopping => |h.pending| + 2 * n + 2
    case Collecting => Fetches(h, h.pending) + 1
    case Finished => 0
    case Aborted => 0
  }

  /** Two fetches a node, one where the first is done. */
  function Fetches(h: Hub, ids: set<nat>): nat {
    var untried := set id | id in ids && !Tried(h, id);
    |ids| + |untried|
  }

  predicate Tried(h: Hub, id: nat) {
    id in h.outcomes && h.outcomes[id].metaTried
  }

  /** What moves a run on: a call still due, or the end of a phase with none due. */
  predicate Effective(s: System, act: Action) {
    match act
    case Call(id, f) => id in s.hub.pending
    case Proceed => s.hub.pending == {} && s.hub.phase != Finished && s.hub.phase != Aborted
    case Event(id, asg, f) => false
    case Work(id) => false
  }

  lemma LessPending(pending: set<nat>, id: nat)
    requires id in pending
    ensures |pending - {id}| == |pending| - 1
  {}

  lemma CallMoves(g: Origin, s: System, id: nat, f: Fate)
    requires Inv(g, s) && id in s.hub.pending && s.hub.phase != Collecting
    ensures Remaining(Next(s, Call(id, f)).hub) < Remaining(s.hub)
  {
    hide NodeInv, StopRun, Configure, StartRun, Stopped, Configured, Started;
    FrameKeys(g, s);
    LessPending(s.hub.pending, id);
    var n := Next(s, Call(id, f));
    assert n.hub.outcomes.Keys == s.hub.outcomes.Keys;
    SameSize(n.hub.outcomes, s.hub.outcomes);
  }

  lemma SameSize<T>(a: map<nat, T>, b: map<nat, T>)
    requires a.Keys == b.Keys
    ensures |a| == |b|
  {
    assert |a| == |a.Keys| && |b| == |b.Keys|;
  }

  lemma FetchMoves(g: Origin, s: System, id: nat, f: Fate)
    requires Inv(g, s) && id in s.hub.pending && s.hub.phase == Collecting
    ensures Remaining(Next(s, Call(id, f)).hub) < Remaining(s.hub)
  {
    hide NodeInv, Fetch;
    FrameKeys(g, s);
    var n := Next(s, Call(id, f));
    var was := set i | i in s.hub.pending && !Tried(s.hub, i);
    var now := set i | i in n.hub.pending && !Tried(n.hub, i);
    LessPending(s.hub.pending, id);
    if Tried(s.hub, id) {
      assert now == was;
    } else {
      assert now == was - {id};
      LessPending(was, id);
    }
  }

  lemma ProceedMoves(g: Origin, s: System)
    requires Inv(g, s) && Effective(s, Proceed)
    ensures Remaining(Next(s, Proceed).hub) < Remaining(s.hub)
  {
    hide NodeInv, Erred;
    FrameKeys(g, s);
    var n := Next(s, Proceed);
    assert n.hub.outcomes.Keys == s.hub.outcomes.Keys;
    SameSize(n.hub.outcomes, s.hub.outcomes);
    assert |s.hub.outcomes.Keys| == |s.hub.outcomes|;
    if s.hub.phase == Stopping {
      AtMostTwice(n.hub, n.hub.pending);
    }
  }

  lemma AtMostTwice(h: Hub, ids: set<nat>)
    ensures Fetches(h, ids) <= 2 * |ids|
  {
    var untried := set id | id in ids && !Tried(h, id);
    Subset(untried, ids);
  }

  lemma {:induction false} Subset(a: set<nat>, b: set<nat>)
    requires a <= b
    ensures |a| <= |b|
    decreases |a|
  {
    if x :| x in a {
      Subset(a - {x}, b - {x});
    }
  }

  /** Progress, whatever fails: each effective action leaves strictly less to do, no other
      leaves more, and until the run is over one of them is due. */
  lemma EffectiveMoves(g: Origin, s: System, act: Action)
    requires Inv(g, s)
    ensures Effective(s, act) ==> Remaining(Next(s, act).hub) < Remaining(s.hub)
    ensures !Effective(s, act) ==> Remaining(Next(s, act).hub) == Remaining(s.hub)
    ensures s.hub.phase != Finished && s.hub.phase != Aborted ==>
              Effective(s, Proceed) || exists id :: id in s.hub.pending && forall f: Fate :: Effective(s, Call(id, f))
  {
    hide Inv, Remaining, Next;
    match act
    case Call(id, f) =>
      if id !in s.hub.pending {
        Idle(s, act);
      } else if s.hub.phase == Collecting {
        FetchMoves(g, s, id, f);
      } else {
        CallMoves(g, s, id, f);
      }
    case Proceed =>
      if Effective(s, Proceed) {
        ProceedMoves(g, s);
      } else {
        Idle(s, act);
      }
    case Event(_, _, _) => Idle(s, act);
    case Work(_) => Idle(s, act);
    if s.hub.pending != {} {
      var id :| id in s.hub.pending;
      assert forall f: Fate :: Effective(s, Call(id, f));
    }
  }

  lemma Idle(s: System, act: Action)
    requires !Effective(s, act)
    ensures Remaining(Next(s, act).hub) == Remaining(s.hub)
  {
    hide Configure, StepOnce;
  }

  function Moved(s: System, acts: seq<Action>): nat {
    if acts == [] then 0
    else Moved(s, acts[..|acts| - 1])
         + if Effective(History(s, acts[..|acts| - 1]), acts[|acts| - 1]) then 1 else 0
  }

  /** So a run of n nodes is over after at most 6 n + 6 effective actions. */
  lemma {:induction false} RunsEnd(g: Origin, s: System, acts: seq<Action>)
    requires Inv(g, s)
    ensures Moved(s, acts) + Remaining(History(s, acts).hub) <= Remaining(s.hub)
  {
    hide Inv, Remaining, Next, Effective;
    if acts != [] {
      var k := |acts| - 1;
      RunsEnd(g, s, acts[..k]);
      HistoryInv(g, s, acts[..k]);
      EffectiveMoves(g, History(s, acts[..k]), acts[k]);
    }
  }

  lemma OpeningRemaining(g: Origin, agents: map<nat, Agent>)
    ensures Remaining(Opening(g.run, g.epoch, g.ids, g.assignments, agents).hub) == 6 * |g.ids| + 6
  {
    var h := Opening(g.run, g.epoch, g.ids, g.assignments, agents).hub;
    assert h.outcomes.Keys == g.ids && |h.outcomes| == |h.outcomes.Keys|;
  }

  /** Nothing is lost and no handler fails. */
  predicate Smooth(act: Action) {
    (act.Call? ==> act.fate == Served) && (act.Event? ==> act.fate == Served)
  }

  /** A node no call has failed on, its agent idle until it is started. */
  predicate Clean(s: System, id: nat)
    requires id in s.agents && id in s.hub.outcomes && id in s.hub.assignments
  {
    var o, a := s.hub.outcomes[id], s.agents[id];
    && o.errors == 0 && a.kind == s.hub.assignments[id].kind && s.hub.phase != Aborted
    && (s.hub.phase == Clearing && id !in s.hub.pending ==> !a.Running())
    && (s.hub.phase == Configuring ==> !a.Running() && (id !in s.hub.pending ==> o.configured))
    && (s.hub.phase == Starting && id in s.hub.pending ==> !a.Running())
  }

  ghost predicate AllClean(g: Origin, s: System) {
    forall id | id in g.ids :: id in s.agents && id in s.hub.outcomes && id in s.hub.assignments && Clean(s, id)
  }

  lemma CleanCall(g: Origin, s: System, id: nat)
    requires Inv(g, s) && id in s.hub.pending && id in g.ids
    requires id in s.agents && id in s.hub.outcomes && id in s.hub.assignments && Clean(s, id)
    ensures var n := Next(s, Call(id, Served));
            id in n.agents && id in n.hub.outcomes && id in n.hub.assignments && Clean(n, id)
  {
    hide LaunchOk;
    FrameKeys(g, s);
    assert NodeInv(g, s, id);
    if s.hub.phase == Collecting {
      FetchStage(g, id, s.hub.outcomes[id], s.agents[id]);
    }
  }

  lemma CleanEvent(g: Origin, s: System, id: nat, asg: Assignment)
    requires Inv(g, s) && id in g.ids && s.hub.phase == Waiting
    requires id in s.agents && id in s.hub.outcomes && id in s.hub.assignments && Clean(s, id)
    ensures var n := Next(s, Event(id, asg, Served));
            id in n.agents && id in n.hub.outcomes && id in n.hub.assignments && Clean(n, id)
  {}

  lemma CleanOther(s: System, n: System, id: nat)
    requires id in s.agents && id in s.hub.outcomes && id in s.hub.assignments && Clean(s, id)
    requires id in n.agents && id in n.hub.outcomes && id in n.hub.assignments && n.hub.phase == s.hub.phase
    requires n.agents[id] == s.agents[id] && n.hub.outcomes[id] == s.hub.outcomes[id]
    requires n.hub.assignments[id] == s.hub.assignments[id] && (id in n.hub.pending <==> id in s.hub.pending)
    ensures Clean(n, id)
  {}

  lemma CleanProceed(g: Origin, s: System)
    requires Inv(g, s) && AllClean(g, s) && s.hub.pending == {}
    ensures AllClean(g, Next(s, Proceed))
  {
    hide LaunchOk, Prepared, OnRun, Over;
    FrameKeys(g, s);
    forall id | id in g.ids ensures NodeInv(g, s, id) && Clean(s, id) {}
    if s.hub.phase == Configuring {
      forall id | id in s.hub.outcomes ensures s.hub.outcomes[id].configured {
        assert id in g.ids;
      }
    }
  }

  lemma CleanWork(s: System, id: nat)
    requires id in s.agents && id in s.hub.outcomes && id in s.hub.assignments && Clean(s, id)
    ensures var n := Next(s, Work(id));
            id in n.agents && id in n.hub.outcomes && id in n.hub.assignments && Clean(n, id)
  {}

  lemma NextClean(g: Origin, s: System, act: Action)
    requires Inv(g, s) && AllClean(g, s) && Smooth(act)
    ensures AllClean(g, Next(s, act))
  {
    hide Inv, Clean, StopRun, Configure, StartRun, Fetch, StepOnce;
    if act.Proceed? {
      if s.hub.pending == {} {
        CleanProceed(g, s);
      }
    } else {
      var n := Next(s, act);
      forall id | id in g.ids
        ensures id in n.agents && id in n.hub.outcomes && id in n.hub.assignments && Clean(n, id)
      {
        assert Clean(s, id);
        if id != act.node {
          CleanOther(s, n, id);
        } else {
          match act
          case Call(_, _) =>
            if id in s.hub.pending {
              CleanCall(g, s, id);
            }
          case Event(_, asg, _) =>
            if s.hub.phase == Waiting {
              CleanEvent(g, s, id, asg);
            }
          case Work(_) => CleanWork(s, id);
        }
      }
    }
  }

  ghost predicate AllSmooth(acts: seq<Action>) {
    forall k | 0 <= k < |acts| :: Smooth(acts[k])
  }

  lemma {:induction false} HistoryClean(g: Origin, s: System, acts: seq<Action>)
    requires Inv(g, s) && AllClean(g, s) && AllSmooth(acts)
    ensures AllClean(g, History(s, acts))
  {
    hide Inv, AllClean, Next, Smooth;
    if acts != [] {
      var k := |acts| - 1;
      HistoryClean(g, s, acts[..k]);
      HistoryInv(g, s, acts[..k]);
      NextClean(g, History(s, acts[..k]), acts[k]);
    }
  }

  /** A run in which nothing is lost and nothing fails, on agents of the assigned kinds left in
      any state by earlier runs, is never aborted, records no error, and once finished its
      report is ok, unless the fleet is empty. */
  lemma SmoothRunOk(g: Origin, agents: map<nat, Agent>, acts: seq<Action>)
    requires Begins(g, agents) && AllSmooth(acts)
    requires forall id | id in g.ids :: agents[id].kind == g.assignments[id].kind
    ensures var s := History(Opening(g.run, g.epoch, g.ids, g.assignments, agents), acts);
            && (s.hub.phase != Aborted || g.ids == {})
            && (forall id | id in s.hub.outcomes :: s.hub.outcomes[id].errors == 0)
            && (s.hub.phase == Finished && g.ids != {} ==> s.hub.ReportOk())
  {
    hide Inv, AllClean, History;
    var s0 := Opening(g.run, g.epoch, g.ids, g.assignments, agents);
    OpeningInv(g, agents);
    OpeningClean(g, agents);
    HistoryInv(g, s0, acts);
    HistoryClean(g, s0, acts);
    CleanReport(g, History(s0, acts));
  }

  lemma OpeningClean(g: Origin, agents: map<nat, Agent>)
    requires Begins(g, agents) && forall id | id in g.ids :: agents[id].kind == g.assignments[id].kind
    ensures AllClean(g, Opening(g.run, g.epoch, g.ids, g.assignments, agents))
  {}

  lemma CleanReport(g: Origin, s: System)
    requires Inv(g, s) && AllClean(g, s)
    ensures g.ids != {} ==> s.hub.phase != Aborted
    ensures s.hub.outcomes.Keys == g.ids
    ensures forall id | id in s.hub.outcomes :: s.hub.outcomes[id].errors == 0
    ensures s.hub.phase == Finished && g.ids != {} ==> s.hub.ReportOk()
  {
    FrameKeys(g, s);
    forall id | id in g.ids ensures NodeInv(g, s, id) && Clean(s, id) {}
    if g.ids != {} {
      var id :| id in g.ids;
      assert Clean(s, id);
      assert id in s.hub.outcomes;
    }
  }

  // -------------------------------------------------------------------------- the object

  /** The hub of one run; each method is what a coroutine does with its call's reply. */
  class ExperimentRunner {
    const run: nat
    const epoch: int
    var assignments: map<nat, Assignment>
    var phase: Phase
    var pending: set<nat>
    var outcomes: map<nat, Outcome>

    function Value(): Hub
      reads this
    {
      Hub(run, epoch, assignments, phase, pending, outcomes)
    }

    constructor (run: nat, epoch: int, ids: set<nat>, assignments: map<nat, Assignment>)
      ensures Value() == Opening(run, epoch, ids, assignments, map[]).hub
    {
      this.run, this.epoch, this.assignments := run, epoch, assignments;
      phase, pending, outcomes := Clearing, ids, map i | i in ids :: NoOutcome;
    }

    /** A best-effort stop before the run: whatever came back, nothing is recorded. */
    method ClearStale(id: nat)
      requires id in outcomes
      modifies this`pending
      ensures Value() == Note(old(Value()), id, old(outcomes)[id])
    {
      pending := pending - {id};
      assert outcomes[id := outcomes[id]] == outcomes;
    }

    method ConfigureOne(id: nat, acknowledged: bool)
      requires id in outcomes
      modifies this
      ensures Value() == Note(old(Value()), id, Configured(old(outcomes)[id], acknowledged))
    {
      var o := outcomes[id];
      if acknowledged {
        o := o.(configured := true);
      } else {
        o := o.(errors := o.errors + 1);
      }
      outcomes, pending := outcomes[id := o], pending - {id};
    }

    method StartOne(id: nat, acknowledged: bool)
      requires id in outcomes
      modifies this
      ensures Value() == Note(old(Value()), id, Started(old(outcomes)[id], acknowledged))
    {
      var o := outcomes[id];
      if acknowledged {
        o := o.(started := true);
      } else {
        o := o.(errors := o.errors + 1);
      }
      outcomes, pending := outcomes[id := o], pending - {id};
    }

    method StopOne(id: nat, acknowledged: bool)
      requires id in outcomes
      modifies this
      ensures Value() == Note(old(Value()), id, Stopped(old(outcomes)[id], acknowledged))
    {
      var o := outcomes[id];
      if acknowledged {
        o := o.(stopped := true);
      } else {
        o := o.(errors := o.errors + 1);
      }
      outcomes, pending := outcomes[id := o], pending - {id};
    }

    /** Both artefacts are tried, whatever became of the first. */
    method CollectOne(id: nat, meta: Option<File>, rows: Option<File>)
      requires id in outcomes && !outcomes[id].metaTried
      modifies this
      ensures Value() == Note(old(Value()), id, RowsFetched(MetaFetched(old(outcomes)[id], meta), rows))
    {
      var o := outcomes[id].(metaTried := true);
      if meta.Some? {
        o := o.(meta := meta);
      } else {
        o := o.(errors := o.errors + 1);
      }
      if rows.Some? {
        o := o.(rows := rows);
      } else {
        o := o.(errors := o.errors + 1);
      }
      outcomes, pending := outcomes[id := o], pending - {id};
    }

    /** The assignment of record changes only when the agent took the change. */
    method ApplyEvent(id: nat, asg: Assignment, acknowledged: bool)
      requires id in assignments
      modifies this`assignments
      ensures assignments == if acknowledged then old(assignments)[id := asg] else old(assignments)
    {
      var was := assignments[id];
      assignments := assignments[id := asg];
      if !acknowledged {
        assignments := assignments[id := was];
        assert assignments == old(assignments);
      }
    }

    /** Every call of the phase has returned. */
    method EndPhase()
      modifies this
      ensures Value() == Onward(old(Value()))
    {
      match phase
      case Clearing => phase, pending := Configuring, outcomes.Keys;
      case Configuring =>
        if forall i | i in outcomes :: outcomes[i].configured {
          phase, pending := Starting, outcomes.Keys;
        } else {
          MarkNotStarted();
          phase := Aborted;
        }
      case Starting => phase := Waiting;
      case Waiting => phase, pending := Stopping, outcomes.Keys;
      case Stopping => phase, pending := Collecting, outcomes.Keys;
      case Collecting => phase := Finished;
      case Finished =>
      case Aborted =>
    }

    method MarkNotStarted()
      modifies this`outcomes
      ensures outcomes == map i | i in old(outcomes) ::
                if old(outcomes)[i].configured then Erred(old(outcomes)[i]) else old(outcomes)[i]
    {
      var todo := outcomes.Keys;
      while todo != {}
        invariant todo <= outcomes.Keys == old(outcomes).Keys
        invariant forall i | i in todo :: outcomes[i] == old(outcomes)[i]
        invariant forall i | i in outcomes && i !in todo ::
                    outcomes[i] == if old(outcomes)[i].configured then Erred(old(outcomes)[i]) else old(outcomes)[i]
      {
        var i :| i in todo;
        todo := todo - {i};
        if outcomes[i].configured {
          outcomes := outcomes[i := Erred(outcomes[i])];
        }
      }
    }
  }
}
