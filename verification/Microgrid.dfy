/** One agent of the benchmark: observer, interface and emulated plant, advanced
    together in a fixed order, under a latching watchdog.
  */
module Microgrid {
  import opened RealMath
  import opened Numeric
  import opened Virtual
  import opened Interfaces
  import P = Plant
  import N = Neighbors

  datatype Arm = AdaptiveArm(a: Adaptive) | LCArm(l: LC)

  datatype Cause = Inside | StateBound | GainBound | SaturationBound

  datatype Agent = Agent(plant: P.Params, x: Pair, layer: Layer, arm: Arm, h: real, ticks: nat, cause: Cause, satRun: nat)

  /** What one tick logs. */
  datatype Row = Row(x: Pair, z: Pair, g: Pair, cmd: Command, c: real, theta: real, cause: Cause, arm: Arm)

  const X_WATCH: real := 5000.0
  const VARTHETA_WATCH: real := 5000.0
  const SAT_PERSIST: nat := 5
  const T_C_DEFAULT: real := 40.0

  /** The controller's reading of the flat snapshot: `degree` pairs, zero where short. */
  function Pairs(vs: seq<int>, degree: nat): (ps: seq<Pair>)
    ensures |ps| == degree
  {
    seq(degree, j requires 0 <= j < degree => PairAt(vs, j))
  }

  function PairAt(vs: seq<int>, j: nat): Pair {
    Pair(if 2 * j < |vs| then Dequantize(vs[2 * j]) else 0.0,
         if 2 * j + 1 < |vs| then Dequantize(vs[2 * j + 1]) else 0.0)
  }

  /** From a table of two-coordinate neighbours the controller reads, for each in declared
      order, the held scaled integers in units. */
  lemma ReadsTheTable(t: N.Table, j: nat)
    requires t.dim == 2 && j < |t.ids|
    ensures var p, v := Pairs(N.Flat(t, t.ids), |t.ids|)[j], N.Values(t, t.ids[j]);
            p.P * 1000000.0 == v[0] as real && p.Q * 1000000.0 == v[1] as real
  {
    hide N.Values;
    N.FlatAt(t, t.ids, j, 0);
    N.FlatAt(t, t.ids, j, 1);
    var v := N.Values(t, t.ids[j]);
    InUnits(v[0]);
    InUnits(v[1]);
  }

  lemma InUnits(q: int)
    ensures Dequantize(q) * 1000000.0 == q as real
  {}

  /** Where the snapshot is short it reads zeros. */
  lemma ShortReadsZero(vs: seq<int>, j: nat)
    ensures 2 * j >= |vs| ==> PairAt(vs, j).P == 0.0
    ensures 2 * j + 1 >= |vs| ==> PairAt(vs, j).Q == 0.0
  {}

  function Time(ticks: nat, h: real): real {
    ticks as real * h
  }

  function Now(a: Agent): real {
    Time(a.ticks, a.h)
  }

  /** When saturation starts to count against the run. */
  function Deadline(arm: Arm): real {
    if arm.LCArm? then arm.l.p.tC else T_C_DEFAULT
  }

  predicate ArmRuns(arm: Arm, h: real, t: real) {
    match arm
    case AdaptiveArm(a) => a.h == h && h != 0.0
    case LCArm(l) => l.h == h && LCDefined(l.p, h, t)
  }

  /** Every division of the next tick is defined. */
  predicate Runs(a: Agent) {
    && a.plant.Accepted() && a.plant.pMax != 0.0 && a.plant.qMax != 0.0
    && a.layer.Valid() && Den(a.layer, Now(a), a.h) != 0.0
    && ArmRuns(a.arm, a.h, Now(a))
  }

  /** The observer with the snapshot frozen for this tick. */
  function Held(a: Agent, vs: seq<int>): (l: Layer)
    requires Runs(a)
    ensures l.Valid() && Den(l, Now(a), a.h) != 0.0
    ensures l == a.layer.(w := l.w)
  {
    Hold(a.layer, Pairs(vs, a.layer.degree))
  }

  /** The observer's candidate. */
  function Observed(a: Agent, vs: seq<int>): Candidate
    requires Runs(a)
  {
    Step(Held(a, vs), Now(a), a.h)
  }

  function ArmCommand(m: P.Maths, arm: Arm, h: real, t: real, x: Pair, z: Pair, g: Pair): Command
    requires ArmRuns(arm, h, t)
  {
    match arm
    case AdaptiveArm(a) => AdaptiveCommand(a, x, z, g)
    case LCArm(l) => LCCommand(m, l, t, x, z, g)
  }

  function ArmNext(m: P.Maths, arm: Arm, h: real, t: real, x: Pair, c: Command): Arm
    requires ArmRuns(arm, h, t)
  {
    match arm
    case AdaptiveArm(a) => AdaptiveArm(Adapt(a, c.fired))
    case LCArm(l) => LCArm(Learn(m, l, t, x, c.sigma, c.fired))
  }

  /** The command is formed from the old plant, observer and interface states. */
  function CommandOf(m: P.Maths, a: Agent, vs: seq<int>): Command
    requires Runs(a)
  {
    ArmCommand(m, a.arm, a.h, Now(a), a.x, a.layer.z, Observed(a, vs).g)
  }

  function Gained(arm: Arm): bool {
    arm.AdaptiveArm? && arm.a.vartheta > VARTHETA_WATCH
  }

  function SatRun(was: nat, saturated: bool): nat {
    if saturated then was + 1 else 0
  }

  /** The bounds, in the order they are tested. */
  function Watch(satRun: nat, x: Pair, arm: Arm, armed: bool): Cause {
    if Max(Abs(x.P), Abs(x.Q)) > X_WATCH then StateBound
    else if Gained(arm) then GainBound
    else if armed && satRun > SAT_PERSIST then SaturationBound
    else Inside
  }

  function Tick(m: P.Maths, a: Agent, vs: seq<int>): Agent
    requires Runs(a)
  {
    var t := Now(a);
    var k := Observed(a, vs);
    var c := CommandOf(m, a, vs);
    var x := P.Advance(m, a.plant, a.x, c.app, t, a.h);
    var arm := ArmNext(m, a.arm, a.h, t, a.x, c);
    var s := if a.cause == Inside then SatRun(a.satRun, c.saturated) else a.satRun;
    Agent(a.plant, x, Commit(Held(a, vs), k), arm, a.h, a.ticks + 1,
          if a.cause == Inside then Watch(s, x, arm, t >= Deadline(a.arm)) else a.cause, s)
  }

  function RowOf(m: P.Maths, a: Agent, vs: seq<int>): Row
    requires Runs(a)
  {
    var n := Tick(m, a, vs);
    Row(n.x, n.layer.z, Observed(a, vs).g, CommandOf(m, a, vs), n.layer.c,
        Theta(Held(a, vs), Now(a), a.h), n.cause, n.arm)
  }

  function Fresh(plant: P.Params, x: Pair, layer: Layer, arm: Arm, h: real): Agent {
    Agent(plant, x, layer, arm, h, 0, Inside, 0)
  }

  // --------------------------------------------------------------- the error's dynamics

  /** The tracking error x - z. */
  function Sigma(a: Agent): Pair {
    Sub(a.x, a.layer.z)
  }

  function Drift(z: real, h: real, g: real): real {
    z + h * g
  }

  /** z+ = z + h g. */
  lemma ObserverSlope(a: Agent, vs: seq<int>)
    requires Runs(a)
    ensures var k := Observed(a, vs);
            && k.z.P == Drift(a.layer.z.P, a.h, k.g.P)
            && k.z.Q == Drift(a.layer.z.Q, a.h, k.g.Q)
  {
    hide Slope, Den, Held;
    var l := Held(a, vs);
    NextZIs(l, Now(a), a.h, Eta(l).P, Slope(l, Now(a), a.h, Eta(l).P), l.z.P, l.w.P);
    NextZIs(l, Now(a), a.h, Eta(l).Q, Slope(l, Now(a), a.h, Eta(l).Q), l.z.Q, l.w.Q);
  }

  /** Feedforward cancels: the error moves only by the correction, the saturation
      excess and the uncertainty. */
  lemma ErrorDynamics(m: P.Maths, a: Agent, vs: seq<int>)
    requires Runs(a)
    ensures var c, n := CommandOf(m, a, vs), Tick(m, a, vs);
            && c.sigma == Sigma(a)
            && c.mu == Sub(Observed(a, vs).g, c.omega)
            && (!c.saturated <==> c.app == c.mu)
            && Sigma(n) == ErrorAfter(c, P.Zeta(m, a.plant, a.x, Now(a)), a.h)
  {
    hide Den, P.Zeta, P.Euler, Drift, After, Observed, AdaptiveOmega, LCOmega, TrigOf, ClipBoth, Gate, P.Norm, ArmNext, Watch, Learn, Adapt;
    ObserverSlope(a, vs);
    CommandShape(m, a, vs);
    var c, g := CommandOf(m, a, vs), Observed(a, vs).g;
    var zeta := P.Zeta(m, a.plant, a.x, Now(a));
    ErrorStep(a.x.P, a.layer.z.P, g.P, c.omega.P, c.mu.P, c.app.P, zeta.P, a.h);
    ErrorStep(a.x.Q, a.layer.z.Q, g.Q, c.omega.Q, c.mu.Q, c.app.Q, zeta.Q, a.h);
  }

  lemma CommandShape(m: P.Maths, a: Agent, vs: seq<int>)
    requires Runs(a)
    ensures var c := CommandOf(m, a, vs);
            && c.sigma == Sigma(a) && c.mu == Sub(Observed(a, vs).g, c.omega)
            && (!c.saturated <==> c.app == c.mu)
  {
    hide Den, Observed, AdaptiveOmega, LCOmega, TrigOf, ClipBoth, Gate, P.Norm;
  }

  function After(s: real, omega: real, excess: real, zeta: real, h: real): real {
    s - h * omega + h * excess + h * zeta
  }

  function ErrorAfter(c: Command, zeta: Pair, h: real): Pair {
    Pair(After(c.sigma.P, c.omega.P, c.app.P - c.mu.P, zeta.P, h),
         After(c.sigma.Q, c.omega.Q, c.app.Q - c.mu.Q, zeta.Q, h))
  }

  lemma ErrorStep(x: real, z: real, g: real, omega: real, mu: real, app: real, zeta: real, h: real)
    requires mu == g - omega
    ensures P.Euler(x, h, app, zeta) - Drift(z, h, g) == After(x - z, omega, app - mu, zeta, h)
  {}

  // ------------------------------------------------------------------------- whole runs

  /** Nonnegative gains and widths: every tick of such an agent is defined. */
  predicate Healthy(a: Agent) {
    && a.plant.Accepted() && a.plant.pMax != 0.0 && a.plant.qMax != 0.0
    && Ready(a.layer, a.h) && a.h > 0.0
    && (match a.arm
        case AdaptiveArm(d) => d.h == a.h
        case LCArm(l) => l.h == a.h && l.p.Accepted() && l.p.pMax != 0.0 && l.p.qMax != 0.0 && l.p.Width(l.h) > 0.0)
  }

  lemma HealthyRuns(a: Agent)
    requires Healthy(a)
    ensures Runs(a)
  {
    hide Den;
    DenAtLeastOne(a.layer, Now(a), a.h);
  }

  lemma HealthyTick(m: P.Maths, a: Agent, vs: seq<int>)
    requires Healthy(a)
    ensures Runs(a) && Healthy(Tick(m, a, vs))
    ensures Tick(m, a, vs).layer.c >= a.layer.c
  {
    hide Den, P.Zeta, AdaptiveOmega, LCOmega, TrigOf, ClipBoth, Gate, P.Norm, Watch, Slope, NextC, NextZ, LearnRate, LCPowers;
    HealthyRuns(a);
    var l := Held(a, vs);
    GainGrows(l, Now(a), a.h, Eta(l));
  }

  /** What an agent reads at each tick of a run without end: any run is a prefix of one. */
  type Inputs = nat -> seq<int>

  /** The agent before tick k. */
  function At(m: P.Maths, a: Agent, f: Inputs, k: nat): (r: Agent)
    requires Healthy(a)
    ensures Healthy(r) && Runs(r)
  {
    HealthyRuns(a);
    if k == 0 then a
    else
      var was := At(m, a, f, k - 1);
      HealthyTick(m, was, f(k - 1));
      HealthyRuns(Tick(m, was, f(k - 1)));
      Tick(m, was, f(k - 1))
  }

  /** What tick k logs. */
  function RowAt(m: P.Maths, a: Agent, f: Inputs, k: nat): Row
    requires Healthy(a)
  {
    RowOf(m, At(m, a, f, k), f(k))
  }

  lemma AtNext(m: P.Maths, a: Agent, f: Inputs, k: nat)
    requires Healthy(a)
    ensures At(m, a, f, 0) == a
    ensures At(m, a, f, k + 1) == Tick(m, At(m, a, f, k), f(k))
  {
    hide Tick, Healthy;
  }

  /** What no tick changes. */
  lemma {:induction false} AtFixed(m: P.Maths, a: Agent, f: Inputs, k: nat)
    requires Healthy(a)
    ensures var n := At(m, a, f, k);
            && n.ticks == a.ticks + k && n.h == a.h && n.plant == a.plant
            && n.layer.p == a.layer.p && n.layer.degree == a.layer.degree
            && (n.arm.AdaptiveArm? <==> a.arm.AdaptiveArm?)
            && (a.arm.AdaptiveArm? ==> n.arm.a.p == a.arm.a.p)
            && (a.arm.LCArm? ==> n.arm.l.p == a.arm.l.p)
  {
    hide At, Tick, Healthy;
    if k == 0 {
      AtNext(m, a, f, k);
    } else {
      AtNext(m, a, f, k - 1);
      AtFixed(m, a, f, k - 1);
      TickFixed(m, At(m, a, f, k - 1), f(k - 1));
    }
  }

  lemma TickFixed(m: P.Maths, a: Agent, vs: seq<int>)
    requires Runs(a)
    ensures var n := Tick(m, a, vs);
            && n.ticks == a.ticks + 1 && n.h == a.h && n.plant == a.plant
            && n.layer.p == a.layer.p && n.layer.degree == a.layer.degree
            && (n.arm.AdaptiveArm? <==> a.arm.AdaptiveArm?)
            && (a.arm.AdaptiveArm? ==> n.arm.a.p == a.arm.a.p)
            && (a.arm.LCArm? ==> n.arm.l.p == a.arm.l.p)
  {
    hide Den, P.Zeta, AdaptiveOmega, LCOmega, TrigOf, ClipBoth, Gate, P.Norm, Watch, NextC, NextZ, LearnRate, LCPowers;
  }

  // ----------------------------------------------------------------------- the watchdog

  function SaturatedAt(m: P.Maths, a: Agent, f: Inputs, k: nat): bool
    requires Healthy(a)
  {
    CommandOf(m, At(m, a, f, k), f(k)).saturated
  }

  /** The bound tick k broke, read off the whole history: the last six commands
      count, not a counter. */
  function Broke(m: P.Maths, a: Agent, f: Inputs, k: nat): Cause
    requires Healthy(a)
  {
    var n := At(m, a, f, k + 1);
    if Max(Abs(n.x.P), Abs(n.x.Q)) > X_WATCH then StateBound
    else if Gained(n.arm) then GainBound
    else if Now(At(m, a, f, k)) >= Deadline(a.arm) && SixSaturated(m, a, f, k) then SaturationBound
    else Inside
  }

  predicate SixSaturated(m: P.Maths, a: Agent, f: Inputs, k: nat)
    requires Healthy(a)
  {
    k >= SAT_PERSIST && forall j | k - SAT_PERSIST <= j <= k :: SaturatedAt(m, a, f, j)
  }

  /** How many of the commands just before tick k saturated in a row. */
  function Trailing(m: P.Maths, a: Agent, f: Inputs, k: nat): (n: nat)
    requires Healthy(a)
    ensures n <= k
  {
    if k > 0 && SaturatedAt(m, a, f, k - 1) then Trailing(m, a, f, k - 1) + 1 else 0
  }

  lemma {:induction false} TrailingIff(m: P.Maths, a: Agent, f: Inputs, k: nat, n: nat)
    requires Healthy(a)
    ensures Trailing(m, a, f, k) >= n
       <==> k >= n && forall j | k - n <= j < k :: SaturatedAt(m, a, f, j)
    decreases k
  {
    hide SaturatedAt;
    if k > 0 && n > 0 {
      TrailingIff(m, a, f, k - 1, n - 1);
    }
  }

  lemma WatchedTick(m: P.Maths, a: Agent, vs: seq<int>)
    requires Runs(a)
    ensures var n, s := Tick(m, a, vs), SatRun(a.satRun, CommandOf(m, a, vs).saturated);
            if a.cause == Inside
            then n.satRun == s && n.cause == Watch(s, n.x, n.arm, Now(a) >= Deadline(a.arm))
            else n.cause == a.cause && n.satRun == a.satRun
  {
    hide CommandOf, P.Advance, ArmNext, Observed, Watch, SatRun, Den;
  }

  /** The watchdog names the first bound any tick broke, forever after, and
      nothing while every tick stayed inside. */
  lemma {:induction false} WatchdogIff(m: P.Maths, a: Agent, f: Inputs, k: nat)
    requires Healthy(a) && a.cause == Inside && a.satRun == 0
    ensures At(m, a, f, k).cause == Inside <==> forall j | 0 <= j < k :: Broke(m, a, f, j) == Inside
    ensures At(m, a, f, k).cause == Inside ==> At(m, a, f, k).satRun == Trailing(m, a, f, k)
    ensures forall j | 0 <= j < k && Broke(m, a, f, j) != Inside
                       && (forall i | 0 <= i < j :: Broke(m, a, f, i) == Inside) ::
              At(m, a, f, k).cause == Broke(m, a, f, j)
  {
    hide At, Broke, Trailing, SaturatedAt;
    if k == 0 {
      AtStart(m, a, f);
    } else {
      WatchdogIff(m, a, f, k - 1);
      BrokeIs(m, a, f, k - 1);
    }
  }

  lemma AtStart(m: P.Maths, a: Agent, f: Inputs)
    requires Healthy(a)
    ensures At(m, a, f, 0) == a && Trailing(m, a, f, 0) == 0
  {}

  /** One tick of an untripped agent whose counter is right. */
  lemma BrokeIs(m: P.Maths, a: Agent, f: Inputs, k: nat)
    requires Healthy(a)
    ensures var b, n := At(m, a, f, k), At(m, a, f, k + 1);
            if b.cause == Inside
            then b.satRun == Trailing(m, a, f, k)
                 ==> n.cause == Broke(m, a, f, k) && n.satRun == Trailing(m, a, f, k + 1)
            else n.cause == b.cause
  {
    hide At, Tick, CommandOf;
    AtNext(m, a, f, k);
    WatchedTick(m, At(m, a, f, k), f(k));
    AtFixed(m, a, f, k);
    TrailingIff(m, a, f, k + 1, SAT_PERSIST + 1);
  }

  // -------------------------------------------------------------------------- the object

  class MicrogridController {
    const m: P.Maths
    const h: real
    const plant: P.MicrogridPlant
    const observer: VirtualLayer
    const adaptive: AdaptiveInterface?
    const lc: LCInterface?
    var stepCount: nat
    var cause: Cause
    var satRun: nat

    ghost predicate Valid()
      reads this
    {
      && plant.m == m
      && (adaptive == null <==> lc != null)
      && (lc != null ==> lc.m == m)
    }

    function ArmValue(): Arm
      requires Valid()
      reads this, adaptive, lc
    {
      if adaptive != null then AdaptiveArm(adaptive.Value()) else LCArm(lc.Value())
    }

    function Value(): Agent
      requires Valid()
      reads this, plant, observer, adaptive, lc
    {
      Agent(plant.p, plant.X(), observer.Value(), ArmValue(), h, stepCount, cause, satRun)
    }

    constructor (m: P.Maths, p: P.Params, x: Pair, v: Params, degree: nat, z: Pair, iface: Arm, h: real)
      requires Initial(v, degree, z).Valid()
      requires iface == if iface.AdaptiveArm? then AdaptiveArm(NewAdaptive(iface.a.p, h)) else LCArm(NewLC(iface.l.p, h))
      ensures Valid() && this.m == m
      ensures Value() == Fresh(p, x, Initial(v, degree, z), iface, h)
      ensures fresh(plant) && fresh(observer) && (adaptive != null ==> fresh(adaptive)) && (lc != null ==> fresh(lc))
    {
      this.m, this.h := m, h;
      plant := new P.MicrogridPlant(m, p, x);
      observer := new VirtualLayer(v, degree, z);
      stepCount, cause, satRun := 0, Inside, 0;
      if iface.AdaptiveArm? {
        adaptive := new AdaptiveInterface(iface.a.p, h);
        lc := null;
      } else {
        adaptive := null;
        lc := new LCInterface(m, iface.l.p, h);
      }
    }

    method Snapshot(vs: seq<int>) returns (out: seq<Pair>)
      ensures out == Pairs(vs, observer.degree)
    {
      out := [];
      for j := 0 to observer.degree
        invariant out == Pairs(vs, j)
      {
        out := out + [PairAt(vs, j)];
      }
    }

    method Interface(t: real, x: Pair, z: Pair, g: Pair) returns (c: Command)
      requires Valid() && ArmRuns(ArmValue(), h, t)
      modifies adaptive, lc
      ensures c == ArmCommand(m, old(ArmValue()), h, t, x, z, g)
      ensures ArmValue() == ArmNext(m, old(ArmValue()), h, t, x, c)
    {
      if adaptive != null {
        c := adaptive.Step(x, z, g);
      } else {
        c := lc.Step(t, x, z, g);
      }
    }

    method Watchdog(saturated: bool, armed: bool) returns (broke: Cause)
      requires Valid()
      modifies this`satRun
      ensures satRun == SatRun(old(satRun), saturated)
      ensures broke == Watch(satRun, plant.X(), ArmValue(), armed)
    {
      satRun := if saturated then satRun + 1 else 0;
      if Max(Abs(plant.xP), Abs(plant.xQ)) > X_WATCH {
        return StateBound;
      }
      if adaptive != null && adaptive.vartheta > VARTHETA_WATCH {
        return GainBound;
      }
      if armed && satRun > SAT_PERSIST {
        return SaturationBound;
      }
      broke := Inside;
    }

    /** One tick, in the design's order: snapshot, candidate, interface on the old
        states, plant, commit, watchdog. */
    method Step(vs: seq<int>) returns (row: Row)
      requires Valid() && Runs(Value())
      modifies this, plant, observer, adaptive, lc
      ensures Valid() && Value() == Tick(m, old(Value()), vs)
      ensures row == RowOf(m, old(Value()), vs)
    {
      hide Den, Virtual.Step, Theta, P.Advance, ArmCommand, ArmNext, Watch, SatRun, Pairs;
      ghost var was := Value();
      var t := Time(stepCount, h);
      var nbrs := Snapshot(vs);
      var held := observer.HoldSnapshot(nbrs);
      assert observer.Value() == Held(was, vs);
      var zOld := Pair(observer.zP, observer.zQ);
      var theta := Theta(observer.Value(), t, h);
      var k := observer.Compute(t, h);
      var x := plant.X();
      var c := Interface(t, x, zOld, k.g);
      plant.Step(c.app, t, h);
      observer.CommitValues(k);
      if cause == Inside {
        cause := Watchdog(c.saturated, t >= (if lc != null then lc.p.tC else T_C_DEFAULT));
      }
      stepCount := stepCount + 1;
      row := Row(plant.X(), k.z, k.g, c, observer.c, theta, cause, ArmValue());
    }
  }
}
