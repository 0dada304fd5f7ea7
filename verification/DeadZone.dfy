/** Finite adaptation of the dead-zone interface: with a threshold of at least
    h zeta_bound and no saturation, the gain is raised a bounded number of times
    over runs of any length, and the triggering error then stays within the
    threshold for good.
  */
module DeadZone {
  import opened RealMath
  import opened Virtual
  import opened Interfaces
  import P = Plant
  import M = Microgrid

  // ----------------------------------------------------------- the error from tick to tick

  lemma ResidualCoordinate(a: Adaptive, s: real, r: real)
    requires a.h > 0.0 && a.vartheta >= 0.0 && r == s - a.h * Correction(a.vartheta, s, a.h)
    ensures Abs(r) == Max(Abs(s) - Pull(a), 0.0)
  {
    hide Correction;
    CorrectionTakes(a.vartheta, s, a.h);
  }

  /** What one tick of the correction takes off each coordinate. */
  function Pull(a: Adaptive): real {
    a.h * a.vartheta
  }

  lemma ResidualShrinks(a: Adaptive, s: Pair)
    requires a.h > 0.0 && a.vartheta >= 0.0
    ensures P.Norm(Residual(a, s)) <= Max(P.Norm(s) - Pull(a), 0.0)
  {
    hide Correction, Pull;
    PullNonneg(a);
    ResidualCoordinate(a, s.P, Residual(a, s).P);
    ResidualCoordinate(a, s.Q, Residual(a, s).Q);
  }

  lemma PullNonneg(a: Adaptive)
    requires a.h > 0.0 && a.vartheta >= 0.0
    ensures Pull(a) >= 0.0
  {
    MulNonneg(a.h, a.vartheta);
  }

  function Lift(h: real, zeta: real): real {
    h * zeta
  }

  lemma CoordinateStep(s: real, w: real, excess: real, zeta: real, h: real, res: real)
    requires excess == 0.0 && h > 0.0 && res == s - h * w
    ensures Abs(M.After(s, w, excess, zeta, h)) <= Abs(res) + Lift(h, Abs(zeta))
  {
    P.AbsScale(h, zeta, h * zeta);
    P.Triangle(res + h * zeta, res, h * zeta);
  }

  /** An unsaturated tick leaves at most the residual and one lift of the uncertainty. */
  lemma ErrorShrinks(m: P.Maths, a: M.Agent, vs: seq<int>)
    requires M.Runs(a) && a.arm.AdaptiveArm? && a.h > 0.0
    requires m.Sound() && a.plant.Rated() && !M.CommandOf(m, a, vs).saturated
    ensures P.Norm(M.Sigma(M.Tick(m, a, vs)))
         <= P.Norm(Residual(a.arm.a, M.Sigma(a))) + Lift(a.h, P.ZetaBound(a.plant))
  {
    hide M.Tick, M.CommandOf, P.Zeta, P.ZetaBound, M.After, Correction, Lift, Abs, M.Observed;
    M.ErrorDynamics(m, a, vs);
    OmegaOf(m, a, vs);
    var c, zeta := M.CommandOf(m, a, vs), P.Zeta(m, a.plant, a.x, M.Now(a));
    var res := Residual(a.arm.a, M.Sigma(a));
    CoordinateStep(c.sigma.P, c.omega.P, c.app.P - c.mu.P, zeta.P, a.h, res.P);
    CoordinateStep(c.sigma.Q, c.omega.Q, c.app.Q - c.mu.Q, zeta.Q, a.h, res.Q);
    NowNonneg(a);
    P.ZetaWithinBound(m, a.plant, a.x, M.Now(a));
    LiftSum(a.h, Abs(zeta.P), Abs(zeta.Q), P.ZetaBound(a.plant));
  }

  lemma OmegaOf(m: P.Maths, a: M.Agent, vs: seq<int>)
    requires M.Runs(a) && a.arm.AdaptiveArm?
    ensures M.CommandOf(m, a, vs).omega == AdaptiveOmega(a.arm.a.vartheta, M.Sigma(a), a.h)
    ensures M.CommandOf(m, a, vs).trig == TrigOf(a.arm.a, M.Sigma(a))
    ensures M.CommandOf(m, a, vs).fired <==> TrigOf(a.arm.a, M.Sigma(a)) > a.arm.a.p.eps
  {
    hide M.Observed, AdaptiveOmega, P.Norm, ClipBoth, Residual;
  }

  lemma NowNonneg(a: M.Agent)
    requires a.h >= 0.0
    ensures M.Now(a) >= 0.0
  {
    MulNonneg(a.ticks as real, a.h);
  }

  lemma LiftSum(h: real, x: real, y: real, z: real)
    requires h > 0.0 && x + y <= z
    ensures Lift(h, x) + Lift(h, y) <= Lift(h, z)
  {
    MulMono(h, x + y, z);
  }

  // ------------------------------------------------------------------------- the engine

  /** The constants of a run: gamma's kick and zeta's lift are those of one period. */
  datatype Law = Law(h: real, zeta: real, gamma: real, eps: real, v0: real, T0: real)
  {
    predicate Sane() {
      h > 0.0 && zeta >= 0.0 && gamma > 0.0 && v0 >= 0.0 && eps >= Lift(h, zeta)
    }
  }

  /** The triggering error, the gain, and the number of updates so far. */
  datatype Engine = Engine(T: real, v: real, n: nat)

  predicate Moves(l: Law, e: Engine, f: Engine) {
    && f.T <= Max(e.T - Lift(l.h, e.v), 0.0) + Lift(l.h, l.zeta)
    && if e.T > l.eps then f.v == e.v + l.gamma && f.n == e.n + 1 else f.v == e.v && f.n == e.n
  }

  /** Enough updates for the gain to dominate the uncertainty. */
  predicate Dominates(l: Law, n1: nat) {
    GainAt(l, n1) >= l.zeta
  }

  function GainAt(l: Law, n: nat): real {
    l.v0 + n as real * l.gamma
  }

  /** The largest error the first n updates can leave. */
  function Cap(l: Law, n: nat): real {
    Max(l.T0, l.eps) + (n + 1) as real * Lift(l.h, l.zeta)
  }

  /** What one update adds to every later tick's pull. */
  function Kick(l: Law): real {
    l.h * l.gamma
  }

  function Triangle(n: nat): nat {
    if n == 0 then 0 else Triangle(n - 1) + n - 1
  }

  /** What the n updates after domination take off the error. */
  function Spent(l: Law, n: nat): real {
    Triangle(n) as real * Kick(l)
  }

  /** Enough further updates to spend all of the error. */
  predicate Spends(l: Law, n1: nat, n2: nat) {
    Spent(l, n2) >= Cap(l, n1)
  }

  predicate Inv(l: Law, n1: nat, n2: nat, e: Engine) {
    && e.v == GainAt(l, e.n)
    && e.n <= n1 + n2
    && (e.n < n1 ==> e.T <= Cap(l, e.n))
    && (e.n >= n1 ==> e.T <= l.eps || e.T + Spent(l, e.n - n1) <= Cap(l, n1))
  }

  lemma {:induction false} TriangleClosed(n: nat)
    ensures 2 * Triangle(n) == n * (n - 1)
  {
    if n > 0 {
      TriangleClosed(n - 1);
      assert n * (n - 1) == (n - 1) * (n - 2) + 2 * (n - 1);
    }
  }

  lemma CapStep(l: Law, n: nat)
    requires l.Sane()
    ensures Cap(l, n + 1) == Cap(l, n) + Lift(l.h, l.zeta)
    ensures Lift(l.h, l.zeta) >= 0.0
    ensures Cap(l, n) >= l.eps + Lift(l.h, l.zeta) && Cap(l, n) >= l.T0 && Cap(l, n) >= 0.0
  {
    MulNonneg(l.h, l.zeta);
    MulNonneg(n as real, Lift(l.h, l.zeta));
    assert (n + 1) as real == n as real + 1.0;
    OneMoreLift(n as real, Lift(l.h, l.zeta));
  }

  lemma OneMoreLift(n: real, x: real)
    ensures (n + 1.0) * x == n * x + x
    ensures (n + 1.0 + 1.0) * x == (n + 1.0) * x + x
  {}

  lemma SpentStep(l: Law, j: nat)
    ensures Spent(l, 0) == 0.0
    ensures Spent(l, j + 1) == Spent(l, j) + j as real * Kick(l)
  {
    assert Triangle(j + 1) as real == Triangle(j) as real + j as real;
    SumScaled(Triangle(j) as real, j as real, Kick(l));
  }

  lemma SumScaled(x: real, y: real, z: real)
    ensures (x + y) * z == x * z + y * z
  {}

  lemma {:induction false} SpentMono(l: Law, i: nat, j: nat)
    requires l.Sane() && i <= j
    ensures Spent(l, i) <= Spent(l, j)
  {
    hide Spent;
    if i < j {
      SpentMono(l, i, j - 1);
      SpentStep(l, j - 1);
      MulPos(l.h, l.gamma);
      MulNonneg((j - 1) as real, Kick(l));
    }
  }

  lemma GainStep(l: Law, n: nat)
    ensures GainAt(l, 0) == l.v0
    ensures GainAt(l, n + 1) == GainAt(l, n) + l.gamma
  {
    OneMoreLift(n as real, l.gamma);
  }

  lemma GainNonneg(l: Law, n: nat)
    requires l.Sane()
    ensures GainAt(l, n) >= l.v0
  {
    MulNonneg(n as real, l.gamma);
  }

  /** j updates past domination, a tick's pull exceeds the lift by j kicks. */
  lemma PullExcess(l: Law, n1: nat, j: nat)
    requires l.Sane() && Dominates(l, n1)
    ensures Lift(l.h, GainAt(l, n1 + j)) >= Lift(l.h, l.zeta) + j as real * Kick(l)
  {
    SumScaled(n1 as real, j as real, l.gamma);
    assert (n1 + j) as real == n1 as real + j as real;
    MulMono(l.h, l.zeta + j as real * l.gamma, GainAt(l, n1 + j));
    Expand(l.h, l.zeta, j as real, l.gamma);
  }

  lemma Expand(h: real, z: real, j: real, g: real)
    ensures h * (z + j * g) == h * z + j * (h * g)
  {}

  lemma InvStart(l: Law, n1: nat, n2: nat)
    requires l.Sane()
    ensures Inv(l, n1, n2, Engine(l.T0, l.v0, 0))
  {
    hide Cap, Spent, GainAt;
    GainStep(l, 0);
    CapStep(l, 0);
    SpentStep(l, 0);
  }

  lemma InvMoves(l: Law, n1: nat, n2: nat, e: Engine, f: Engine)
    requires l.Sane() && Dominates(l, n1) && Spends(l, n1, n2)
    requires Inv(l, n1, n2, e) && Moves(l, e, f)
    ensures Inv(l, n1, n2, f)
  {
    hide Cap, Spent, GainAt, Lift;
    CapStep(l, e.n);
    GainStep(l, e.n);
    GainNonneg(l, e.n);
    LiftNonneg(l.h, e.v);
    if e.n >= n1 {
      var j := e.n - n1;
      PullExcess(l, n1, j);
      SpentStep(l, j);
      KickNonneg(l, j);
      if e.T > l.eps && j >= n2 {
        SpentMono(l, n2, j);
        assert false;
      }
    } else if e.n + 1 == n1 {
      SpentStep(l, 0);
    }
  }

  lemma LiftNonneg(h: real, v: real)
    requires h > 0.0 && v >= 0.0
    ensures Lift(h, v) >= 0.0
  {
    MulNonneg(h, v);
  }

  lemma KickNonneg(l: Law, j: nat)
    requires l.Sane()
    ensures j as real * Kick(l) >= 0.0
  {
    MulPos(l.h, l.gamma);
    MulNonneg(j as real, Kick(l));
  }

  // --------------------------------------------------------------------- the agent's runs

  /** The theorem's hypotheses on an agent. */
  ghost predicate Calibrated(m: P.Maths, a: M.Agent) {
    && m.Sound() && M.Healthy(a) && a.arm.AdaptiveArm? && a.plant.Rated()
    && a.arm.a.vartheta >= 0.0 && a.arm.a.p.gamma > 0.0
    && a.arm.a.p.eps >= Lift(a.h, P.ZetaBound(a.plant))
  }

  /** The first n ticks form their commands within the saturation limit. */
  ghost predicate Unsaturated(m: P.Maths, a: M.Agent, f: M.Inputs, n: nat)
    requires M.Healthy(a)
  {
    forall k: nat | k < n :: !M.SaturatedAt(m, a, f, k)
  }

  /** What an agent's trigger tests before tick k: the error, or its residual. */
  function Trig(m: P.Maths, a: M.Agent, f: M.Inputs, k: nat): real
    requires M.Healthy(a) && a.arm.AdaptiveArm?
  {
    M.AtFixed(m, a, f, k);
    TrigOf(M.At(m, a, f, k).arm.a, M.Sigma(M.At(m, a, f, k)))
  }

  /** Updates made by the first k ticks, and the gain after them. */
  function Updates(m: P.Maths, a: M.Agent, f: M.Inputs, k: nat): int
    requires M.Healthy(a) && a.arm.AdaptiveArm?
  {
    M.AtFixed(m, a, f, k);
    M.At(m, a, f, k).arm.a.updates - a.arm.a.updates
  }

  function Vartheta(m: P.Maths, a: M.Agent, f: M.Inputs, k: nat): real
    requires M.Healthy(a) && a.arm.AdaptiveArm?
  {
    M.AtFixed(m, a, f, k);
    M.At(m, a, f, k).arm.a.vartheta
  }

  function LawOf(m: P.Maths, a: M.Agent, f: M.Inputs): Law
    requires M.Healthy(a) && a.arm.AdaptiveArm?
  {
    Law(a.h, P.ZetaBound(a.plant), a.arm.a.p.gamma, a.arm.a.p.eps, a.arm.a.vartheta, Trig(m, a, f, 0))
  }

  function EngineAt(m: P.Maths, a: M.Agent, f: M.Inputs, k: nat): Engine
    requires M.Healthy(a) && a.arm.AdaptiveArm?
  {
    Engine(Trig(m, a, f, k), Vartheta(m, a, f, k), if Updates(m, a, f, k) >= 0 then Updates(m, a, f, k) else 0)
  }

  /** One unsaturated tick of either trigger form moves the engine. */
  lemma TickMoves(m: P.Maths, a: M.Agent, vs: seq<int>)
    requires Calibrated(m, a) && M.Runs(a) && !M.CommandOf(m, a, vs).saturated
    ensures var n, d := M.Tick(m, a, vs), a.arm.a;
            && n.arm == M.AdaptiveArm(Adapt(d, TrigOf(d, M.Sigma(a)) > d.p.eps))
            && TrigOf(n.arm.a, M.Sigma(n))
               <= Max(TrigOf(d, M.Sigma(a)) - Lift(a.h, d.vartheta), 0.0) + Lift(a.h, P.ZetaBound(a.plant))
  {
    hide M.CommandOf, M.Sigma, P.ZetaBound, P.Norm, Lift, Pull, Residual, M.Observed, P.Advance, M.Watch, P.Zeta;
    var n, d, s := M.Tick(m, a, vs), a.arm.a, M.Sigma(a);
    ErrorShrinks(m, a, vs);
    OmegaOf(m, a, vs);
    ResidualShrinks(d, s);
    PullIsLift(d);
    if d.p.trigger == ResidualForm {
      ResidualShrinks(n.arm.a, M.Sigma(n));
      PullIsLift(n.arm.a);
      LiftMono(a.h, d.vartheta, n.arm.a.vartheta);
      LiftNonneg(a.h, d.vartheta);
      NormNonneg(Residual(d, s));
      ZetaBoundNonneg(m, a.plant);
      LiftNonneg(a.h, P.ZetaBound(a.plant));
    }
  }

  lemma NormNonneg(v: Pair)
    ensures P.Norm(v) >= 0.0
  {}

  lemma ZetaBoundNonneg(m: P.Maths, p: P.Params)
    requires m.Sound() && p.Accepted() && p.Rated()
    ensures P.ZetaBound(p) >= 0.0
  {
    hide P.Zeta, P.ZetaBound, P.Norm;
    P.ZetaWithinBound(m, p, Pair(0.0, 0.0), 0.0);
    NormNonneg(P.Zeta(m, p, Pair(0.0, 0.0), 0.0));
  }

  lemma PullIsLift(a: Adaptive)
    ensures Pull(a) == Lift(a.h, a.vartheta)
  {}

  lemma LiftMono(h: real, x: real, y: real)
    requires h >= 0.0 && x <= y
    ensures Lift(h, x) <= Lift(h, y)
  {
    MulMono(h, x, y);
  }

  lemma LawSane(m: P.Maths, a: M.Agent, f: M.Inputs)
    requires Calibrated(m, a)
    ensures LawOf(m, a, f).Sane()
  {
    ZetaBoundNonneg(m, a.plant);
  }

  /** The gain only grows, so the hypotheses hold at every tick. */
  lemma {:induction false} StaysCalibrated(m: P.Maths, a: M.Agent, f: M.Inputs, k: nat)
    requires Calibrated(m, a)
    ensures Calibrated(m, M.At(m, a, f, k))
    ensures Updates(m, a, f, k) >= 0
  {
    hide M.At, M.Tick, M.Healthy;
    if k == 0 {
      M.AtNext(m, a, f, 0);
    } else {
      StaysCalibrated(m, a, f, k - 1);
      M.AtNext(m, a, f, k - 1);
      M.AtFixed(m, a, f, k);
      M.AtFixed(m, a, f, k - 1);
      ArmAfter(m, M.At(m, a, f, k - 1), f(k - 1));
    }
  }

  lemma ArmAfter(m: P.Maths, a: M.Agent, vs: seq<int>)
    requires M.Runs(a) && a.arm.AdaptiveArm?
    ensures M.Tick(m, a, vs).arm == M.AdaptiveArm(Adapt(a.arm.a, TrigOf(a.arm.a, M.Sigma(a)) > a.arm.a.p.eps))
  {
    hide M.CommandOf, P.Advance, M.Watch, M.Observed, TrigOf;
    OmegaOf(m, a, vs);
  }

  lemma EngineMoves(m: P.Maths, a: M.Agent, f: M.Inputs, k: nat)
    requires Calibrated(m, a) && !M.SaturatedAt(m, a, f, k)
    ensures Moves(LawOf(m, a, f), EngineAt(m, a, f, k), EngineAt(m, a, f, k + 1))
  {
    hide M.At, M.Tick, M.Healthy, M.CommandOf, TrigOf, P.ZetaBound, Lift;
    StaysCalibrated(m, a, f, k);
    StaysCalibrated(m, a, f, k + 1);
    M.AtNext(m, a, f, k);
    M.AtFixed(m, a, f, k);
    M.AtFixed(m, a, f, k + 1);
    TickMoves(m, M.At(m, a, f, k), f(k));
  }

  lemma {:induction false} EngineInv(m: P.Maths, a: M.Agent, f: M.Inputs, k: nat, n1: nat, n2: nat)
    requires Calibrated(m, a) && Unsaturated(m, a, f, k)
    requires Dominates(LawOf(m, a, f), n1) && Spends(LawOf(m, a, f), n1, n2)
    ensures Inv(LawOf(m, a, f), n1, n2, EngineAt(m, a, f, k))
  {
    hide M.At, M.Tick, M.Healthy, M.SaturatedAt, Trig, Inv, Moves, Dominates, Spends;
    LawSane(m, a, f);
    if k == 0 {
      M.AtNext(m, a, f, 0);
      InvStart(LawOf(m, a, f), n1, n2);
    } else {
      EngineInv(m, a, f, k - 1, n1, n2);
      EngineMoves(m, a, f, k - 1);
      InvMoves(LawOf(m, a, f), n1, n2, EngineAt(m, a, f, k - 1), EngineAt(m, a, f, k));
    }
  }

  /** The step of the theory, in the agent's own terms: S+ <= max(S - h vartheta, 0) + h zeta_bound. */
  lemma ErrorStep(m: P.Maths, a: M.Agent, vs: seq<int>)
    requires Calibrated(m, a) && M.Runs(a) && !M.CommandOf(m, a, vs).saturated
    ensures P.Norm(M.Sigma(M.Tick(m, a, vs)))
         <= Max(P.Norm(M.Sigma(a)) - a.h * a.arm.a.vartheta, 0.0) + a.h * P.ZetaBound(a.plant)
  {
    hide M.Tick, M.CommandOf, P.Norm, P.ZetaBound, Residual;
    ErrorShrinks(m, a, vs);
    ResidualShrinks(a.arm.a, M.Sigma(a));
  }

  /** Over a run of any length the gain is raised at most n1 + n2 times, is exactly
      its start plus gamma per update, and the error never exceeds its cap. */
  lemma UpdatesBounded(m: P.Maths, a: M.Agent, f: M.Inputs, k: nat, n1: nat, n2: nat)
    requires Calibrated(m, a) && Unsaturated(m, a, f, k)
    requires Dominates(LawOf(m, a, f), n1) && Spends(LawOf(m, a, f), n1, n2)
    ensures 0 <= Updates(m, a, f, k) <= n1 + n2
    ensures Vartheta(m, a, f, k) == a.arm.a.vartheta + Updates(m, a, f, k) as real * a.arm.a.p.gamma
    ensures Vartheta(m, a, f, k) <= a.arm.a.vartheta + (n1 + n2) as real * a.arm.a.p.gamma
    ensures Trig(m, a, f, k) <= Cap(LawOf(m, a, f), n1)
  {
    hide M.At, M.Healthy, Trig, Cap, Spent, M.SaturatedAt;
    LawSane(m, a, f);
    StaysCalibrated(m, a, f, k);
    EngineInv(m, a, f, k, n1, n2);
    var l, n := LawOf(m, a, f), Updates(m, a, f, k);
    MulMono(a.arm.a.p.gamma, n as real, (n1 + n2) as real);
    CapStep(l, n1);
    if n < n1 {
      CapMono(l, n, n1);
    } else {
      SpentMono(l, 0, n - n1);
      SpentStep(l, 0);
    }
  }

  lemma {:induction false} CapMono(l: Law, i: nat, j: nat)
    requires l.Sane() && i <= j
    ensures Cap(l, i) <= Cap(l, j)
  {
    hide Cap;
    if i < j {
      CapMono(l, i, j - 1);
      CapStep(l, j - 1);
    }
  }

  // -------------------------------------------------------------------- explicit constants

  /** The least integer at or above x, at least 0. */
  function CeilNat(x: real): nat {
    if x <= 0.0 then 0 else -((-x).Floor)
  }

  lemma CeilNatAbove(x: real)
    ensures CeilNat(x) as real >= x
  {}

  function DominatingUpdates(l: Law): nat
    requires l.gamma != 0.0
  {
    CeilNat((l.zeta - l.v0) / l.gamma)
  }

  function SpendingUpdates(l: Law): nat
    requires l.gamma != 0.0 && Kick(l) != 0.0
  {
    CeilNat(Cap(l, DominatingUpdates(l)) / Kick(l)) + 2
  }

  lemma ExplicitDominates(l: Law)
    requires l.Sane()
    ensures Dominates(l, DominatingUpdates(l))
  {
    var q := (l.zeta - l.v0) / l.gamma;
    CeilNatAbove(q);
    DivMul(l.zeta - l.v0, l.gamma);
    MulMono(l.gamma, q, CeilNat(q) as real);
  }

  lemma ExplicitSpends(l: Law)
    requires l.Sane()
    ensures Kick(l) != 0.0
    ensures Spends(l, DominatingUpdates(l), SpendingUpdates(l))
  {
    hide Cap, Triangle, CeilNat, DominatingUpdates, Kick;
    KickPos(l);
    CeilNatAbove(Cap(l, DominatingUpdates(l)) / Kick(l));
    TriangleLarge(SpendingUpdates(l));
    Covers(Cap(l, DominatingUpdates(l)), Kick(l), Triangle(SpendingUpdates(l)) as real);
  }

  lemma KickPos(l: Law)
    requires l.Sane()
    ensures Kick(l) > 0.0
  {
    MulPos(l.h, l.gamma);
  }

  lemma Covers(cap: real, kick: real, n: real)
    requires kick > 0.0 && cap / kick <= n
    ensures n * kick >= cap
  {
    DivMul(cap, kick);
    MulMono(kick, cap / kick, n);
  }

  lemma TriangleLarge(n: nat)
    requires n >= 2
    ensures Triangle(n) >= n - 1
  {
    TriangleClosed(n);
    assert n * (n - 1) >= 2 * (n - 1);
  }

  /** With the constants written out: the whole run's bound depends only on the
      start, the threshold, the period, the uncertainty's bound and gamma. */
  lemma ExplicitBound(m: P.Maths, a: M.Agent, f: M.Inputs, k: nat)
    requires Calibrated(m, a) && Unsaturated(m, a, f, k)
    ensures var l := LawOf(m, a, f);
            l.gamma != 0.0 && Kick(l) != 0.0
            && Updates(m, a, f, k) <= DominatingUpdates(l) + SpendingUpdates(l)
  {
    hide M.At, M.Healthy, Trig, Cap, Spent, M.SaturatedAt, DominatingUpdates, SpendingUpdates, Dominates, Spends, Updates;
    var l := LawOf(m, a, f);
    LawSane(m, a, f);
    ExplicitDominates(l);
    ExplicitSpends(l);
    UpdatesBounded(m, a, f, k, DominatingUpdates(l), SpendingUpdates(l));
  }

  // ---------------------------------------------------------------------------- settling

  ghost predicate Settled(m: P.Maths, a: M.Agent, f: M.Inputs, from: nat)
    requires M.Healthy(a) && a.arm.AdaptiveArm?
  {
    forall k: nat | k >= from :: Trig(m, a, f, k) <= a.arm.a.p.eps && Vartheta(m, a, f, k) == Vartheta(m, a, f, from)
  }

  lemma QuietKeeps(m: P.Maths, a: M.Agent, f: M.Inputs, k: nat)
    requires Calibrated(m, a)
    ensures Updates(m, a, f, k + 1) == Updates(m, a, f, k) + (if Trig(m, a, f, k) > a.arm.a.p.eps then 1 else 0)
    ensures Trig(m, a, f, k) <= a.arm.a.p.eps ==> Vartheta(m, a, f, k + 1) == Vartheta(m, a, f, k)
  {
    hide M.At, M.Tick, M.Healthy, TrigOf;
    M.AtNext(m, a, f, k);
    M.AtFixed(m, a, f, k);
    M.AtFixed(m, a, f, k + 1);
    ArmAfter(m, M.At(m, a, f, k), f(k));
  }

  lemma {:induction false} UpdatesMono(m: P.Maths, a: M.Agent, f: M.Inputs, i: nat, j: nat)
    requires Calibrated(m, a) && i <= j
    ensures Updates(m, a, f, i) <= Updates(m, a, f, j)
  {
    hide Updates, Trig, Vartheta, M.Healthy;
    if i < j {
      UpdatesMono(m, a, f, i, j - 1);
      QuietKeeps(m, a, f, j - 1);
    }
  }

  lemma {:induction false} QuietFrom(m: P.Maths, a: M.Agent, f: M.Inputs, from: nat, k: nat)
    requires Calibrated(m, a) && from <= k
    requires forall j: nat | from <= j < k :: Trig(m, a, f, j) <= a.arm.a.p.eps
    ensures Vartheta(m, a, f, k) == Vartheta(m, a, f, from)
  {
    hide Updates, Trig, Vartheta, M.Healthy;
    if from < k {
      QuietFrom(m, a, f, from, k - 1);
      QuietKeeps(m, a, f, k - 1);
    }
  }

  /** After at most `budget` more updates the trigger is silent for good. */
  lemma {:induction false} SettlesWithin(m: P.Maths, a: M.Agent, f: M.Inputs, from: nat, bound: nat, budget: nat)
    requires Calibrated(m, a)
    requires forall k: nat :: Updates(m, a, f, k) <= bound
    requires Updates(m, a, f, from) + budget >= bound
    ensures exists k: nat :: Settled(m, a, f, k)
    decreases budget
  {
    hide Updates, Trig, Vartheta, M.Healthy;
    if k: nat :| k >= from && Trig(m, a, f, k) > a.arm.a.p.eps {
      UpdatesMono(m, a, f, from, k);
      QuietKeeps(m, a, f, k);
      assert Updates(m, a, f, k + 1) <= bound;
      SettlesWithin(m, a, f, k + 1, bound, budget - 1);
    } else {
      forall k: nat | k >= from ensures Vartheta(m, a, f, k) == Vartheta(m, a, f, from) {
        QuietFrom(m, a, f, from, k);
      }
      assert Settled(m, a, f, from);
    }
  }

  /** The triggering error ends up within the threshold for good, and the gain stops. */
  lemma Settles(m: P.Maths, a: M.Agent, f: M.Inputs)
    requires Calibrated(m, a) && forall k: nat :: !M.SaturatedAt(m, a, f, k)
    ensures exists k: nat :: Settled(m, a, f, k)
  {
    hide M.Healthy, Updates, Trig, M.SaturatedAt, DominatingUpdates, SpendingUpdates;
    var l := LawOf(m, a, f);
    LawSane(m, a, f);
    ExplicitDominates(l);
    ExplicitSpends(l);
    var bound := DominatingUpdates(l) + SpendingUpdates(l);
    forall k: nat ensures Updates(m, a, f, k) <= bound {
      ExplicitBound(m, a, f, k);
    }
    StaysCalibrated(m, a, f, 0);
    SettlesWithin(m, a, f, 0, bound, bound);
  }
}
