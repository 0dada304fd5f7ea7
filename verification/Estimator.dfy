/** What the parameter estimator does to the tracking error and to its own: the energy
    of both over one tick of an agent, and when the estimate moves at all.
  */
module Estimator {
  import opened RealMath
  import opened Virtual
  import opened Interfaces
  import P = Plant
  import M = Microgrid
  import B = Deadbeat

  function Dot(u: Pair, v: Pair): real {
    u.P * v.P + u.Q * v.Q
  }

  /** The symmetric matrix A [[p, q], [q, -p]] applied to s. */
  function R(A: real, v: Pair, s: Pair): Pair {
    Pair(A * (v.P * s.P + v.Q * s.Q), A * (v.Q * s.P - v.P * s.Q))
  }

  /** The numbers a tick of the agent works with. */
  datatype Numbers = Numbers(A: real, y: Pair, v: Pair, lam: real, Gamma: real)

  /** What they are: the profile over kappa, the powers kappa x through the rating limiter,
      the prescribed-time gain, and Phi kappa^2. */
  predicate Known(m: P.Maths, a: M.Agent, n: Numbers)
    requires a.arm.LCArm?
  {
    var p := a.arm.l.p;
    && n.A * p.kappa == P.AZeta(m, p.profile, M.Now(a))
    && n.y.P * p.pMax == p.kappa * a.x.P && n.v.P == p.pMax * m.tanh(n.y.P)
    && n.y.Q * p.qMax == p.kappa * a.x.Q && n.v.Q == p.qMax * m.tanh(n.y.Q)
    && n.lam * Max(p.tC - M.Now(a), if p.deltaC.Some? then p.deltaC.value else 2.0 * a.h) == p.betaC
    && n.Gamma == p.Phi * p.kappa * p.kappa
  }

  lemma IsQuotient(q: real, k: real, z: real)
    requires k != 0.0 && q * k == z
    ensures q == z / k
  {
    DivMul(z, k);
    Cancel(k, q, z / k);
  }

  lemma PowerIs(m: P.Maths, y: real, v: real, x: real, lim: real)
    requires lim != 0.0 && y * lim == x && v == lim * m.tanh(y)
    ensures v == P.Limit(m, x, lim)
  {
    IsQuotient(y, lim, x);
  }

  lemma PowersAre(m: P.Maths, p: LCParams, x: Pair)
    requires p.pMax != 0.0 && p.qMax != 0.0
    ensures LCPowers(m, p, x) == Pair(P.Limit(m, P.Scale(p.kappa, x).P, p.pMax), P.Limit(m, P.Scale(p.kappa, x).Q, p.qMax))
  {
    hide P.Limit, P.Scale;
  }

  lemma ScaleAt(k: real, x: Pair)
    ensures P.Scale(k, x).P == k * x.P && P.Scale(k, x).Q == k * x.Q
  {}

  lemma KnownIs(m: P.Maths, a: M.Agent, n: Numbers)
    requires a.arm.LCArm? && M.Runs(a) && B.Active(a) && Known(m, a, n)
    ensures n.A == Amplitude(m, a.arm.l.p, M.Now(a))
    ensures n.v == LCPowers(m, a.arm.l.p, a.x)
    ensures n.lam == Lam(a.arm.l.p, a.h, M.Now(a))
    ensures n.Gamma == a.arm.l.p.GammaS()
  {
    hide P.AZeta, Max, Den, P.Limit, P.Scale, LCPowers;
    var p, t := a.arm.l.p, M.Now(a);
    IsQuotient(n.A, p.kappa, P.AZeta(m, p.profile, t));
    var kx := P.Scale(p.kappa, a.x);
    ScaleAt(p.kappa, a.x);
    PowerIs(m, n.y.P, n.v.P, kx.P, p.pMax);
    PowerIs(m, n.y.Q, n.v.Q, kx.Q, p.qMax);
    PowersAre(m, p, a.x);
    IsQuotient(n.lam, Max(p.tC - t, p.Width(a.h)), p.betaC);
  }

  // -------------------------------------------------------------------------- the estimate

  /** The gates, from the parameters. */
  predicate Moves(a: M.Agent)
    requires a.arm.LCArm?
  {
    var p, t := a.arm.l.p, M.Now(a);
    && !(p.terminal && t >= p.tC)
    && (p.adaptAfter.Some? ==> t >= p.adaptAfter.value)
    && (p.adaptBand.Some? ==> Abs(a.x.P - a.layer.z.P) + Abs(a.x.Q - a.layer.z.Q) <= p.adaptBand.value)
  }

  lemma ArmOf(m: P.Maths, a: M.Agent, vs: seq<int>)
    requires a.arm.LCArm? && M.Runs(a)
    ensures M.Tick(m, a, vs).arm == LCArmAfter(m, a)
    ensures M.CommandOf(m, a, vs).fired <==> Moves(a)
  {
    hide M.Observed, P.Advance, LCOmega, Amplitude, LCPowers, LearnRate, ClipBoth, M.Watch;
  }

  function LCArmAfter(m: P.Maths, a: M.Agent): M.Arm
    requires a.arm.LCArm? && M.Runs(a)
  {
    M.LCArm(Learn(m, a.arm.l, M.Now(a), a.x, M.Sigma(a), Moves(a)))
  }

  /** An open gate moves the estimate by h Gamma R sigma; a closed one leaves all of it. */
  lemma EstimateStep(m: P.Maths, a: M.Agent, vs: seq<int>, n: Numbers)
    requires a.arm.LCArm? && M.Runs(a) && B.Active(a) && Known(m, a, n)
    ensures M.Tick(m, a, vs).arm
         == if Moves(a) then M.LCArm(a.arm.l.(S := Plus(a.arm.l.S, P.Scale(Step(a.h, n), R(n.A, n.v, M.Sigma(a)))),
                                              updates := a.arm.l.updates + 1))
            else a.arm
  {
    hide Known, M.Tick, M.CommandOf, M.Sigma, Moves, Amplitude, LCPowers, Lam, P.Scale, P.Regress, R, LCParams.GammaS, LearnRate, Step, Den;
    ArmOf(m, a, vs);
    KnownIs(m, a, n);
    RateIs(m, a, n);
    GainSplit(LearnRate(m, a.arm.l.p, a.h, M.Now(a)), Step(a.h, n), n.A, n.v, M.Sigma(a));
  }

  function Step(h: real, n: Numbers): real {
    h * n.Gamma
  }

  lemma RateIs(m: P.Maths, a: M.Agent, n: Numbers)
    requires a.arm.LCArm? && M.Runs(a) && n.A == Amplitude(m, a.arm.l.p, M.Now(a)) && n.Gamma == a.arm.l.p.GammaS()
    ensures LearnRate(m, a.arm.l.p, a.h, M.Now(a)) == Step(a.h, n) * n.A
  {
    hide Amplitude, LCParams.GammaS, Den;
  }

  lemma Rescaled(rate: real, k: real, A: real, x: real)
    requires rate == k * A
    ensures rate * x == k * (A * x)
  {}

  lemma Associated(x: real, y: real, z: real)
    ensures x * y * z == x * (y * z)
  {}

  /** The estimate stays as it was exactly when a gate is shut or the step vanishes. */
  lemma EstimateHeldIff(m: P.Maths, a: M.Agent, vs: seq<int>, n: Numbers)
    requires a.arm.LCArm? && M.Runs(a) && B.Active(a) && Known(m, a, n)
    ensures var b := M.Tick(m, a, vs);
            b.arm.LCArm?
            && (b.arm.l.S == a.arm.l.S
                <==> !Moves(a) || a.h * n.Gamma == 0.0 || n.A == 0.0
                     || n.v == Pair(0.0, 0.0) || Sub(a.x, a.layer.z) == Pair(0.0, 0.0))
  {
    hide Known, M.Tick, M.CommandOf, Moves, P.Scale, R, Step, Plus;
    EstimateStep(m, a, vs, n);
    StepIs(a.h, n);
    UnmovedIff(a.arm.l.S, Step(a.h, n), R(n.A, n.v, M.Sigma(a)));
    VanishesIff(n.A, n.v, M.Sigma(a));
  }

  lemma UnmovedIff(S: Pair, k: real, r: Pair)
    ensures Plus(S, P.Scale(k, r)) == S <==> k == 0.0 || r == Pair(0.0, 0.0)
  {
    ZeroProduct(k, r.P);
    ZeroProduct(k, r.Q);
  }

  lemma ZeroProduct(k: real, x: real)
    ensures k * x == 0.0 <==> k == 0.0 || x == 0.0
  {
    if k != 0.0 && k * x == 0.0 {
      assert k * 0.0 == 0.0;
      Cancel(k, x, 0.0);
    }
  }

  lemma DotPositive(v: Pair)
    ensures Dot(v, v) >= 0.0
    ensures Dot(v, v) == 0.0 <==> v == Pair(0.0, 0.0)
  {
    hide Dot, Square;
    SquaresPositive(v.P, v.Q);
    SquareIsDot(v);
  }

  lemma SquareIsDot(v: Pair)
    ensures Square(v) == Dot(v, v) && v == Pair(v.P, v.Q)
  {}

  /** R has full rank unless it is zero. */
  lemma VanishesIff(A: real, v: Pair, s: Pair)
    ensures R(A, v, s) == Pair(0.0, 0.0) <==> A == 0.0 || v == Pair(0.0, 0.0) || s == Pair(0.0, 0.0)
  {
    hide R, Dot;
    RSquared(A, v, s);
    DotPositive(R(A, v, s));
    DotPositive(v);
    DotPositive(s);
    ZeroProduct(A * A * Dot(v, v), Dot(s, s));
    ZeroProduct(A * A, Dot(v, v));
    ZeroProduct(A, A);
  }

  // ---------------------------------------------------------------------------- the energy

  lemma SquareOfSum(z: Pair, q: real, s: Pair, h: real, r: Pair)
    requires z == Plus(P.Scale(q, s), P.Scale(h, r))
    ensures Dot(z, z) == q * q * Dot(s, s) + 2.0 * (q * h * Dot(s, r)) + h * h * Dot(r, r)
  {
    SquareCoordinate(z.P, q, s.P, h, r.P);
    SquareCoordinate(z.Q, q, s.Q, h, r.Q);
    Gathered(q * q, s.P * s.P, s.Q * s.Q);
    Gathered(q * h, s.P * r.P, s.Q * r.Q);
    Gathered(h * h, r.P * r.P, r.Q * r.Q);
  }

  lemma SquareCoordinate(z: real, q: real, s: real, h: real, r: real)
    requires z == q * s + h * r
    ensures z * z == q * q * (s * s) + 2.0 * (q * h * (s * r)) + h * h * (r * r)
  {}

  lemma Gathered(k: real, x: real, y: real)
    ensures k * x + k * y == k * (x + y)
  {}

  /** R is symmetric. */
  lemma RSymmetric(A: real, v: Pair, s: Pair, e: Pair)
    ensures Dot(s, R(A, v, e)) == Dot(e, R(A, v, s))
  {
    hide R, Dot;
    var rs, re := R(A, v, s), R(A, v, e);
    RAt(A, v, s);
    RAt(A, v, e);
    DotAt(s, re);
    DotAt(e, rs);
    SymmetricForm(A, v.P, v.Q, s.P, s.Q, e.P, e.Q, rs.P, rs.Q, re.P, re.Q);
  }

  /** And its square is A^2 (p^2 + q^2) times the identity. */
  lemma RSquared(A: real, v: Pair, e: Pair)
    ensures Dot(R(A, v, e), R(A, v, e)) == A * A * Dot(v, v) * Dot(e, e)
  {
    hide R, Dot;
    var re := R(A, v, e);
    RAt(A, v, e);
    DotAt(re, re);
    DotAt(v, v);
    DotAt(e, e);
    SquaredForm(A, v.P, v.Q, e.P, e.Q, re.P, re.Q, Dot(v, v), Dot(e, e));
  }

  lemma DotAt(u: Pair, v: Pair)
    ensures Dot(u, v) == u.P * v.P + u.Q * v.Q
  {}

  lemma RAt(A: real, v: Pair, s: Pair)
    ensures R(A, v, s).P == A * (v.P * s.P + v.Q * s.Q) && R(A, v, s).Q == A * (v.Q * s.P - v.P * s.Q)
  {}

  lemma SymmetricForm(A: real, p: real, q: real, s: real, t: real, e: real, f: real, x: real, y: real, u: real, w: real)
    requires x == A * (p * s + q * t) && y == A * (q * s - p * t)
    requires u == A * (p * e + q * f) && w == A * (q * e - p * f)
    ensures s * u + t * w == e * x + f * y
  {
    assert s * u == A * (p * (s * e) + q * (s * f)) && t * w == A * (q * (t * e) - p * (t * f));
    assert e * x == A * (p * (s * e) + q * (t * e)) && f * y == A * (q * (s * f) - p * (t * f));
  }

  lemma SquaredForm(A: real, p: real, q: real, e: real, f: real, u: real, w: real, v2: real, e2: real)
    requires u == A * (p * e + q * f) && w == A * (q * e - p * f)
    requires v2 == p * p + q * q && e2 == e * e + f * f
    ensures u * u + w * w == A * A * v2 * e2
  {
    var x, y := p * e + q * f, q * e - p * f;
    assert u * u == A * A * (x * x) && w * w == A * A * (y * y);
    Gathered(A * A, x * x, y * y);
    assert x * x + y * y == v2 * e2;
    assert A * A * v2 * e2 == A * A * (v2 * e2);
  }

  /** The energy of tracking error and parameter error together, over a tick of the two
      equations; all in the products of the old ones. */
  lemma EnergyAlgebra(s: Pair, e: Pair, s': Pair, e': Pair, h: real, lam: real, G: real,
                      q: real, k: real, re: Pair, rs: Pair)
    requires G != 0.0 && q == 1.0 - h * lam && k == h * G && Dot(s, re) == Dot(e, rs)
    requires s' == Plus(P.Scale(q, s), P.Scale(h, re))
    requires e' == Plus(P.Scale(1.0, e), P.Scale(-k, rs))
    ensures Dot(s', s') + Dot(e', e') / G
         == (1.0 - h * lam) * (1.0 - h * lam) * Dot(s, s) + Dot(e, e) / G
            - 2.0 * h * h * lam * Dot(s, re) + h * h * (Dot(re, re) + G * Dot(rs, rs))
  {
    hide Dot, P.Scale, Plus;
    SquareOfSum(s', q, s, h, re);
    SquareOfSum(e', 1.0, e, -k, rs);
    EnergySum(Dot(s', s'), Dot(e', e'), Dot(s, s), Dot(e, e), h, lam, G, q, k, Dot(s, re), Dot(re, re), Dot(rs, rs));
  }

  lemma EnergySum(x: real, y: real, s2: real, e2: real, h: real, lam: real, G: real, q: real, k: real,
                  d: real, re2: real, rs2: real)
    requires G != 0.0 && q == 1.0 - h * lam && k == h * G
    requires x == q * q * s2 + 2.0 * (q * h * d) + h * h * re2
    requires y == 1.0 * 1.0 * e2 + 2.0 * (1.0 * -k * d) + -k * -k * rs2
    ensures x + y / G == q * q * s2 + e2 / G - 2.0 * h * h * lam * d + h * h * (re2 + G * rs2)
  {
    Quotient(y, e2, h, G, k, d, rs2);
    Cross(h, lam, q, d);
    Gathered(h * h, re2, G * rs2);
  }

  lemma Quotient(y: real, e2: real, h: real, G: real, k: real, d: real, rs2: real)
    requires G != 0.0 && k == h * G
    requires y == 1.0 * 1.0 * e2 + 2.0 * (1.0 * -k * d) + -k * -k * rs2
    ensures y / G == e2 / G - 2.0 * (h * d) + h * h * (G * rs2)
  {
    DivMul(e2, G);
    var u := e2 / G;
    var z := u - 2.0 * (h * d) + h * h * (G * rs2);
    assert k * d == (h * d) * G && k * k * rs2 == h * h * (G * rs2) * G;
    assert z * G == u * G - 2.0 * ((h * d) * G) + h * h * (G * rs2) * G;
    IsQuotient(z, G, y);
  }

  lemma Cross(h: real, lam: real, q: real, d: real)
    requires q == 1.0 - h * lam
    ensures 2.0 * (q * h * d) - 2.0 * (h * d) == -(2.0 * h * h * lam * d)
  {
    assert q * h == h - h * h * lam;
    assert q * h * d == h * d - h * h * lam * d;
  }

  /** The energy: the tracking error's square, and the parameter error's over Gamma. */
  function Energy(a: M.Agent, G: real): real
    requires a.arm.LCArm? && G != 0.0
  {
    var s, e := Sub(a.x, a.layer.z), Sub(a.plant.S, a.arm.l.S);
    Dot(s, s) + Dot(e, e) / G
  }

  /** The energy law of the agent: unsaturated, on the active branch, with the gate open. */
  lemma EnergyLaw(m: P.Maths, a: M.Agent, vs: seq<int>, n: Numbers)
    requires M.Runs(a) && B.Matched(a) && B.Active(a) && !M.CommandOf(m, a, vs).saturated && Moves(a)
    requires Known(m, a, n) && n.Gamma > 0.0
    ensures var h, lam, b := a.h, n.lam, M.Tick(m, a, vs);
            var s, e := Sub(a.x, a.layer.z), Sub(a.plant.S, a.arm.l.S);
            b.arm.LCArm?
            && Energy(b, n.Gamma)
               == (1.0 - h * lam) * (1.0 - h * lam) * Dot(s, s) + Dot(e, e) / n.Gamma
                  - 2.0 * h * h * lam * Dot(s, R(n.A, n.v, e))
                  + h * h * (Dot(R(n.A, n.v, e), R(n.A, n.v, e)) + n.Gamma * Dot(R(n.A, n.v, s), R(n.A, n.v, s)))
  {
    hide Known, M.Tick, M.CommandOf, Moves, P.Scale, R, Dot, B.Matched, B.Active, M.Runs, Step, Plus;
    ActiveArm(a);
    var s, e, b := M.Sigma(a), Sub(a.plant.S, a.arm.l.S), M.Tick(m, a, vs);
    PlantKept(m, a, vs);
    EstimateStep(m, a, vs, n);
    ErrorTick(m, a, vs, n);
    ParameterTick(a.plant.S, a.arm.l.S, b.arm.l.S, Step(a.h, n), R(n.A, n.v, s));
    RSymmetric(n.A, n.v, s, e);
    EnergyAlgebra(s, e, M.Sigma(b), Sub(b.plant.S, b.arm.l.S), a.h, n.lam, n.Gamma, Keep(a.h, n), Step(a.h, n),
                  R(n.A, n.v, e), R(n.A, n.v, s)) by {
      StepIs(a.h, n);
    }
  }

  /** What an active tick keeps of the error. */
  function Keep(h: real, n: Numbers): real {
    1.0 - h * n.lam
  }

  lemma StepIs(h: real, n: Numbers)
    ensures Step(h, n) == h * n.Gamma && Keep(h, n) == 1.0 - h * n.lam
  {}

  lemma ActiveArm(a: M.Agent)
    requires B.Active(a)
    ensures a.arm.LCArm?
  {}

  lemma PlantKept(m: P.Maths, a: M.Agent, vs: seq<int>)
    requires M.Runs(a)
    ensures M.Tick(m, a, vs).plant == a.plant
  {
    hide M.Observed, M.CommandOf, P.Advance, M.ArmNext, M.Watch;
  }

  lemma ErrorTick(m: P.Maths, a: M.Agent, vs: seq<int>, n: Numbers)
    requires M.Runs(a) && B.Matched(a) && B.Active(a) && !M.CommandOf(m, a, vs).saturated && Known(m, a, n)
    ensures M.Sigma(M.Tick(m, a, vs))
         == Plus(P.Scale(Keep(a.h, n), M.Sigma(a)), P.Scale(a.h, R(n.A, n.v, Sub(a.plant.S, a.arm.l.S))))
  {
    hide Known, M.Tick, M.CommandOf, M.Sigma, Amplitude, LCPowers, Lam, P.Scale, P.Regress, R, Den, B.Shrink, B.Drive, Keep, M.Runs, B.Active;
    ActiveArm(a);
    B.ActiveStep(m, a, vs);
    KnownIs(m, a, n);
    ShrinkIs(a, n);
    DriveIs(m, a, n);
  }

  lemma ShrinkIs(a: M.Agent, n: Numbers)
    requires a.arm.LCArm? && M.Runs(a) && B.Active(a) && n.lam == Lam(a.arm.l.p, a.h, M.Now(a))
    ensures B.Shrink(a) == Keep(a.h, n)
  {
    hide Lam, Den;
  }

  lemma DriveIs(m: P.Maths, a: M.Agent, n: Numbers)
    requires M.Runs(a) && B.Matched(a) && B.Active(a)
    requires n.A == Amplitude(m, a.arm.l.p, M.Now(a)) && n.v == LCPowers(m, a.arm.l.p, a.x)
    ensures B.Drive(m, a) == P.Scale(a.h, R(n.A, n.v, Sub(a.plant.S, a.arm.l.S)))
  {
    hide Amplitude, P.SmoothSaturation, P.Scale, R, P.Regress, Den;
    GainSplit(B.DriveGain(m, a), a.h, n.A, n.v, Sub(a.plant.S, a.arm.l.S));
  }

  lemma GainSplit(g: real, h: real, A: real, v: Pair, e: Pair)
    requires g == h * A
    ensures P.Scale(g, P.Regress(e, v)) == P.Scale(h, R(A, v, e))
  {
    Rescaled(g, h, A, v.P * e.P + v.Q * e.Q);
    Rescaled(g, h, A, v.Q * e.P - v.P * e.Q);
  }

  lemma ParameterTick(S: Pair, S1: Pair, S2: Pair, k: real, r: Pair)
    requires S2 == Plus(S1, P.Scale(k, r))
    ensures Sub(S, S2) == Plus(P.Scale(1.0, Sub(S, S1)), P.Scale(-k, r))
  {}
}
