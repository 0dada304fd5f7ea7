/** The prescribed-time interface on its own grid: with beta_c = 2, the default
    width 2h and a deadline of N periods, the homogeneous part of the tracking
    error is spent exactly one period before the deadline.
  */
module Deadbeat {
  import opened RealMath
  import opened Virtual
  import opened Interfaces
  import P = Plant
  import M = Microgrid

  /** The interface knows the plant's regressor, though not its parameter. */
  predicate Matched(a: M.Agent) {
    && a.arm.LCArm?
    && a.arm.l.p.kappa == a.plant.kappa && a.arm.l.p.profile == a.plant.profile
    && a.arm.l.p.pMax == a.plant.pMax && a.arm.l.p.qMax == a.plant.qMax
  }

  /** The deadline is N periods away at the start, and everything else is the default. */
  predicate OnGrid(a: M.Agent, N: nat) {
    && Matched(a) && M.Healthy(a) && N >= 2
    && a.arm.l.p.betaC == 2.0 && a.arm.l.p.deltaC.None? && a.arm.l.p.tC == N as real * a.h
  }

  /** 1 - h lambda. */
  function Shrink(a: M.Agent): real
    requires a.arm.LCArm? && HasLam(a.arm.l.p, a.arm.l.h, M.Now(a))
  {
    1.0 - a.h * Lam(a.arm.l.p, a.arm.l.h, M.Now(a))
  }

  function DriveGain(m: P.Maths, a: M.Agent): real
    requires a.arm.LCArm? && a.arm.l.p.Accepted()
  {
    a.h * Amplitude(m, a.arm.l.p, M.Now(a))
  }

  /** h R (S - S_hat): what the parameter error feeds back. */
  function Drive(m: P.Maths, a: M.Agent): Pair
    requires a.arm.LCArm? && a.arm.l.p.Accepted() && a.plant.pMax != 0.0 && a.plant.qMax != 0.0
  {
    P.Scale(DriveGain(m, a),
            P.Regress(Sub(a.plant.S, a.arm.l.S), P.Powers(m, a.plant.kappa, a.plant.pMax, a.plant.qMax, a.x)))
  }

  /** The tick's command is formed on the active branch. */
  predicate Active(a: M.Agent) {
    a.arm.LCArm? && !Terminal(a.arm.l.p, M.Now(a))
  }

  // -------------------------------------------------------------------------- one tick

  lemma RegressDifference(s: Pair, e: Pair, v: Pair)
    ensures P.Regress(Sub(s, e), v) == Sub(P.Regress(s, v), P.Regress(e, v))
  {}

  lemma StepAlgebra(s: real, lam: real, A: real, rs: real, re: real, h: real, w: real, zeta: real, excess: real,
                    shrink: real, gain: real)
    requires w == lam * s + A * re && zeta == A * rs && excess == 0.0
    requires shrink == 1.0 - h * lam && gain == h * A
    ensures M.After(s, w, excess, zeta, h) == shrink * s + gain * (rs - re)
  {
    assert shrink * s == s - h * (lam * s);
    assert gain * (rs - re) == h * (A * rs) - h * (A * re);
  }

  lemma StepForm(c: Command, zeta: Pair, s: Pair, lam: real, A: real, rs: Pair, re: Pair, h: real, shrink: real, gain: real)
    requires c.sigma == s && c.app == c.mu
    requires c.omega == Plus(P.Scale(lam, s), P.Scale(A, re)) && zeta == P.Scale(A, rs)
    requires shrink == 1.0 - h * lam && gain == h * A
    ensures M.ErrorAfter(c, zeta, h) == Plus(P.Scale(shrink, s), P.Scale(gain, Sub(rs, re)))
  {
    hide M.After;
    StepAlgebra(s.P, lam, A, rs.P, re.P, h, c.omega.P, zeta.P, c.app.P - c.mu.P, shrink, gain);
    StepAlgebra(s.Q, lam, A, rs.Q, re.Q, h, c.omega.Q, zeta.Q, c.app.Q - c.mu.Q, shrink, gain);
  }

  /** sigma+ = (1 - h lambda) sigma + h R (S - S_hat), on the active branch, unsaturated. */
  lemma ActiveStep(m: P.Maths, a: M.Agent, vs: seq<int>)
    requires M.Runs(a) && Matched(a) && Active(a) && !M.CommandOf(m, a, vs).saturated
    ensures M.Sigma(M.Tick(m, a, vs)) == Plus(P.Scale(Shrink(a), M.Sigma(a)), Drive(m, a))
  {
    hide M.Tick, M.CommandOf, M.ErrorAfter, M.Sigma, Lam, Amplitude, P.Powers, P.AZeta, P.Regress, P.Scale, M.Observed;
    M.ErrorDynamics(m, a, vs);
    ActiveOmega(m, a, vs);
    AmplitudeIs(m, a);
    var v := P.Powers(m, a.plant.kappa, a.plant.pMax, a.plant.qMax, a.x);
    RegressDifference(a.plant.S, a.arm.l.S, v);
    StepForm(M.CommandOf(m, a, vs), P.Zeta(m, a.plant, a.x, M.Now(a)), M.Sigma(a), Lam(a.arm.l.p, a.h, M.Now(a)),
             Amplitude(m, a.arm.l.p, M.Now(a)), P.Regress(a.plant.S, v), P.Regress(a.arm.l.S, v), a.h, Shrink(a), DriveGain(m, a));
  }

  lemma AmplitudeIs(m: P.Maths, a: M.Agent)
    requires Matched(a) && a.plant.Accepted() && a.arm.l.p.Accepted()
    ensures Amplitude(m, a.arm.l.p, M.Now(a)) == P.AZeta(m, a.plant.profile, M.Now(a)) / a.plant.kappa
  {}

  lemma ActiveOmega(m: P.Maths, a: M.Agent, vs: seq<int>)
    requires M.Runs(a) && Matched(a) && Active(a)
    ensures var t, v := M.Now(a), P.Powers(m, a.plant.kappa, a.plant.pMax, a.plant.qMax, a.x);
            M.CommandOf(m, a, vs).omega
            == Plus(P.Scale(Lam(a.arm.l.p, a.h, t), M.Sigma(a)), P.Scale(Amplitude(m, a.arm.l.p, t), P.Regress(a.arm.l.S, v)))
  {
    hide M.Observed, Lam, Amplitude, P.Powers, P.Regress, P.Scale, P.Norm, ClipBoth, Gate;
  }

  /** Past the deadline, under the terminal policy: the command is zero, the
      estimate is frozen, and only the uncertainty moves the plant. */
  lemma TerminalStep(m: P.Maths, a: M.Agent, vs: seq<int>)
    requires M.Runs(a) && a.arm.LCArm? && Terminal(a.arm.l.p, M.Now(a)) && a.arm.l.p.muMax >= 0.0
    ensures M.CommandOf(m, a, vs).app == Pair(0.0, 0.0) && !M.CommandOf(m, a, vs).saturated
    ensures M.Tick(m, a, vs).arm == a.arm
    ensures M.Tick(m, a, vs).x == Plus(a.x, P.Scale(a.h, P.Zeta(m, a.plant, a.x, M.Now(a))))
  {
    hide M.Observed, P.Zeta, P.Norm, P.Euler, P.Scale, Amplitude, LearnRate, M.Watch;
    Drifting(a.x, a.h, P.Zeta(m, a.plant, a.x, M.Now(a)));
  }

  lemma Drifting(x: Pair, h: real, zeta: Pair)
    ensures Pair(P.Euler(x.P, h, 0.0, zeta.P), P.Euler(x.Q, h, 0.0, zeta.Q)) == Plus(x, P.Scale(h, zeta))
  {}

  // ------------------------------------------------------------------------- the gain's grid

  function Left(N: nat, k: nat): real {
    (N - k) as real
  }

  /** What the error keeps at tick k: (N-k-2)/(N-k) until it is 0. */
  function Kept(N: nat, k: nat): real {
    if k + 2 <= N then (Left(N, k) - 2.0) / Left(N, k) else 0.0
  }

  lemma LamOnGrid(p: LCParams, h: real, N: nat, k: nat)
    requires h > 0.0 && p.betaC == 2.0 && p.deltaC.None? && p.tC == N as real * h
    ensures HasLam(p, h, M.Time(k, h))
    ensures 1.0 - h * Lam(p, h, M.Time(k, h)) == Kept(N, k)
  {
    var t := M.Time(k, h);
    assert p.tC - t == Left(N, k) * h;
    var w := if k + 2 <= N then Left(N, k) else 2.0;
    GridMax(Left(N, k), w, h);
    assert Max(p.tC - t, p.Width(h)) == w * h;
    MulPos(w, h);
    KeptAlgebra(w, h, Lam(p, h, t), w * h);
    if k + 2 > N {
      assert (w - 2.0) / w == 0.0;
    }
  }

  lemma GridMax(left: real, w: real, h: real)
    requires h > 0.0 && w == Max(left, 2.0)
    ensures Max(left * h, 2.0 * h) == w * h
  {
    MulMono(h, 2.0, w);
    MulMono(h, left, w);
    if left >= 2.0 {
      MulMono(h, 2.0, left);
    } else {
      MulMono(h, left, 2.0);
    }
  }

  lemma KeptAlgebra(w: real, h: real, lam: real, d: real)
    requires w > 0.0 && h > 0.0 && d == w * h && d != 0.0 && lam == 2.0 / d
    ensures 1.0 - h * lam == (w - 2.0) / w
  {
    DivMul(2.0, d);
    assert w * (h * lam) == 2.0;
    DivMul(w - 2.0, w);
    assert w * (1.0 - h * lam) == w - 2.0;
    Cancel(w, 1.0 - h * lam, (w - 2.0) / w);
  }

  /** The homogeneous factor of the first n ticks. */
  function Product(N: nat, n: nat): real {
    if n == 0 then 1.0 else Kept(N, n - 1) * Product(N, n - 1)
  }

  /** w_n = (N-n)(N-n-1). */
  function Weight(N: nat, n: nat): real {
    Left(N, n) * (Left(N, n) - 1.0)
  }

  /** Each tick keeps w_{k+1} / w_k. */
  lemma KeptWeight(N: nat, k: nat)
    requires k + 1 <= N
    ensures Weight(N, k) * Kept(N, k) == Weight(N, k + 1)
  {
    assert Left(N, k + 1) == Left(N, k) - 1.0;
    if k + 2 <= N {
      DivMul(Left(N, k) - 2.0, Left(N, k));
      KeptWeightAlgebra(Left(N, k), Kept(N, k));
    } else {
      assert Left(N, k) == 1.0;
    }
  }

  lemma KeptWeightAlgebra(x: real, q: real)
    requires q * x == x - 2.0
    ensures (x * (x - 1.0)) * q == (x - 1.0) * (x - 1.0 - 1.0)
  {
    assert (x * (x - 1.0)) * q == (x - 1.0) * (q * x);
  }

  lemma WeightPos(N: nat, n: nat)
    requires n + 2 <= N
    ensures Weight(N, n) > 0.0
  {
    MulPos(Left(N, n), Left(N, n) - 1.0);
  }

  /** The product telescopes: (N-n)(N-n-1) / (N(N-1)) for every n up to N - 1,
      where it reaches 0. */
  lemma {:induction false} ProductTelescopes(N: nat, n: nat)
    requires 2 <= N && n + 1 <= N
    ensures Weight(N, 0) > 0.0
    ensures Product(N, n) == Weight(N, n) / Weight(N, 0)
    ensures n + 1 == N ==> Product(N, n) == 0.0
  {
    hide Weight, Kept;
    WeightPos(N, 0);
    if n == 0 {
      SelfRatio(Weight(N, 0));
    } else {
      ProductTelescopes(N, n - 1);
      KeptWeight(N, n - 1);
      Telescope(Weight(N, n - 1), Kept(N, n - 1), Weight(N, n), Weight(N, 0), Product(N, n - 1), Product(N, n));
    }
    LastWeight(N, n);
    ZeroRatio(Weight(N, n), Weight(N, 0));
  }

  lemma SelfRatio(x: real)
    requires x != 0.0
    ensures x / x == 1.0
  {}

  lemma ZeroRatio(x: real, y: real)
    requires y != 0.0
    ensures x == 0.0 ==> x / y == 0.0
  {}

  lemma LastWeight(N: nat, n: nat)
    ensures n + 1 == N ==> Weight(N, n) == 0.0
  {}

  lemma Telescope(w: real, q: real, w': real, w0: real, p: real, p': real)
    requires w0 != 0.0 && w * q == w' && p == w / w0 && p' == q * p
    ensures p' == w' / w0
  {
    DivMul(w, w0);
    DivMul(w', w0);
    assert w0 * p' == q * (p * w0);
    Cancel(w0, p', w' / w0);
  }

  // ----------------------------------------------------------------------- over whole runs

  ghost predicate UnsaturatedUntil(m: P.Maths, a: M.Agent, f: M.Inputs, n: nat)
    requires M.Healthy(a)
  {
    forall k: nat | k < n :: !M.SaturatedAt(m, a, f, k)
  }

  lemma GridAt(m: P.Maths, a: M.Agent, f: M.Inputs, N: nat, k: nat)
    requires OnGrid(a, N) && a.ticks == 0
    ensures var b := M.At(m, a, f, k);
            && OnGrid(b, N) && b.h == a.h && b.arm.l.p == a.arm.l.p && b.plant == a.plant
            && M.Now(b) == M.Time(k, a.h)
            && HasLam(b.arm.l.p, b.arm.l.h, M.Now(b)) && Shrink(b) == Kept(N, k)
  {
    hide M.At, M.Tick, Lam, Kept, M.Time;
    M.AtFixed(m, a, f, k);
    LamOnGrid(a.arm.l.p, a.h, N, k);
  }

  /** Before the deadline every tick is active; without the terminal policy, every tick is. */
  lemma ActiveAt(m: P.Maths, a: M.Agent, f: M.Inputs, N: nat, k: nat)
    requires OnGrid(a, N) && a.ticks == 0
    ensures Active(M.At(m, a, f, k)) <==> k < N || !a.arm.l.p.terminal
  {
    hide M.At, M.Tick, M.Time, M.Now, Lam, Kept, Shrink, HasLam;
    GridAt(m, a, f, N, k);
    Before(N, k, a.h, a.arm.l.p.tC);
  }

  lemma Before(N: nat, k: nat, h: real, tC: real)
    requires h > 0.0 && tC == N as real * h
    ensures M.Time(k, h) < tC <==> k < N
  {
    if k < N {
      MulPos((N - k) as real, h);
      assert (N - k) as real * h == N as real * h - M.Time(k, h);
    } else {
      MulMono(h, N as real, k as real);
    }
  }

  function DriveAt(m: P.Maths, a: M.Agent, f: M.Inputs, k: nat): Pair
    requires M.Healthy(a) && a.arm.LCArm? && a.plant.pMax != 0.0 && a.plant.qMax != 0.0
  {
    M.AtFixed(m, a, f, k);
    Drive(m, M.At(m, a, f, k))
  }

  function SigmaAt(m: P.Maths, a: M.Agent, f: M.Inputs, k: nat): Pair
    requires M.Healthy(a)
  {
    M.Sigma(M.At(m, a, f, k))
  }

  /** Tick k of the run, in closed form. */
  lemma TickOnGrid(m: P.Maths, a: M.Agent, f: M.Inputs, N: nat, k: nat)
    requires OnGrid(a, N) && a.ticks == 0 && (k < N || !a.arm.l.p.terminal)
    requires !M.SaturatedAt(m, a, f, k)
    ensures SigmaAt(m, a, f, k + 1)
         == Plus(P.Scale(Kept(N, k), SigmaAt(m, a, f, k)), DriveAt(m, a, f, k))
  {
    hide M.At, M.Tick, Drive, Shrink, Kept, M.Sigma, P.Scale, M.CommandOf;
    GridAt(m, a, f, N, k);
    ActiveAt(m, a, f, N, k);
    M.AtNext(m, a, f, k);
    ActiveStep(m, M.At(m, a, f, k), f(k));
  }

  /** Deadbeat: from tick N-2 on, whatever came before, each error is the parameter
      error's alone; without the terminal policy for ever, with it until the deadline. */
  lemma Deadbeat(m: P.Maths, a: M.Agent, f: M.Inputs, N: nat, k: nat)
    requires OnGrid(a, N) && a.ticks == 0 && k + 2 >= N && (k < N || !a.arm.l.p.terminal)
    requires !M.SaturatedAt(m, a, f, k)
    ensures SigmaAt(m, a, f, k + 1) == DriveAt(m, a, f, k)
  {
    hide M.At, Drive, SigmaAt, DriveAt, M.SaturatedAt;
    TickOnGrid(m, a, f, N, k);
    KeptZero(N, k);
    ZeroScale(SigmaAt(m, a, f, k), Kept(N, k));
  }

  lemma KeptZero(N: nat, k: nat)
    requires k + 2 >= N
    ensures Kept(N, k) == 0.0
  {}

  lemma ZeroScale(s: Pair, q: real)
    requires q == 0.0
    ensures P.Scale(q, s) == Pair(0.0, 0.0)
  {}

  /** sigma_0 / w_0 plus the drives so far, each divided by its own weight. */
  function Accumulated(m: P.Maths, a: M.Agent, f: M.Inputs, N: nat, n: nat): Pair
    requires OnGrid(a, N) && n + 2 <= N
  {
    WeightPos(N, n);
    if n == 0 then Over(SigmaAt(m, a, f, 0), Weight(N, 0))
    else Plus(Accumulated(m, a, f, N, n - 1), Over(DriveAt(m, a, f, n - 1), Weight(N, n)))
  }

  function Over(s: Pair, w: real): Pair
    requires w != 0.0
  {
    Pair(s.P / w, s.Q / w)
  }

  /** Variation of constants, for every n up to N - 2. */
  lemma {:induction false} ClosedForm(m: P.Maths, a: M.Agent, f: M.Inputs, N: nat, n: nat)
    requires OnGrid(a, N) && a.ticks == 0 && n + 2 <= N && UnsaturatedUntil(m, a, f, n)
    ensures SigmaAt(m, a, f, n) == P.Scale(Weight(N, n), Accumulated(m, a, f, N, n))
  {
    hide SigmaAt, DriveAt, Weight, M.SaturatedAt, Kept;
    WeightPos(N, n);
    if n == 0 {
      OverScale(SigmaAt(m, a, f, 0), Weight(N, 0));
    } else {
      ClosedForm(m, a, f, N, n - 1);
      TickOnGrid(m, a, f, N, n - 1);
      KeptWeight(N, n - 1);
      VariationStep(Accumulated(m, a, f, N, n - 1), DriveAt(m, a, f, n - 1), Weight(N, n - 1), Kept(N, n - 1), Weight(N, n));
    }
  }

  lemma OverScale(s: Pair, w: real)
    requires w != 0.0
    ensures P.Scale(w, Over(s, w)) == s
  {
    DivMul(s.P, w);
    DivMul(s.Q, w);
  }

  lemma VariationStep(acc: Pair, d: Pair, w: real, q: real, w': real)
    requires w * q == w' && w' != 0.0
    ensures Plus(P.Scale(q, P.Scale(w, acc)), d) == P.Scale(w', Plus(acc, Over(d, w')))
  {
    DivMul(d.P, w');
    DivMul(d.Q, w');
    VariationCoordinate(acc.P, d.P / w', w, q, w');
    VariationCoordinate(acc.Q, d.Q / w', w, q, w');
  }

  lemma VariationCoordinate(x: real, e: real, w: real, q: real, w': real)
    requires w * q == w'
    ensures q * (w * x) + w' * e == w' * (x + e)
  {
    assert q * (w * x) == (w * q) * x;
  }

  /** With no parameter error the error is the initial one times the product. */
  lemma {:induction false} Homogeneous(m: P.Maths, a: M.Agent, f: M.Inputs, N: nat, n: nat)
    requires OnGrid(a, N) && a.ticks == 0 && n <= N && UnsaturatedUntil(m, a, f, n)
    requires forall k: nat | k < n :: DriveAt(m, a, f, k) == Pair(0.0, 0.0)
    ensures SigmaAt(m, a, f, n) == P.Scale(Product(N, n), SigmaAt(m, a, f, 0))
  {
    hide SigmaAt, DriveAt, M.SaturatedAt, M.Healthy, Kept;
    if n == 0 {
      OneScale(SigmaAt(m, a, f, 0), Product(N, 0));
    } else {
      Homogeneous(m, a, f, N, n - 1);
      TickOnGrid(m, a, f, N, n - 1);
      ScaleTwice(Kept(N, n - 1), Product(N, n - 1), SigmaAt(m, a, f, 0), Product(N, n));
    }
  }

  lemma OneScale(s: Pair, q: real)
    requires q == 1.0
    ensures P.Scale(q, s) == s
  {}

  lemma ScaleTwice(q: real, p: real, s: Pair, r: real)
    requires r == q * p
    ensures P.Scale(q, P.Scale(p, s)) == P.Scale(r, s)
  {
    assert q * (p * s.P) == (q * p) * s.P;
    assert q * (p * s.Q) == (q * p) * s.Q;
  }

  /** What the drive can be: h times the uncertainty's bound, at the parameter error. */
  lemma DriveBound(m: P.Maths, a: M.Agent)
    requires Matched(a) && m.Sound() && a.plant.Accepted() && a.plant.Rated() && a.arm.l.p.Accepted() && a.h > 0.0
    ensures P.Norm(Drive(m, a)) <= a.h * P.ZetaBound(a.plant.(S := Sub(a.plant.S, a.arm.l.S)))
  {
    hide P.ZetaBound, P.Norm, P.AZeta, P.Powers, P.Regress;
    var p := a.plant.(S := Sub(a.plant.S, a.arm.l.S));
    MulNonneg(a.ticks as real, a.h);
    P.ZetaWithinBound(m, p, a.x, M.Now(a));
    AmplitudeIs(m, a);
    DriveIsZeta(m, a, p);
    P.ScaledNorm(a.h, a.h, P.Zeta(m, p, a.x, M.Now(a)), P.ZetaBound(p));
  }

  lemma DriveIsZeta(m: P.Maths, a: M.Agent, p: P.Params)
    requires Matched(a) && a.plant.Accepted() && a.plant.Rated() && a.arm.l.p.Accepted()
    requires p == a.plant.(S := Sub(a.plant.S, a.arm.l.S))
    ensures Drive(m, a) == P.Scale(a.h, P.Zeta(m, p, a.x, M.Now(a)))
  {
    hide P.AZeta, P.Powers, P.Regress, Amplitude;
    AmplitudeIs(m, a);
    var r := P.Regress(p.S, P.Powers(m, p.kappa, p.pMax, p.qMax, a.x));
    ScaleTwice(a.h, Amplitude(m, a.arm.l.p, M.Now(a)), r, DriveGain(m, a));
  }
}
