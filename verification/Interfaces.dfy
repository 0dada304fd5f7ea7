/** The two physical interfaces. Each forms its command from the old states and
    adapts afterwards.
  */
module Interfaces {
  import opened RealMath
  import opened Virtual
  import opened Plant
  import opened Options

  datatype Command = Command(mu: Pair, app: Pair, sigma: Pair, omega: Pair, saturated: bool, trig: real, fired: bool)

  function Sub(a: Pair, b: Pair): Pair {
    Pair(a.P - b.P, a.Q - b.Q)
  }

  function Plus(a: Pair, b: Pair): Pair {
    Pair(a.P + b.P, a.Q + b.Q)
  }

  /** The branches of the saturation, in the order they are tested. */
  function Clip(mu: real, m: real): real {
    if mu > m then m else if mu < -m then -m else mu
  }

  function ClipBoth(mu: Pair, m: real): Pair {
    Pair(Clip(mu.P, m), Clip(mu.Q, m))
  }

  // ------------------------------------------------------------ the adaptive interface

  datatype Trigger = SigmaForm | ResidualForm

  datatype AdaptiveParams = AdaptiveParams(gamma: real, eps: real, vartheta0: real, muMax: real, trigger: Trigger)
  {
    predicate Accepted() {
      gamma >= 0.0 && eps >= 0.0
    }
  }

  datatype Adaptive = Adaptive(p: AdaptiveParams, h: real, vartheta: real, updates: nat)

  function NewAdaptive(p: AdaptiveParams, h: real): Adaptive {
    Adaptive(p, h, p.vartheta0, 0)
  }

  /** The clipped correction of one coordinate. */
  function Correction(vartheta: real, s: real, h: real): real
    requires h != 0.0
  {
    Sign(s) * Min(vartheta, Abs(s) / h)
  }

  function AdaptiveOmega(vartheta: real, sigma: Pair, h: real): Pair
    requires h != 0.0
  {
    Pair(Correction(vartheta, sigma.P, h), Correction(vartheta, sigma.Q, h))
  }

  /** What is left of sigma after the correction acts for one period. */
  function Residual(a: Adaptive, sigma: Pair): Pair
    requires a.h != 0.0
  {
    var w := AdaptiveOmega(a.vartheta, sigma, a.h);
    Sub(sigma, Scale(a.h, w))
  }

  function TrigOf(a: Adaptive, sigma: Pair): real
    requires a.h != 0.0
  {
    if a.p.trigger == SigmaForm then Norm(sigma) else Norm(Residual(a, sigma))
  }

  function AdaptiveCommand(a: Adaptive, x: Pair, z: Pair, g: Pair): Command
    requires a.h != 0.0
  {
    var sigma := Sub(x, z);
    var omega := AdaptiveOmega(a.vartheta, sigma, a.h);
    var mu := Sub(g, omega);
    var app := ClipBoth(mu, a.p.muMax);
    var trig := TrigOf(a, sigma);
    Command(mu, app, sigma, omega, app != mu, trig, trig > a.p.eps)
  }

  function Adapt(a: Adaptive, fired: bool): Adaptive {
    if fired then a.(vartheta := a.vartheta + a.p.gamma, updates := a.updates + 1) else a
  }

  // ------------------------------------------------------------------ the LC interface

  datatype LCParams = LCParams(kappa: real, profile: Profile, tC: real, betaC: real, Phi: real, terminal: bool,
                               muMax: real, pMax: real, qMax: real, deltaC: Option<real>,
                               adaptBand: Option<real>, adaptAfter: Option<real>)
  {
    predicate Accepted() {
      kappa > 0.0 && betaC > 0.0
    }

    function GammaS(): real {
      Phi * kappa * kappa
    }

    /** The regularization width, twice the period unless given. */
    function Width(h: real): real {
      if deltaC.Some? then deltaC.value else 2.0 * h
    }
  }

  datatype LC = LC(p: LCParams, h: real, S: Pair, updates: nat)

  function NewLC(p: LCParams, h: real): LC {
    LC(p, h, Pair(0.0, 0.0), 0)
  }

  predicate Terminal(p: LCParams, t: real) {
    p.terminal && t >= p.tC
  }

  /** The prescribed-time gain exists. */
  predicate HasLam(p: LCParams, h: real, t: real) {
    Max(p.tC - t, p.Width(h)) != 0.0
  }

  function Lam(p: LCParams, h: real, t: real): real
    requires HasLam(p, h, t)
  {
    p.betaC / Max(p.tC - t, p.Width(h))
  }

  /** The divisions a step performs. */
  predicate LCDefined(p: LCParams, h: real, t: real) {
    && p.Accepted() && p.pMax != 0.0 && p.qMax != 0.0
    && (Terminal(p, t) || HasLam(p, h, t))
  }

  /** The estimator's own copy of the regressor scale. */
  function Amplitude(m: Maths, p: LCParams, t: real): real
    requires p.Accepted()
  {
    AZeta(m, p.profile, t) / p.kappa
  }

  function LCPowers(m: Maths, p: LCParams, x: Pair): Pair
    requires p.pMax != 0.0 && p.qMax != 0.0
  {
    Powers(m, p.kappa, p.pMax, p.qMax, x)
  }

  /** What the active branch subtracts from the feedforward. */
  function LCOmega(m: Maths, p: LCParams, h: real, S: Pair, t: real, x: Pair, sigma: Pair): Pair
    requires LCDefined(p, h, t) && !Terminal(p, t)
  {
    var lam, A := Lam(p, h, t), Amplitude(m, p, t);
    var r := Regress(S, LCPowers(m, p, x));
    Plus(Scale(lam, sigma), Scale(A, r))
  }

  /** The gates that hold the estimate still. */
  predicate Gate(p: LCParams, t: real, trig: real) {
    && !Terminal(p, t)
    && !(p.adaptAfter.Some? && t < p.adaptAfter.value)
    && !(p.adaptBand.Some? && trig > p.adaptBand.value)
  }

  function LCCommand(m: Maths, l: LC, t: real, x: Pair, z: Pair, g: Pair): Command
    requires LCDefined(l.p, l.h, t)
  {
    var sigma := Sub(x, z);
    var omega := if Terminal(l.p, t) then g else LCOmega(m, l.p, l.h, l.S, t, x, sigma);
    var mu := Sub(g, omega);
    var app := ClipBoth(mu, l.p.muMax);
    Command(mu, app, sigma, omega, app != mu, Norm(sigma), Gate(l.p, t, Norm(sigma)))
  }

  function LearnRate(m: Maths, p: LCParams, h: real, t: real): real
    requires p.Accepted()
  {
    h * p.GammaS() * Amplitude(m, p, t)
  }

  /** The estimate's step: h Gamma R^T sigma, R symmetric. */
  function Learn(m: Maths, l: LC, t: real, x: Pair, sigma: Pair, fired: bool): LC
    requires LCDefined(l.p, l.h, t)
  {
    if !fired then l
    else
      l.(S := Plus(l.S, Scale(LearnRate(m, l.p, l.h, t), Regress(sigma, LCPowers(m, l.p, x)))), updates := l.updates + 1)
  }

  // ------------------------------------------------------------------- their meaning

  /** With a nonnegative limit the saturation lands in range, and reports itself
      exactly when the command was out of it. */
  lemma ClipIff(mu: real, m: real)
    requires m >= 0.0
    ensures -m <= Clip(mu, m) <= m
    ensures Clip(mu, m) == mu <==> -m <= mu <= m
  {}

  /** The correction takes h vartheta off each error, or all of it when it is smaller. */
  lemma CorrectionTakes(vartheta: real, s: real, h: real)
    requires h > 0.0 && vartheta >= 0.0
    ensures Abs(s - h * Correction(vartheta, s, h)) == Max(Abs(s) - h * vartheta, 0.0)
  {
    hide Abs, Min, Correction;
    CorrectionIs(vartheta, s, h);
    DivMul(Abs(s), h);
    TakesAlgebra(Correction(vartheta, s, h), s, h, vartheta, Abs(s) / h, Min(vartheta, Abs(s) / h));
  }

  lemma CorrectionIs(vartheta: real, s: real, h: real)
    requires h != 0.0
    ensures s > 0.0 ==> Correction(vartheta, s, h) == Min(vartheta, Abs(s) / h)
    ensures s < 0.0 ==> Correction(vartheta, s, h) == -Min(vartheta, Abs(s) / h)
    ensures s == 0.0 ==> Correction(vartheta, s, h) == 0.0
  {
    hide Abs, Min;
  }

  lemma TakesAlgebra(c: real, s: real, h: real, vartheta: real, q: real, w: real)
    requires h > 0.0 && vartheta >= 0.0 && q * h == Abs(s) && w == Min(vartheta, q)
    requires s > 0.0 ==> c == w
    requires s < 0.0 ==> c == -w
    requires s == 0.0 ==> c == 0.0
    ensures Abs(s - h * c) == Max(Abs(s) - h * vartheta, 0.0)
  {
    if vartheta <= q {
      MulMono(h, vartheta, q);
    } else {
      MulMono(h, q, vartheta);
    }
    if s < 0.0 {
      assert h * c == -(h * w);
    }
  }

  // -------------------------------------------------------------------- the objects

  class AdaptiveInterface {
    const p: AdaptiveParams
    const h: real
    var vartheta: real
    var updates: nat

    function Value(): Adaptive
      reads this
    {
      Adaptive(p, h, vartheta, updates)
    }

    constructor (p: AdaptiveParams, h: real)
      ensures Value() == NewAdaptive(p, h)
    {
      this.p, this.h := p, h;
      vartheta, updates := p.vartheta0, 0;
    }

    method Step(x: Pair, z: Pair, g: Pair) returns (c: Command)
      requires h != 0.0
      modifies this
      ensures c == AdaptiveCommand(old(Value()), x, z, g)
      ensures Value() == Adapt(old(Value()), c.fired)
    {
      hide Correction, ClipBoth, Norm, Scale;
      var sigma := Sub(x, z);
      var lim := vartheta;
      var omega := Pair(Correction(lim, sigma.P, h), Correction(lim, sigma.Q, h));
      var mu := Sub(g, omega);
      var app := ClipBoth(mu, p.muMax);
      var trig := if p.trigger == SigmaForm then Norm(sigma)
                  else Norm(Sub(sigma, Scale(h, omega)));
      c := Command(mu, app, sigma, omega, app != mu, trig, trig > p.eps);
      if c.fired {
        vartheta := vartheta + p.gamma;
        updates := updates + 1;
      }
    }
  }

  class LCInterface {
    const m: Maths
    const p: LCParams
    const h: real
    var S1: real
    var S2: real
    var updates: nat

    function Value(): LC
      reads this
    {
      LC(p, h, Pair(S1, S2), updates)
    }

    constructor (m: Maths, p: LCParams, h: real)
      ensures Value() == NewLC(p, h) && this.m == m
    {
      this.m, this.p, this.h := m, p, h;
      S1, S2, updates := 0.0, 0.0, 0;
    }

    method Step(t: real, x: Pair, z: Pair, g: Pair) returns (c: Command)
      requires LCDefined(p, h, t)
      modifies this
      ensures c == LCCommand(m, old(Value()), t, x, z, g)
      ensures Value() == Learn(m, old(Value()), t, x, c.sigma, c.fired)
    {
      hide LCPowers, Amplitude, LearnRate, Lam, ClipBoth, Norm, Scale, Regress;
      var sigma := Sub(x, z);
      var A, v := Amplitude(m, p, t), LCPowers(m, p, x);
      var mu, omega := Pair(0.0, 0.0), g;
      if !Terminal(p, t) {
        var lam := Lam(p, h, t);
        omega := Plus(Scale(lam, sigma), Scale(A, Regress(Pair(S1, S2), v)));
        mu := Sub(g, omega);
      }
      var app := ClipBoth(mu, p.muMax);
      var trig := Norm(sigma);
      var fired := false;
      if !Terminal(p, t) {
        var gate := true;
        if p.adaptAfter.Some? && t < p.adaptAfter.value {
          gate := false;
        }
        if p.adaptBand.Some? && trig > p.adaptBand.value {
          gate := false;
        }
        if gate {
          var d := Scale(LearnRate(m, p, h, t), Regress(sigma, v));
          S1, S2 := S1 + d.P, S2 + d.Q;
          updates := updates + 1;
          fired := true;
        }
      }
      c := Command(mu, app, sigma, omega, app != mu, trig, fired);
    }
  }
}
