/** The emulated generator: a forward-Euler integrator of the applied command
    plus a matched uncertainty that its rating limiter bounds.
  */
module Plant {
  import opened RealMath
  import opened Virtual

  /** The elementary functions, known only by the bounds the model relies on. */
  datatype Maths = Maths(exp: real -> real, sin: real -> real, tanh: real -> real)
  {
    ghost predicate Sound() {
      && (forall x: real | x <= 0.0 :: 0.0 < exp(x) <= 1.0)
      && (forall x: real :: -1.0 <= sin(x) <= 1.0)
      && (forall x: real :: -1.0 <= tanh(x) <= 1.0)
    }
  }

  /** `Rep` vanishes with time, `Per` persists. */
  datatype Profile = Rep | Per

  function AZeta(m: Maths, profile: Profile, t: real): real {
    match profile
    case Rep => 0.001 * m.exp(-5.0 * t)
    case Per => 0.001 * (0.75 + 0.25 * m.sin(0.1 * t))
  }

  function Limit(m: Maths, x: real, lim: real): real
    requires lim != 0.0
  {
    lim * m.tanh(x / lim)
  }

  /** The rating limiter: each power through a scaled tanh. */
  function SmoothSaturation(m: Maths, x: Pair, pMax: real, qMax: real): Pair
    requires pMax != 0.0 && qMax != 0.0
  {
    Pair(Limit(m, x.P, pMax), Limit(m, x.Q, qMax))
  }

  datatype Params = Params(kappa: real, S: Pair, profile: Profile, pMax: real, qMax: real)
  {
    predicate Accepted() {
      kappa > 0.0
    }

    predicate Rated() {
      pMax > 0.0 && qMax > 0.0
    }
  }

  /** The regressor R = [[p, q], [q, -p]] applied to s. */
  function Regress(s: Pair, v: Pair): Pair {
    Pair(v.P * s.P + v.Q * s.Q, v.Q * s.P - v.P * s.Q)
  }

  function Scale(a: real, v: Pair): Pair {
    Pair(a * v.P, a * v.Q)
  }

  /** The rating-limited physical powers at the normalized state x. */
  function Powers(m: Maths, kappa: real, pMax: real, qMax: real, x: Pair): Pair
    requires pMax != 0.0 && qMax != 0.0
  {
    SmoothSaturation(m, Scale(kappa, x), pMax, qMax)
  }

  function Zeta(m: Maths, p: Params, x: Pair, t: real): Pair
    requires p.Accepted() && p.pMax != 0.0 && p.qMax != 0.0
  {
    Scale(AZeta(m, p.profile, t) / p.kappa, Regress(p.S, Powers(m, p.kappa, p.pMax, p.qMax, x)))
  }

  function ZetaBound(p: Params): real
    requires p.Accepted()
  {
    (0.001 / p.kappa) * (p.pMax + p.qMax) * Norm(p.S)
  }

  function Euler(x: real, h: real, app: real, zeta: real): real {
    x + h * (app + zeta)
  }

  /** One forward-Euler update under the applied command. */
  function Advance(m: Maths, p: Params, x: Pair, app: Pair, t: real, h: real): Pair
    requires p.Accepted() && p.pMax != 0.0 && p.qMax != 0.0
  {
    var z := Zeta(m, p, x, t);
    Pair(Euler(x.P, h, app.P, z.P), Euler(x.Q, h, app.Q, z.Q))
  }

  function Norm(v: Pair): real {
    Abs(v.P) + Abs(v.Q)
  }

  // ------------------------------------------------------- the uncertainty's bound

  lemma AZetaRange(m: Maths, profile: Profile, t: real)
    requires m.Sound() && t >= 0.0
    ensures 0.0 < AZeta(m, profile, t) <= 0.001
  {}

  /** The persistent profile never falls below half its bound. */
  lemma PerPersists(m: Maths, t: real)
    requires m.Sound()
    ensures AZeta(m, Per, t) >= 0.0005
  {}

  /** The other decays: s later it is what an exponential leaves of it. */
  lemma RepDecays(m: Maths, t: real, s: real)
    requires forall x: real, y: real :: m.exp(x + y) == Product(m.exp(x), m.exp(y))
    ensures AZeta(m, Rep, t + s) == Product(AZeta(m, Rep, t), m.exp(-5.0 * s))
  {
    hide Product;
    var x, y := -5.0 * t, -5.0 * s;
    assert -5.0 * (t + s) == x + y;
    assert m.exp(x + y) == Product(m.exp(x), m.exp(y));
    ScaledProduct(m.exp(x), m.exp(y));
  }

  lemma ScaledProduct(a: real, b: real)
    ensures 0.001 * Product(a, b) == Product(0.001 * a, b)
  {}

  lemma AbsProduct(a: real, b: real, c: real)
    requires Abs(a) <= c
    ensures Abs(a * b) <= c * Abs(b)
  {
    AbsMul(a, b);
    MulMono(Abs(b), Abs(a), c);
  }

  lemma LimiterRange(m: Maths, x: real, lim: real)
    requires m.Sound() && lim > 0.0
    ensures Abs(Limit(m, x, lim)) <= lim
  {
    MulMono(lim, m.tanh(x / lim), 1.0);
    MulMono(lim, -1.0, m.tanh(x / lim));
  }

  lemma RegressBound(s: Pair, v: Pair, a: real, b: real)
    requires Abs(v.P) <= a && Abs(v.Q) <= b
    ensures Norm(Regress(s, v)) <= (a + b) * Norm(s)
  {
    RegressAlgebra(v.P, v.Q, s.P, s.Q, a, b, Regress(s, v).P, Regress(s, v).Q, Norm(s));
  }

  lemma RegressAlgebra(p: real, q: real, s1: real, s2: real, a: real, b: real, x: real, y: real, n: real)
    requires Abs(p) <= a && Abs(q) <= b
    requires x == p * s1 + q * s2 && y == q * s1 - p * s2 && n == Abs(s1) + Abs(s2)
    ensures Abs(x) + Abs(y) <= (a + b) * n
  {
    hide Abs;
    AbsProduct(p, s1, a);
    AbsProduct(q, s2, b);
    AbsProduct(q, s1, b);
    AbsProduct(p, s2, a);
    Triangle(x, p * s1, q * s2);
    Triangle(y, q * s1, p * s2);
    SumOfFour(a, b, Abs(s1), Abs(s2), n);
  }

  lemma Triangle(x: real, u: real, v: real)
    requires x == u + v || x == u - v
    ensures Abs(x) <= Abs(u) + Abs(v)
  {}

  lemma PowersRange(m: Maths, p: Params, x: Pair)
    requires m.Sound() && p.Rated()
    ensures Abs(Powers(m, p.kappa, p.pMax, p.qMax, x).P) <= p.pMax
    ensures Abs(Powers(m, p.kappa, p.pMax, p.qMax, x).Q) <= p.qMax
  {
    hide Abs, Limit;
    LimiterRange(m, Scale(p.kappa, x).P, p.pMax);
    LimiterRange(m, Scale(p.kappa, x).Q, p.qMax);
  }

  lemma SumOfFour(a: real, b: real, x: real, y: real, n: real)
    requires n == x + y
    ensures a * x + b * y + b * x + a * y == (a + b) * n
  {}

  /** In the 1-norm the uncertainty never exceeds its bound, whatever the state,
      for positive ratings. */
  lemma ZetaWithinBound(m: Maths, p: Params, x: Pair, t: real)
    requires m.Sound() && p.Accepted() && p.Rated() && t >= 0.0
    ensures Norm(Zeta(m, p, x, t)) <= ZetaBound(p)
  {
    hide Powers, AZeta, Regress, Abs;
    PowersRange(m, p, x);
    var r := Regress(p.S, Powers(m, p.kappa, p.pMax, p.qMax, x));
    RegressBound(p.S, Powers(m, p.kappa, p.pMax, p.qMax, x), p.pMax, p.qMax);
    AZetaRange(m, p.profile, t);
    RatioMono(AZeta(m, p.profile, t), 0.001, p.kappa);
    ScaledNorm(AZeta(m, p.profile, t) / p.kappa, 0.001 / p.kappa, r, (p.pMax + p.qMax) * Norm(p.S));
    Associate(0.001 / p.kappa, p.pMax + p.qMax, Norm(p.S));
  }

  lemma Associate(x: real, y: real, z: real)
    ensures x * (y * z) == x * y * z
  {}

  lemma RatioMono(x: real, y: real, k: real)
    requires 0.0 < x <= y && k > 0.0
    ensures 0.0 < x / k <= y / k
  {
    DivPos(x, k);
    DivMul(x, k);
    DivGe(y, k, x / k);
  }

  lemma ScaledNorm(a: real, c: real, r: Pair, s: real)
    requires 0.0 <= a <= c && Norm(r) <= s
    ensures Norm(Scale(a, r)) <= c * s
  {
    hide Abs;
    AbsNonneg(r.P);
    AbsNonneg(r.Q);
    AbsScale(a, r.P, Scale(a, r).P);
    AbsScale(a, r.Q, Scale(a, r).Q);
    Distribute(a, Abs(r.P), Abs(r.Q), Norm(r));
    MulMono(a, Norm(r), s);
    MulMono(s, a, c);
  }

  lemma AbsScale(a: real, x: real, y: real)
    requires a >= 0.0 && y == a * x
    ensures Abs(y) == a * Abs(x)
  {
    AbsMul(a, x);
  }

  lemma Distribute(a: real, x: real, y: real, n: real)
    requires n == x + y
    ensures a * x + a * y == a * n
  {}

  // -------------------------------------------------------------------- the object

  class MicrogridPlant {
    const m: Maths
    const p: Params
    var xP: real
    var xQ: real

    function X(): Pair
      reads this
    {
      Pair(xP, xQ)
    }

    constructor (m: Maths, p: Params, x: Pair)
      ensures X() == x && this.m == m && this.p == p
    {
      this.m, this.p := m, p;
      xP, xQ := x.P, x.Q;
    }

    method Step(app: Pair, t: real, h: real)
      requires p.Accepted() && p.pMax != 0.0 && p.qMax != 0.0
      modifies this
      ensures X() == Advance(m, p, old(X()), app, t, h)
    {
      var z := Zeta(m, p, X(), t);
      xP := Euler(xP, h, app.P, z.P);
      xQ := Euler(xQ, h, app.Q, z.Q);
    }
  }
}
