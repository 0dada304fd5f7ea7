/** The observer every agent runs: a held neighbour sum, a semi-implicit step of
    the local value, and a gain that adapts to the disagreement.
  */
module Virtual {
  import opened RealMath

  /** The two coordinates of a state. */
  datatype Pair = Pair(P: real, Q: real)

  datatype Params = Params(To: real, alpha0: real, deltaO: real, kappaO: real, xi: real, c0: real, b: real, r: Pair)
  {
    /** What construction accepts. */
    predicate Accepted() {
      && To > 0.0 && deltaO > 0.0 && b >= 0.0
      && (b == 0.0 ==> r == Pair(0.0, 0.0))
    }

    /** The observer's gains are nonnegative. */
    predicate Nonnegative() {
      alpha0 >= 0.0 && kappaO >= 0.0 && xi >= 0.0 && c0 >= 0.0
    }
  }

  datatype Layer = Layer(p: Params, degree: nat, z: Pair, c: real, w: Pair)
  {
    function D(): real {
      degree as real + p.b
    }

    predicate Valid() {
      p.Accepted() && D() > 0.0
    }
  }

  /** A new layer; `Valid` fails exactly for an isolated, unpinned node. */
  function Initial(p: Params, degree: nat, z: Pair): Layer {
    Layer(p, degree, z, p.c0, Pair(p.b * p.r.P, p.b * p.r.Q))
  }

  // ---------------------------------------------------------------- schedules

  function Alpha(p: Params, t: real): real
    requires p.Accepted()
  {
    p.alpha0 * p.To / Max(p.To - t, p.deltaO)
  }

  function Fo(p: Params, t: real): real
    requires p.Accepted()
  {
    Alpha(p, t) + p.kappaO
  }

  function Rho(p: Params, t: real): real
    requires p.Accepted()
  {
    2.0 * Alpha(p, t)
  }

  /** The observer gain a_o = c f_o. */
  function Gain(l: Layer, t: real): real
    requires l.Valid()
  {
    l.c * Fo(l.p, t)
  }

  /** What the semi-implicit step divides by. */
  function Den(l: Layer, t: real, h: real): real
    requires l.Valid()
  {
    1.0 + h * Gain(l, t) * l.D()
  }

  lemma ScheduleNonneg(p: Params, t: real)
    requires p.Accepted() && p.Nonnegative()
    ensures Alpha(p, t) >= 0.0 && Fo(p, t) >= 0.0 && Rho(p, t) >= 0.0
  {
    MulNonneg(p.alpha0, p.To);
    DivNonneg(p.alpha0 * p.To, Max(p.To - t, p.deltaO));
  }

  /** The schedule never falls below its value at the start of the run. */
  lemma ScheduleFloor(p: Params, t: real)
    requires p.Accepted() && p.Nonnegative() && t >= 0.0
    ensures Fo(p, t) >= Fo(p, 0.0)
  {
    var n, d0, d := p.alpha0 * p.To, Max(p.To, p.deltaO), Max(p.To - t, p.deltaO);
    MulNonneg(p.alpha0, p.To);
    DivNonneg(n, d0);
    DivMul(n, d0);
    MulMono(n / d0, d, d0);
    DivGe(n, d, n / d0);
  }

  // -------------------------------------------------------------- the snapshot

  function Sum(nbrs: seq<Pair>): Pair {
    if nbrs == [] then Pair(0.0, 0.0)
    else var s := Sum(nbrs[..|nbrs| - 1]);
         Pair(s.P + nbrs[|nbrs| - 1].P, s.Q + nbrs[|nbrs| - 1].Q)
  }

  function Hold(l: Layer, nbrs: seq<Pair>): Layer {
    var s := Sum(nbrs);
    l.(w := Pair(s.P + l.p.b * l.p.r.P, s.Q + l.p.b * l.p.r.Q))
  }

  // ------------------------------------------------------------------ the step

  datatype Candidate = Candidate(z: Pair, c: real, g: Pair, eta: Pair)

  function Slope(l: Layer, t: real, h: real, eta: real): real
    requires l.Valid() && Den(l, t, h) != 0.0
  {
    (-Gain(l, t) / Den(l, t, h)) * eta
  }

  /** One coordinate of the next value. */
  function NextZ(l: Layer, t: real, h: real, z: real, w: real): real
    requires l.Valid() && Den(l, t, h) != 0.0
  {
    z + h * Slope(l, t, h, l.D() * z - w)
  }

  function NextC(l: Layer, t: real, h: real, eta: Pair): real
    requires l.Valid()
  {
    l.c + h * Rho(l.p, t) * l.p.xi * Fo(l.p, t) * Fo(l.p, t) * (eta.P * eta.P + eta.Q * eta.Q)
  }

  function Eta(l: Layer): Pair {
    Pair(l.D() * l.z.P - l.w.P, l.D() * l.z.Q - l.w.Q)
  }

  function Step(l: Layer, t: real, h: real): Candidate
    requires l.Valid() && Den(l, t, h) != 0.0
  {
    Candidate(Pair(NextZ(l, t, h, l.z.P, l.w.P), NextZ(l, t, h, l.z.Q, l.w.Q)),
              NextC(l, t, h, Eta(l)),
              Pair(Slope(l, t, h, Eta(l).P), Slope(l, t, h, Eta(l).Q)),
              Eta(l))
  }

  function Commit(l: Layer, k: Candidate): Layer {
    l.(z := k.z, c := k.c)
  }

  /** The convex weight. */
  function Theta(l: Layer, t: real, h: real): real
    requires l.Valid() && Den(l, t, h) != 0.0
  {
    h * Gain(l, t) * l.D() / Den(l, t, h)
  }

  lemma NextZIs(l: Layer, t: real, h: real, eta: real, g: real, z: real, w: real)
    requires l.Valid() && Den(l, t, h) != 0.0
    requires eta == l.D() * z - w && g == Slope(l, t, h, eta)
    ensures z + h * g == NextZ(l, t, h, z, w)
  {}

  /** The step may be taken: nonnegative period and gains. */
  predicate Ready(l: Layer, h: real) {
    l.Valid() && l.p.Nonnegative() && l.c >= 0.0 && h >= 0.0
  }

  lemma Denominator(l: Layer, t: real, h: real)
    requires Ready(l, h)
    ensures Gain(l, t) >= 0.0 && h * Gain(l, t) >= 0.0 && h * Gain(l, t) * l.D() >= 0.0
  {
    ScheduleNonneg(l.p, t);
    MulNonneg(l.c, Fo(l.p, t));
    MulNonneg(h, Gain(l, t));
    MulNonneg(h * Gain(l, t), l.D());
  }

  lemma DenAtLeastOne(l: Layer, t: real, h: real)
    requires Ready(l, h)
    ensures Den(l, t, h) >= 1.0
  {
    Denominator(l, t, h);
  }

  lemma HoldReady(l: Layer, nbrs: seq<Pair>, h: real)
    requires Ready(l, h)
    ensures Ready(Hold(l, nbrs), h) && Hold(l, nbrs).p == l.p && Hold(l, nbrs).D() == l.D()
  {}

  lemma ThetaRange(l: Layer, t: real, h: real)
    requires Ready(l, h)
    ensures Den(l, t, h) >= 1.0
    ensures 0.0 <= Theta(l, t, h) < 1.0
  {
    Denominator(l, t, h);
    var x := h * Gain(l, t) * l.D();
    DivNonneg(x, 1.0 + x);
    DivMul(x, 1.0 + x);
  }

  /** One coordinate, without a division: (1 + h a D) z+ = z + h a w. */
  lemma SemiImplicit(l: Layer, t: real, h: real, z: real, w: real)
    requires Ready(l, h)
    ensures Den(l, t, h) >= 1.0
    ensures Den(l, t, h) * NextZ(l, t, h, z, w) == z + h * Gain(l, t) * w
  {
    Denominator(l, t, h);
    var a, D := Gain(l, t), l.D();
    var den := Den(l, t, h);
    var q := -a / den;
    DivMul(-a, den);
    assert q * den == -a;
    SemiImplicitAlgebra(a, D, h, den, q, z, w);
  }

  lemma SemiImplicitAlgebra(a: real, D: real, h: real, den: real, q: real, z: real, w: real)
    requires den == 1.0 + h * a * D && q * den == -a
    ensures den * (z + h * (q * (D * z - w))) == z + h * a * w
  {
    var e := D * z - w;
    assert den * (h * (q * e)) == h * ((q * den) * e);
    assert h * (-a * e) == h * a * w - h * a * (D * z);
    assert den * z == z + h * a * (D * z);
  }

  /** The convex form: z+ = (1 - theta) z + theta w / D. */
  lemma ConvexForm(l: Layer, t: real, h: real, z: real, w: real)
    requires Ready(l, h)
    ensures Den(l, t, h) >= 1.0
    ensures NextZ(l, t, h, z, w)
         == (1.0 - Theta(l, t, h)) * z + Theta(l, t, h) * (w / l.D())
  {
    SemiImplicit(l, t, h, z, w);
    var a, D := Gain(l, t), l.D();
    var x := h * a * D;
    var th, m := x / (1.0 + x), w / D;
    DivMul(x, 1.0 + x);
    DivMul(w, D);
    ConvexAlgebra(x, th, z, m, h * a * w, h * a, D, w);
    Cancel(1.0 + x, NextZ(l, t, h, z, w), (1.0 - th) * z + th * m);
  }

  lemma ConvexAlgebra(x: real, th: real, z: real, m: real, y: real, ha: real, D: real, w: real)
    requires th * (1.0 + x) == x && m * D == w && x == ha * D && y == ha * w
    ensures (1.0 + x) * ((1.0 - th) * z + th * m) == z + y
  {
    assert (1.0 + x) * ((1.0 - th) * z) == ((1.0 + x) - th * (1.0 + x)) * z;
    assert (1.0 + x) * (th * m) == (th * (1.0 + x)) * m;
    assert x * m == ha * (m * D);
  }

  // ----------------------------------------------------------------- intervals

  /** A rectangle of coordinate intervals. */
  datatype Box = Box(lo: Pair, hi: Pair)
  {
    predicate Holds(x: Pair) {
      lo.P <= x.P <= hi.P && lo.Q <= x.Q <= hi.Q
    }
  }

  ghost predicate AllIn(box: Box, xs: seq<Pair>) {
    forall i | 0 <= i < |xs| :: box.Holds(xs[i])
  }

  function Times(n: nat, x: real): real {
    n as real * x
  }

  lemma {:induction false} SumBounds(box: Box, nbrs: seq<Pair>)
    requires AllIn(box, nbrs)
    ensures var n, s := |nbrs|, Sum(nbrs);
            && Times(n, box.lo.P) <= s.P <= Times(n, box.hi.P)
            && Times(n, box.lo.Q) <= s.Q <= Times(n, box.hi.Q)
  {
    if nbrs == [] {
    } else {
      hide Times;
      var k := |nbrs| - 1;
      SumBounds(box, nbrs[..k]);
      OneMore(k, box.lo.P);
      OneMore(k, box.hi.P);
      OneMore(k, box.lo.Q);
      OneMore(k, box.hi.Q);
    }
  }

  lemma OneMore(k: nat, x: real)
    ensures Times(k + 1, x) == Times(k, x) + x
  {}

  lemma Pinned(b: real, n: real, lo: real, x: real, hi: real)
    requires b >= 0.0 && (b > 0.0 ==> lo <= x <= hi)
    ensures (n + b) * lo <= n * lo + b * x && n * hi + b * x <= (n + b) * hi
  {
    if b > 0.0 {
      MulMono(b, lo, x);
      MulMono(b, x, hi);
    }
  }

  lemma HoldBounds(box: Box, l: Layer, nbrs: seq<Pair>)
    requires l.Valid() && |nbrs| == l.degree && AllIn(box, nbrs)
    requires l.p.b > 0.0 ==> box.Holds(l.p.r)
    ensures var D, w := l.D(), Hold(l, nbrs).w;
            D * box.lo.P <= w.P <= D * box.hi.P && D * box.lo.Q <= w.Q <= D * box.hi.Q
  {
    hide Sum;
    SumBounds(box, nbrs);
    Pinned(l.p.b, l.degree as real, box.lo.P, l.p.r.P, box.hi.P);
    Pinned(l.p.b, l.degree as real, box.lo.Q, l.p.r.Q, box.hi.Q);
  }

  lemma StepBetween(l: Layer, t: real, h: real, z: real, w: real, lo: real, hi: real)
    requires Ready(l, h) && lo <= z <= hi && l.D() * lo <= w <= l.D() * hi
    ensures Den(l, t, h) >= 1.0
    ensures lo <= NextZ(l, t, h, z, w) <= hi
  {
    SemiImplicit(l, t, h, z, w);
    Denominator(l, t, h);
    Weighed(Den(l, t, h), h * Gain(l, t), l.D(), NextZ(l, t, h, z, w), z, w, lo, hi);
  }

  lemma Weighed(den: real, ha: real, D: real, zn: real, z: real, w: real, lo: real, hi: real)
    requires ha >= 0.0 && den == 1.0 + ha * D && den >= 1.0 && den * zn == z + ha * w
    requires lo <= z <= hi && D * lo <= w <= D * hi
    ensures lo <= zn <= hi
  {
    MulMono(ha, D * lo, w);
    MulMono(ha, w, D * hi);
    Expanded(ha, D, lo);
    Expanded(ha, D, hi);
    var x, y := den * lo, den * hi;
    assert x <= den * zn <= y;
    if zn < lo { MulPos(den, lo - zn); assert false; }
    if zn > hi { MulPos(den, zn - hi); assert false; }
  }

  lemma Expanded(ha: real, D: real, x: real)
    ensures (1.0 + ha * D) * x == x + ha * (D * x)
  {}

  /** One tick from a held snapshot stays in every rectangle that holds the old
      value, every neighbour value and, at a pinned node, the reference; and the
      gain never decreases. */
  lemma TickStaysIn(box: Box, l: Layer, nbrs: seq<Pair>, t: real, h: real)
    requires Ready(l, h) && |nbrs| == l.degree
    requires box.Holds(l.z) && AllIn(box, nbrs) && (l.p.b > 0.0 ==> box.Holds(l.p.r))
    ensures Den(Hold(l, nbrs), t, h) >= 1.0
    ensures var k := Step(Hold(l, nbrs), t, h);
            && box.Holds(k.z)
            && k.c >= l.c
            && Ready(Commit(Hold(l, nbrs), k), h)
  {
    hide NextZ, NextC, Slope, Den, Gain, Sum;
    var m := Hold(l, nbrs);
    HoldBounds(box, l, nbrs);
    StepBetween(m, t, h, m.z.P, m.w.P, box.lo.P, box.hi.P);
    StepBetween(m, t, h, m.z.Q, m.w.Q, box.lo.Q, box.hi.Q);
    GainGrows(m, t, h, Eta(m));
  }

  lemma GainGrows(l: Layer, t: real, h: real, eta: Pair)
    requires Ready(l, h)
    ensures Den(l, t, h) >= 1.0
    ensures NextC(l, t, h, eta) >= l.c
  {
    Denominator(l, t, h);
    ScheduleNonneg(l.p, t);
    var f := Fo(l.p, t);
    MulNonneg(h, Rho(l.p, t));
    MulNonneg(h * Rho(l.p, t), l.p.xi);
    MulNonneg(h * Rho(l.p, t) * l.p.xi, f);
    MulNonneg(h * Rho(l.p, t) * l.p.xi * f, f);
    SquareNonneg(eta.P);
    SquareNonneg(eta.Q);
    MulNonneg(h * Rho(l.p, t) * l.p.xi * f * f, eta.P * eta.P + eta.Q * eta.Q);
  }

  // ------------------------------------------------------- the laws, from the parameters

  /** The schedule's number at time t: what the deadline and the regularization leave of it. */
  predicate Scheduled(p: Params, t: real, a: real) {
    && (t <= p.To - p.deltaO ==> a * (p.To - t) == p.alpha0 * p.To)
    && (t >= p.To - p.deltaO ==> a * p.deltaO == p.alpha0 * p.To)
  }

  /** Before the cap the schedule is hyperbolic in the time left, from it on constant. */
  lemma ScheduleIff(p: Params, t: real, a: real)
    requires p.Accepted()
    ensures a == Alpha(p, t) <==> Scheduled(p, t, a)
  {
    var d := Max(p.To - t, p.deltaO);
    DivMul(p.alpha0 * p.To, d);
    if Scheduled(p, t, a) {
      Cancel(d, a, Alpha(p, t));
    }
  }

  /** So it rises strictly up to the cap, and no further. */
  lemma ScheduleRises(p: Params, t: real, u: real)
    requires p.Accepted() && p.alpha0 > 0.0 && t < u
    ensures u <= p.To - p.deltaO ==> Alpha(p, t) < Alpha(p, u)
    ensures t >= p.To - p.deltaO ==> Alpha(p, t) == Alpha(p, u)
  {
    hide Alpha;
    ScheduleIff(p, t, Alpha(p, t));
    ScheduleIff(p, u, Alpha(p, u));
    MulPos(p.alpha0, p.To);
    var a, b := Alpha(p, t), Alpha(p, u);
    if t >= p.To - p.deltaO {
      SameFactor(a, b, p.deltaO, p.alpha0 * p.To);
    } else if u <= p.To - p.deltaO {
      SmallerFactor(a, p.To - t, b, p.To - u);
    }
  }

  lemma SameFactor(a: real, b: real, d: real, n: real)
    requires d != 0.0 && a * d == n && b * d == n
    ensures a == b
  {
    Cancel(d, a, b);
  }

  lemma SmallerFactor(a: real, x: real, b: real, y: real)
    requires x > y > 0.0 && a * x == b * y > 0.0
    ensures a < b
  {
    if a <= 0.0 {
      MulNonneg(-a, x);
      assert false;
    }
    if b <= a {
      MulMono(y, b, a);
      MulPos(a, x - y);
      assert false;
    }
  }

  /** The gain moves by h 2 alpha xi (alpha + kappa_o)^2 times the squared disagreement. */
  lemma GainLaw(l: Layer, t: real, h: real, a: real)
    requires l.Valid() && Den(l, t, h) != 0.0 && Scheduled(l.p, t, a)
    ensures var eP, eQ := (l.degree as real + l.p.b) * l.z.P - l.w.P, (l.degree as real + l.p.b) * l.z.Q - l.w.Q;
            Step(l, t, h).c - l.c
            == h * (2.0 * a) * l.p.xi * (a + l.p.kappaO) * (a + l.p.kappaO) * (eP * eP + eQ * eQ)
  {
    hide Den, NextZ, Slope, Alpha, Scheduled;
    ScheduleIff(l.p, t, a);
  }

  /** It rises exactly when nothing in that product vanishes. */
  lemma GainRisesIff(l: Layer, t: real, h: real)
    requires Ready(l, h)
    ensures Den(l, t, h) >= 1.0
    ensures Step(l, t, h).c > l.c
       <==> h > 0.0 && l.p.alpha0 > 0.0 && l.p.xi > 0.0
            && !(l.D() * l.z.P == l.w.P && l.D() * l.z.Q == l.w.Q)
  {
    hide Den, Alpha, Boost, Square, NextC, NextZ, Slope;
    DenAtLeastOne(l, t, h);
    var a, e := Alpha(l.p, t), Eta(l);
    GainMoves(l, t, h);
    ScheduleNonneg(l.p, t);
    SchedulePositive(l.p, t);
    SquaresPositive(e.P, e.Q);
    RisesAlgebra(h, a, l.p.xi, l.p.kappaO, Square(e));
  }

  function Square(e: Pair): real {
    Product(e.P, e.P) + Product(e.Q, e.Q)
  }

  function Product(x: real, y: real): real {
    x * y
  }

  function Boost(h: real, a: real, xi: real, k: real, n: real): real {
    h * (2.0 * a) * xi * (a + k) * (a + k) * n
  }

  lemma GainMoves(l: Layer, t: real, h: real)
    requires l.Valid() && Den(l, t, h) != 0.0
    ensures Step(l, t, h).c == l.c + Boost(h, Alpha(l.p, t), l.p.xi, l.p.kappaO, Square(Eta(l)))
  {
    hide Den, Alpha, NextZ, Slope, Eta;
  }

  lemma SchedulePositive(p: Params, t: real)
    requires p.Accepted() && p.Nonnegative()
    ensures Alpha(p, t) > 0.0 <==> p.alpha0 > 0.0
  {
    var d := Max(p.To - t, p.deltaO);
    DivMul(p.alpha0 * p.To, d);
    if p.alpha0 > 0.0 {
      MulPos(p.alpha0, p.To);
      DivPos(p.alpha0 * p.To, d);
    } else {
      assert p.alpha0 * p.To == 0.0;
    }
  }

  lemma SquaresPositive(x: real, y: real)
    ensures Square(Pair(x, y)) >= 0.0
    ensures Square(Pair(x, y)) > 0.0 <==> x != 0.0 || y != 0.0
  {
    hide Product;
    SquarePositive(x);
    SquarePositive(y);
  }

  lemma SquarePositive(x: real)
    ensures Product(x, x) >= 0.0
    ensures Product(x, x) > 0.0 <==> x != 0.0
  {
    hide Product;
    ProductSign(x, x);
  }

  lemma ProductSign(x: real, y: real)
    ensures (x > 0.0 && y > 0.0) || (x < 0.0 && y < 0.0) ==> Product(x, y) > 0.0
    ensures x == 0.0 ==> Product(x, y) == 0.0
  {
    if x < 0.0 && y < 0.0 {
      MulPos(-x, -y);
    }
  }

  lemma RisesAlgebra(h: real, a: real, xi: real, k: real, n: real)
    requires h >= 0.0 && a >= 0.0 && xi >= 0.0 && k >= 0.0 && n >= 0.0
    ensures Boost(h, a, xi, k, n) > 0.0 <==> h > 0.0 && a > 0.0 && xi > 0.0 && n > 0.0
  {
    var x := h * (2.0 * a) * xi;
    var z := x * (a + k) * (a + k);
    assert Boost(h, a, xi, k, n) == z * n;
    if n == 0.0 {
      assert z * n == 0.0;
    } else if h > 0.0 && a > 0.0 && xi > 0.0 {
      MulPos(h, 2.0 * a);
      MulPos(h * (2.0 * a), xi);
      MulPos(x, a + k);
      MulPos(x * (a + k), a + k);
      MulPos(z, n);
    } else {
      NoFactor(h, a, xi);
      ZeroFactor(x, a + k, n);
    }
  }

  lemma ZeroFactor(x: real, f: real, n: real)
    requires x == 0.0
    ensures x * f * f * n == 0.0
  {}

  lemma NoFactor(h: real, a: real, xi: real)
    requires h == 0.0 || a == 0.0 || xi == 0.0
    ensures h * (2.0 * a) * xi == 0.0
  {
    if h != 0.0 && a != 0.0 {
      assert xi == 0.0;
    } else {
      assert h * (2.0 * a) == 0.0;
    }
  }

  /** The step itself, from the parameters and without a division. */
  lemma StepLaw(l: Layer, t: real, h: real, a: real)
    requires Ready(l, h) && Scheduled(l.p, t, a)
    ensures Den(l, t, h) >= 1.0
    ensures var k, D, g := Step(l, t, h), l.degree as real + l.p.b, h * (l.c * (a + l.p.kappaO));
            && (1.0 + g * D) * k.z.P == l.z.P + g * l.w.P
            && (1.0 + g * D) * k.z.Q == l.z.Q + g * l.w.Q
  {
    hide NextZ, NextC, Slope, Alpha, Scheduled;
    ScheduleIff(l.p, t, a);
    SemiImplicit(l, t, h, l.z.P, l.w.P);
    SemiImplicit(l, t, h, l.z.Q, l.w.Q);
  }

  lemma SquareNonneg(x: real)
    ensures x * x >= 0.0
  {
    if x >= 0.0 { MulNonneg(x, x); } else { MulNonneg(-x, -x); }
  }

  // ---------------------------------------------------------------- the object

  class VirtualLayer {
    const p: Params
    const degree: nat
    var zP: real
    var zQ: real
    var c: real
    var wP: real
    var wQ: real

    function Value(): Layer
      reads this
    {
      Layer(p, degree, Pair(zP, zQ), c, Pair(wP, wQ))
    }

    constructor (p: Params, degree: nat, z: Pair)
      requires Initial(p, degree, z).Valid()
      ensures Value() == Initial(p, degree, z)
    {
      this.p, this.degree := p, degree;
      zP, zQ, c := z.P, z.Q, p.c0;
      wP, wQ := p.b * p.r.P, p.b * p.r.Q;
    }

    /** False is the refusal of a snapshot of the wrong size. */
    method HoldSnapshot(nbrs: seq<Pair>) returns (ok: bool)
      modifies this`wP, this`wQ
      ensures ok <==> |nbrs| == degree
      ensures Value() == if ok then Hold(old(Value()), nbrs) else old(Value())
    {
      var sP, sQ := 0.0, 0.0;
      var n := 0;
      while n < |nbrs|
        invariant n <= |nbrs| && Pair(sP, sQ) == Sum(nbrs[..n])
      {
        assert nbrs[..n + 1][..n] == nbrs[..n];
        sP, sQ := sP + nbrs[n].P, sQ + nbrs[n].Q;
        n := n + 1;
      }
      assert nbrs[..n] == nbrs;
      if n != degree {
        return false;
      }
      wP, wQ := sP + p.b * p.r.P, sQ + p.b * p.r.Q;
      ok := true;
    }

    /** The next values, computed but not committed. */
    method Compute(t: real, h: real) returns (k: Candidate)
      requires Value().Valid() && Den(Value(), t, h) != 0.0
      ensures k == Step(Value(), t, h)
      ensures forall a | Scheduled(p, t, a) ::
                k.c - c == h * (2.0 * a) * p.xi * (a + p.kappaO) * (a + p.kappaO)
                           * (((degree as real + p.b) * zP - wP) * ((degree as real + p.b) * zP - wP)
                              + ((degree as real + p.b) * zQ - wQ) * ((degree as real + p.b) * zQ - wQ))
    {
      hide Slope, Den, NextC, NextZ, Scheduled;
      forall a | Scheduled(p, t, a) {
        GainLaw(Value(), t, h, a);
      }
      var eta := Eta(Value());
      var gP, gQ := Slope(Value(), t, h, eta.P), Slope(Value(), t, h, eta.Q);
      NextZIs(Value(), t, h, eta.P, gP, zP, wP);
      NextZIs(Value(), t, h, eta.Q, gQ, zQ, wQ);
      k := Candidate(Pair(zP + h * gP, zQ + h * gQ), NextC(Value(), t, h, eta), Pair(gP, gQ), eta);
    }

    method CommitValues(k: Candidate)
      modifies this`zP, this`zQ, this`c
      ensures Value() == Commit(old(Value()), k)
    {
      zP, zQ, c := k.z.P, k.z.Q, k.c;
    }
  }
}
